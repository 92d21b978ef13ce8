/** The outbound message queue: a slice over a reused backing array, and the shared id counter behind it. */
module Queue {
  import opened Protocol

  /** One atomic draw, after those the others make before it: what the counter has drawn then, and what is to come. */
  function Drawn(total: nat, others: seq<nat>): (nat, seq<nat>) {
    if others == [] then (total + 1, []) else (total + others[0] + 1, others[1..])
  }

  /** The process-wide sequence. `total` counts every id ever drawn, by whichever workflow; `last` is the 64-bit register;
      `others` are the draws of the other workflows before each of the next ones made here. */
  class Counter {
    var last: nat
    var others: seq<nat>
    ghost var total: nat

    ghost predicate Valid() reads this { last == Wrap(total) }

    constructor (others: seq<nat>)
      ensures Valid() && total == 0 && this.others == others
    {
      last, total := 0, 0;
      this.others := others;
    }

    method Next() returns (id: Id)
      requires Valid()
      modifies this
      ensures Valid() && (total, others) == Drawn(old(total), old(others)) && id == Wrap(total)
    {
      var more := 1;
      if others != [] {
        more := others[0] + 1;
        others := others[1..];
      }
      last := Wrap(last + more);
      total := total + more;
      id := last;
    }
  }

  /** A Go slice: the first `len` cells of a backing array. */
  datatype Slice = Slice(cells: array<Message>, len: nat)

  class MessageQueue {
    const counter: Counter
    var data: array<Message>
    var len: nat

    ghost predicate Valid() reads this, counter { len <= data.Length && counter.Valid() }

    ghost function Contents(): seq<Message>
      requires len <= data.Length
      reads this, data
    {
      data[..len]
    }

    constructor (counter: Counter)
      requires counter.Valid()
      ensures Valid() && Contents() == [] && this.counter == counter && fresh(data)
    {
      this.counter := counter;
      data := new Message[5](_ => Response(0, NoPayloads));
      len := 0;
    }

    /** Truncates in place: the cells keep their content until the next append. */
    method Flush()
      requires Valid()
      modifies this
      ensures Valid() && Contents() == [] && data == old(data)
    {
      len := 0;
    }

    /** append: in place while the capacity lasts, else into a larger copy. A slice taken before stays as it was. */
    method Append(m: Message)
      requires Valid()
      modifies this, data
      ensures Valid() && Contents() == old(Contents()) + [m]
      ensures old(len) < old(data.Length) ==> data == old(data)
      ensures data == old(data) || fresh(data)
      ensures old(data)[..old(len)] == old(data[..len])
    {
      if len == data.Length {
        var old_cells := data;
        var larger := new Message[2 * len + 1](_ => Response(0, NoPayloads));
        forall i | 0 <= i < len {
          larger[i] := old_cells[i];
        }
        data := larger;
        assert data[..len] == old(data[..len]);
      }
      data[len] := m;
      len := len + 1;
    }

    method PushCommand(command: Command, payloads: Payloads, header: Option<Header>)
      requires Valid()
      modifies this, data, counter
      ensures Valid() && (counter.total, counter.others) == Drawn(old(counter.total), old(counter.others))
      ensures Contents() == old(Contents()) + [CommandMessage(Wrap(counter.total), command, payloads, header)]
      ensures data == old(data) || fresh(data)
      ensures old(data)[..old(len)] == old(data[..len])
    {
      var id := counter.Next();
      Append(CommandMessage(id, command, payloads, header));
    }

    method PushResponse(id: Id, payloads: Payloads)
      requires Valid()
      modifies this, data
      ensures Valid() && Contents() == old(Contents()) + [Response(id, payloads)]
      ensures data == old(data) || fresh(data)
      ensures old(data)[..old(len)] == old(data[..len])
    {
      Append(Response(id, payloads));
    }

    method PushError(id: Id, failure: Failure)
      requires Valid()
      modifies this, data
      ensures Valid() && Contents() == old(Contents()) + [ErrorResponse(id, failure)]
      ensures data == old(data) || fresh(data)
      ensures old(data)[..old(len)] == old(data[..len])
    {
      Append(ErrorResponse(id, failure));
    }

    /** A message with a fresh id that is not queued. */
    method AllocateMessage(command: Command, payloads: Payloads, header: Option<Header>) returns (m: Message)
      requires Valid()
      modifies counter
      ensures Valid() && (counter.total, counter.others) == Drawn(old(counter.total), old(counter.others))
      ensures m == CommandMessage(Wrap(counter.total), command, payloads, header)
    {
      var id := counter.Next();
      m := CommandMessage(id, command, payloads, header);
    }

    /** However many pushes follow, a slice taken from the queue keeps its messages, whether the queue grows in place or
        moves to a larger array. */
    method PushAll(s: Slice, ms: seq<Message>)
      requires Valid() && s.cells == data && s.len <= len
      modifies this, data
      ensures Valid() && Contents() == old(Contents()) + ms
      ensures s.cells[..s.len] == old(s.cells[..s.len])
      ensures data == old(data) || fresh(data)
    {
      for i := 0 to |ms|
        invariant Valid() && s.len <= len && (data == s.cells || fresh(data))
        invariant Contents() == old(Contents()) + ms[..i]
        invariant s.cells[..s.len] == old(s.cells[..s.len])
      {
        var cells, n := data, len;
        ghost var kept := cells[..n];
        Append(ms[i]);
        assert cells[..n] == kept;
        assert s.cells == cells ==> s.cells[..s.len] == kept[..s.len];
        assert ms[..i + 1] == ms[..i] + [ms[i]];
      }
      assert ms[..|ms|] == ms;
    }

    /** The first push after a flush takes the place of the slice's first message. */
    method FlushThenPush(s: Slice, m: Message)
      requires Valid() && s.cells == data && 0 < s.len <= len
      modifies this, data
      ensures Valid() && Contents() == [m]
      ensures data == old(data) && s.cells[0] == m
    {
      Flush();
      Append(m);
      assert data[..len][0] == m;
    }

    method Messages() returns (s: Slice)
      requires Valid()
      ensures s.len <= s.cells.Length && s.cells[..s.len] == Contents()
      ensures s.cells == data && s.len == len
    {
      s := Slice(data, len);
    }
  }
}
