/** Cancel functions of operations in flight, by command id. */
module Cancelling {
  import opened Protocol

  /** What a Cancel over `ids` leaves and runs when cancel functions do not touch the table themselves. */
  datatype Cancelled<F> = Cancelled(table: map<Id, F>, ran: seq<Id>, failed: bool)

  function CancelAll<F>(table: map<Id, F>, ids: seq<Id>, fails: F -> bool): Cancelled<F>
    decreases |ids|
  {
    if ids == [] then Cancelled(table, [], false)
    else if ids[0] !in table then CancelAll(table, ids[1..], fails)
    else if fails(table[ids[0]]) then Cancelled(table - {ids[0]}, [ids[0]], true)
    else
      var rest := CancelAll(table - {ids[0]}, ids[1..], fails);
      rest.(ran := [ids[0]] + rest.ran)
  }

  /** Every cancel function runs at most once however often its id is listed; what ran is gone from the table, the
      rest is untouched; without a failure every listed id is gone, and with one it is the last to run. */
  lemma {:induction false} CancelOnce<F>(table: map<Id, F>, ids: seq<Id>, fails: F -> bool)
    ensures var r := CancelAll(table, ids, fails);
            && (forall i, j :: 0 <= i < j < |r.ran| ==> r.ran[i] != r.ran[j])
            && (forall i :: 0 <= i < |r.ran| ==> r.ran[i] in table && r.ran[i] in ids)
            && (forall id :: id in r.table <==> id in table && id !in r.ran)
            && (forall id :: id in r.table ==> r.table[id] == table[id])
            && (!r.failed ==> forall id :: id in ids ==> id !in r.table)
            && (forall i :: 0 <= i < |r.ran| ==> (fails(table[r.ran[i]]) <==> r.failed && i == |r.ran| - 1))
            && (r.failed ==> r.ran != [])
    decreases |ids|
  {
    if ids == [] {
    } else if ids[0] !in table {
      CancelOnce(table, ids[1..], fails);
    } else if !fails(table[ids[0]]) {
      CancelOnce(table - {ids[0]}, ids[1..], fails);
      var rest := CancelAll(table - {ids[0]}, ids[1..], fails);
      var r := CancelAll(table, ids, fails);
      assert r.ran == [ids[0]] + rest.ran;
      assert forall i :: 0 < i < |r.ran| ==> r.ran[i] == rest.ran[i - 1];
      assert forall id :: id in r.ran <==> id == ids[0] || id in rest.ran;
    }
  }

  class Canceller<F> {
    var ids: map<Id, F>

    constructor ()
      ensures ids == map[]
    {
      ids := map[];
    }

    method Register(id: Id, cancel: F)
      modifies this
      ensures ids == old(ids)[id := cancel]
    {
      ids := ids[id := cancel];
    }

    method Discard(id: Id)
      modifies this
      ensures ids == old(ids) - {id}
    {
      ids := ids - {id};
    }

    method LoadAndDelete(id: Id) returns (cancel: Option<F>)
      modifies this
      ensures ids == old(ids) - {id}
      ensures cancel == if id in old(ids) then Some(old(ids)[id]) else None
    {
      cancel := if id in ids then Some(ids[id]) else None;
      ids := ids - {id};
    }

    /** The load-and-delete loop; it stops at the first error. */
    method Cancel(wanted: seq<Id>, fails: F -> bool) returns (failed: bool, ghost ran: seq<Id>)
      modifies this
      ensures Cancelled(ids, ran, failed) == CancelAll(old(ids), wanted, fails)
    {
      ran := [];
      failed := false;
      for i := 0 to |wanted|
        invariant !failed
        invariant var rest := CancelAll(ids, wanted[i..], fails);
                  CancelAll(old(ids), wanted, fails) == rest.(ran := ran + rest.ran)
      {
        assert wanted[i..][1..] == wanted[i + 1..];
        ghost var rest := CancelAll(ids - {wanted[i]}, wanted[i + 1..], fails);
        assert wanted[i] !in ids ==> ids - {wanted[i]} == ids;
        var cancel := LoadAndDelete(wanted[i]);
        if cancel.Some? {
          assert ran + ([wanted[i]] + rest.ran) == (ran + [wanted[i]]) + rest.ran;
          ran := ran + [wanted[i]];
          if fails(cancel.value) {
            failed := true;
            return;
          }
        }
      }
      assert ran + [] == ran;
    }
  }
}
