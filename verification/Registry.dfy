/** The rendezvous between a started child workflow and the command asking for its execution. */
module Registry {
  import opened Protocol

  class IDRegistry<E, L> {
    var entries: map<Id, E>
    var listeners: map<Id, L>

    constructor ()
      ensures entries == map[] && listeners == map[]
    {
      entries, listeners := map[], map[];
    }

    /** Returns the entry the listener must be called with, if there is one already. */
    method Listen(id: Id, l: L) returns (call: Option<E>)
      modifies this
      ensures entries == old(entries) && listeners == old(listeners)[id := l]
      ensures call == if id in old(entries) then Some(old(entries)[id]) else None
      ensures Apply(History(old(entries), old(listeners), []), Op.Listen(id, l)) ==
              History(entries, listeners, if call.Some? then [(l, call.value)] else [])
    {
      listeners := listeners[id := l];
      call := if id in entries then Some(entries[id]) else None;
    }

    /** Returns the listener to call with the entry, if there is one already. */
    method Push(id: Id, e: E) returns (call: Option<L>)
      modifies this
      ensures entries == old(entries)[id := e] && listeners == old(listeners)
      ensures call == if id in old(listeners) then Some(old(listeners)[id]) else None
      ensures Apply(History(old(entries), old(listeners), []), Op.Push(id, e)) ==
              History(entries, listeners, if call.Some? then [(call.value, e)] else [])
    {
      entries := entries[id := e];
      call := if id in listeners then Some(listeners[id]) else None;
    }
  }

  // ---- sequential histories ----

  datatype Op<E, L> = Listen(id: Id, listener: L) | Push(id: Id, entry: E)

  datatype History<E, L> = History(entries: map<Id, E>, listeners: map<Id, L>, calls: seq<(L, E)>)

  function Apply<E, L>(h: History<E, L>, op: Op<E, L>): History<E, L> {
    match op
    case Listen(id, l) =>
      History(h.entries, h.listeners[id := l], h.calls + (if id in h.entries then [(l, h.entries[id])] else []))
    case Push(id, e) =>
      History(h.entries[id := e], h.listeners, h.calls + (if id in h.listeners then [(h.listeners[id], e)] else []))
  }

  function ApplyAll<E, L>(ops: seq<Op<E, L>>): History<E, L> {
    if ops == [] then History(map[], map[], [])
    else Apply(ApplyAll(ops[..|ops| - 1]), ops[|ops| - 1])
  }

  /** Reading a history backwards for the newest entry or listener of an id. */
  function LatestEntry<E, L>(ops: seq<Op<E, L>>, id: Id): Option<E> {
    if ops == [] then None
    else
      var op := ops[|ops| - 1];
      if op.Push? && op.id == id then Some(op.entry) else LatestEntry(ops[..|ops| - 1], id)
  }

  function LatestListener<E, L>(ops: seq<Op<E, L>>, id: Id): Option<L> {
    if ops == [] then None
    else
      var op := ops[|ops| - 1];
      if op.Listen? && op.id == id then Some(op.listener) else LatestListener(ops[..|ops| - 1], id)
  }

  /** What the i-th operation delivers, from the operations before it alone. */
  function Delivery<E, L>(ops: seq<Op<E, L>>, i: nat): seq<(L, E)>
    requires i < |ops|
  {
    match ops[i]
    case Listen(id, l) =>
      var e := LatestEntry(ops[..i], id);
      if e.Some? then [(l, e.value)] else []
    case Push(id, e) =>
      var l := LatestListener(ops[..i], id);
      if l.Some? then [(l.value, e)] else []
  }

  function Deliveries<E, L>(ops: seq<Op<E, L>>, n: nat): seq<(L, E)>
    requires n <= |ops|
  {
    if n == 0 then [] else Deliveries(ops, n - 1) + Delivery(ops, n - 1)
  }

  lemma {:induction false} TablesAreLatest<E, L>(ops: seq<Op<E, L>>, id: Id)
    ensures var h := ApplyAll(ops);
            && LatestEntry(ops, id) == (if id in h.entries then Some(h.entries[id]) else None)
            && LatestListener(ops, id) == (if id in h.listeners then Some(h.listeners[id]) else None)
  {
    if ops != [] {
      TablesAreLatest(ops[..|ops| - 1], id);
    }
  }

  /** Over every sequential history the calls made are the deliveries: the latest listener and entry win. */
  lemma {:induction false} LatestWins<E, L>(ops: seq<Op<E, L>>, n: nat)
    requires n <= |ops|
    ensures ApplyAll(ops[..n]).calls == Deliveries(ops, n)
  {
    if n > 0 {
      LatestWins(ops, n - 1);
      assert ops[..n][..n - 1] == ops[..n - 1];
      TablesAreLatest(ops[..n - 1], ops[n - 1].id);
    }
  }

  // ---- which operation answers which listener ----

  /** A later Listen on the same id has taken over by then. */
  predicate Superseded<E, L>(ops: seq<Op<E, L>>, i: nat, j: nat)
    requires i < |ops|
  {
    exists k :: i < k < j && k < |ops| && ops[k].Listen? && ops[k].id == ops[i].id
  }

  /** The j-th operation calls the listener of the i-th: the Listen itself, if there is an entry already, or a Push that
      comes before another Listen. */
  predicate Serves<E, L>(ops: seq<Op<E, L>>, i: nat, j: nat)
    requires i < |ops| && j < |ops|
  {
    && ops[i].Listen? && i <= j
    && if j == i then LatestEntry(ops[..i], ops[i].id).Some? else Serving(ops, i, j)
  }

  predicate Serving<E, L>(ops: seq<Op<E, L>>, i: nat, j: nat)
    requires i < j < |ops|
  {
    ops[j].Push? && ops[j].id == ops[i].id && !Superseded(ops, i, j)
  }

  lemma {:induction false} ServedListener<E, L>(ops: seq<Op<E, L>>, i: nat, j: nat)
    requires i < j <= |ops| && ops[i].Listen? && !Superseded(ops, i, j)
    ensures LatestListener(ops[..j], ops[i].id) == Some(ops[i].listener)
  {
    assert ops[..j][..j - 1] == ops[..j - 1];
    if j > i + 1 {
      assert !Superseded(ops, i, j - 1);
      assert !(ops[j - 1].Listen? && ops[j - 1].id == ops[i].id);
      ServedListener(ops, i, j - 1);
    }
  }

  /** What serving delivers. */
  lemma ServesDelivers<E, L>(ops: seq<Op<E, L>>, i: nat, j: nat)
    requires i < |ops| && j < |ops| && Serves(ops, i, j)
    ensures |Delivery(ops, j)| == 1 && Delivery(ops, j)[0].0 == ops[i].listener
  {
    if i < j {
      ServedListener(ops, i, j);
    }
  }

  lemma {:induction false} ListenerServed<E, L>(ops: seq<Op<E, L>>, j: nat, id: Id) returns (i: nat)
    requires j <= |ops| && LatestListener(ops[..j], id).Some?
    ensures i < j && ops[i].Listen? && ops[i].id == id && !Superseded(ops, i, j)
  {
    assert ops[..j][..j - 1] == ops[..j - 1];
    if ops[j - 1].Listen? && ops[j - 1].id == id {
      i := j - 1;
    } else {
      i := ListenerServed(ops, j - 1, id);
    }
  }

  /** Every delivery serves one Listen, and one only. */
  lemma DeliveryServes<E, L>(ops: seq<Op<E, L>>, j: nat)
    requires j < |ops|
    ensures Delivery(ops, j) != [] <==> exists i :: 0 <= i < |ops| && Serves(ops, i, j)
    ensures forall i, k :: 0 <= i < |ops| && 0 <= k < |ops| && Serves(ops, i, j) && Serves(ops, k, j) ==> i == k
  {
    forall i | 0 <= i < |ops| && Serves(ops, i, j) ensures Delivery(ops, j) != [] {
      ServesDelivers(ops, i, j);
    }
    if Delivery(ops, j) != [] {
      if ops[j].Listen? {
        assert Serves(ops, j, j);
      } else {
        var i := ListenerServed(ops, j, ops[j].id);
        assert Serves(ops, i, j);
      }
    }
  }

  /** How often the listener of the i-th operation is called by the first `n`. */
  function Served<E, L>(ops: seq<Op<E, L>>, i: nat, n: nat): nat
    requires i < |ops| && n <= |ops|
  {
    if n == 0 then 0 else Served(ops, i, n - 1) + (if Serves(ops, i, n - 1) then 1 else 0)
  }

  lemma {:induction false} ServedCounts<E, L>(ops: seq<Op<E, L>>, i: nat, n: nat)
    requires i < |ops| && n <= |ops|
    ensures Served(ops, i, n) == 0 <==> forall j :: 0 <= j < n ==> !Serves(ops, i, j)
    ensures Served(ops, i, n) == 1 <==> exists j :: 0 <= j < n && Serves(ops, i, j) && forall k :: 0 <= k < n && Serves(ops, i, k) ==> k == j
  {
    hide Serves;
    if n > 0 {
      ServedCounts(ops, i, n - 1);
      if Serves(ops, i, n - 1) {
        assert Served(ops, i, n) == 1 <==> forall j :: 0 <= j < n - 1 ==> !Serves(ops, i, j);
        if Served(ops, i, n) != 1 {
          var j :| 0 <= j < n - 1 && Serves(ops, i, j);
        }
      } else {
        if j :| 0 <= j < n - 1 && Serves(ops, i, j) && forall k :: 0 <= k < n - 1 && Serves(ops, i, k) ==> k == j {
          assert forall k :: 0 <= k < n && Serves(ops, i, k) ==> k == j;
        }
      }
    }
  }

  /** Exactly when a listener is called exactly once: there was an entry and none is pushed before the next Listen on the
      id, or there was none and exactly one is. */
  lemma CalledOnce<E, L>(ops: seq<Op<E, L>>, i: nat)
    requires i < |ops| && ops[i].Listen?
    ensures Served(ops, i, |ops|) == 1 <==>
            if LatestEntry(ops[..i], ops[i].id).Some? then forall j :: i < j < |ops| ==> !Serving(ops, i, j)
            else exists j :: i < j < |ops| && Serving(ops, i, j) && forall k :: i < k < |ops| && Serving(ops, i, k) ==> k == j
  {
    hide Serving;
    ServedCounts(ops, i, |ops|);
    if LatestEntry(ops[..i], ops[i].id).Some? {
      assert Serves(ops, i, i);
      assert forall j :: i < j < |ops| ==> (Serves(ops, i, j) <==> Serving(ops, i, j));
    } else {
      assert forall j :: 0 <= j < |ops| ==> (Serves(ops, i, j) <==> i < j && Serving(ops, i, j));
    }
  }

  // ---- one Listen against one Push, each a store followed by a load ----

  datatype Thread = Listener | Pusher
  datatype Pc = Store | Load | Done

  datatype Race<E, L> = Race(entry: Option<E>, listener: Option<L>, lpc: Pc, ppc: Pc, calls: seq<(L, E)>)

  /** One move of a thread; a finished thread does not move. */
  function Move<E, L>(s: Race<E, L>, t: Thread, l: L, e: E): Race<E, L> {
    match t
    case Listener => (
      match s.lpc
      case Store => s.(listener := Some(l), lpc := Load)
      case Load => s.(lpc := Done, calls := s.calls + (if s.entry.Some? then [(l, s.entry.value)] else []))
      case Done => s)
    case Pusher => (
      match s.ppc
      case Store => s.(entry := Some(e), ppc := Load)
      case Load => s.(ppc := Done, calls := s.calls + (if s.listener.Some? then [(s.listener.value, e)] else []))
      case Done => s)
  }

  function Moves<E, L>(schedule: seq<Thread>, l: L, e: E): Race<E, L> {
    if schedule == [] then Race(None, None, Store, Store, [])
    else Move(Moves(schedule[..|schedule| - 1], l, e), schedule[|schedule| - 1], l, e)
  }

  /** At some point of the schedule both threads had stored and neither had loaded. */
  predicate Crossed(schedule: seq<Thread>) {
    exists n :: 0 <= n <= |schedule| && BothStored(schedule[..n])
  }

  predicate BothStored(prefix: seq<Thread>) {
    && (multiset(prefix)[Listener] == 1)
    && (multiset(prefix)[Pusher] == 1)
  }

  predicate CrossedBy<E, L>(s: Race<E, L>, crossed: bool) {
    match (s.lpc, s.ppc)
    case (Store, _) => !crossed
    case (_, Store) => !crossed
    case (Load, Load) => crossed
    case _ => true
  }

  ghost predicate Reached<E(!new), L(!new)>(s: Race<E, L>, l: L, e: E, crossed: bool) {
    && (s.entry == if s.ppc == Store then None else Some(e))
    && (s.listener == if s.lpc == Store then None else Some(l))
    && (forall c :: c in s.calls ==> c == (l, e))
    && CrossedBy(s, crossed)
    && |s.calls| == (match (s.lpc, s.ppc)
                     case (Done, Done) => if crossed then 2 else 1
                     case (Done, Load) => if crossed then 1 else 0
                     case (Load, Done) => if crossed then 1 else 0
                     case _ => 0)
  }

  function PcAfter(moves: nat): Pc {
    match moves case 0 => Store case 1 => Load case _ => Done
  }

  lemma {:induction false} Counters<E, L>(schedule: seq<Thread>, l: L, e: E)
    ensures var s := Moves(schedule, l, e);
            s.lpc == PcAfter(multiset(schedule)[Listener]) && s.ppc == PcAfter(multiset(schedule)[Pusher])
  {
    if schedule != [] {
      var before, t := schedule[..|schedule| - 1], schedule[|schedule| - 1];
      Counters(before, l, e);
      assert schedule == before + [t];
    }
  }

  lemma MoveReaches<E(!new), L(!new)>(s: Race<E, L>, t: Thread, l: L, e: E, crossed: bool)
    requires Reached(s, l, e, crossed)
    ensures var r := Move(s, t, l, e);
            Reached(r, l, e, crossed || (r.lpc == Load && r.ppc == Load))
  {
  }

  lemma {:induction false} EverySchedule<E(!new), L(!new)>(schedule: seq<Thread>, l: L, e: E)
    ensures Reached(Moves(schedule, l, e), l, e, Crossed(schedule))
  {
    hide Crossed;
    hide Reached;
    if schedule == [] {
      NoneCrossed();
      NoneReached(l, e);
    } else {
      var before, t := schedule[..|schedule| - 1], schedule[|schedule| - 1];
      EverySchedule(before, l, e);
      assert schedule == before + [t];
      CrossedStep(before, t);
      MoveReaches(Moves(before, l, e), t, l, e, Crossed(before));
      Counters(schedule, l, e);
    }
  }

  lemma NoneReached<E(!new), L(!new)>(l: L, e: E)
    ensures Reached(Moves([], l, e), l, e, false)
  {
  }

  lemma NoneCrossed()
    ensures !Crossed([])
  {
  }

  lemma CrossedStep(before: seq<Thread>, t: Thread)
    ensures Crossed(before + [t]) <==> Crossed(before) || BothStored(before + [t])
  {
    var s := before + [t];
    if Crossed(before) {
      var n :| 0 <= n <= |before| && BothStored(before[..n]);
      assert s[..n] == before[..n];
    }
    if BothStored(s) {
      assert s[..|s|] == s;
    }
    if Crossed(s) && !BothStored(s) {
      var n :| 0 <= n <= |s| && BothStored(s[..n]);
      assert n != |s| by { assert s[..|s|] == s; }
      assert s[..n] == before[..n];
    }
  }

  /** Whatever the interleaving, once both operations are over the listener was called with the entry: exactly once,
      unless both stores came before both loads, and then exactly twice. */
  lemma Rendezvous<E(!new), L(!new)>(schedule: seq<Thread>, l: L, e: E)
    requires Moves(schedule, l, e).lpc == Done && Moves(schedule, l, e).ppc == Done
    ensures Moves(schedule, l, e).calls == if Crossed(schedule) then [(l, e), (l, e)] else [(l, e)]
  {
    EverySchedule(schedule, l, e);
    var calls := Moves(schedule, l, e).calls;
    assert forall i :: 0 <= i < |calls| ==> calls[i] in calls;
  }
}
