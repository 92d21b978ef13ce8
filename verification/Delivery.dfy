/** What every step keeps about messages, answers and cancel functions. */
module Delivery {
  import opened Protocol
  import opened Engine
  import Attributes

  // ---- reading the histories ----

  function Messages(ps: seq<Push>): seq<Message> {
    seq(|ps|, i requires 0 <= i < |ps| => MessageOf(ps[i]))
  }

  function Flat(batches: seq<seq<Message>>): seq<Message> {
    if batches == [] then [] else Flat(batches[..|batches| - 1]) + batches[|batches| - 1]
  }

  /** The handler answers among the pushed messages, in order. */
  function Answers(ps: seq<Push>): seq<Answer> {
    if ps == [] then []
    else Answers(ps[..|ps| - 1]) + (if ps[|ps| - 1].Reply? then [ps[|ps| - 1].answer] else [])
  }

  /** How often the handler of `h` was called. */
  function Count(fired: seq<Answer>, h: Handle): nat {
    if fired == [] then 0
    else Count(fired[..|fired| - 1], h) + (if fired[|fired| - 1].source == Handler(h) then 1 else 0)
  }

  /** Operations whose handler was called after their cancel function was registered. */
  function Late(ledger: seq<Mark>): set<Handle> {
    if ledger == [] then {}
    else
      var before := ledger[..|ledger| - 1];
      var last := ledger[|ledger| - 1];
      Late(before) + (if last.Fired? && Registered(last.handle) in before then {last.handle} else {})
  }

  /** Every cancel function that ran was registered, had not run before, and was for no operation late by then. */
  predicate Safe(ledger: seq<Mark>) {
    ledger == [] ||
    var before := ledger[..|ledger| - 1];
    var last := ledger[|ledger| - 1];
    Safe(before) && (last.Cancelled? ==> Registered(last.handle) in before && Cancelled(last.handle) !in before && last.handle !in Late(before))
  }

  lemma FlatSnoc(batches: seq<seq<Message>>, b: seq<Message>)
    ensures Flat(batches + [b]) == Flat(batches) + b
  {
    assert (batches + [b])[..|batches|] == batches;
  }

  lemma AnswersSnoc(ps: seq<Push>, p: Push)
    ensures Answers(ps + [p]) == Answers(ps) + (if p.Reply? then [p.answer] else [])
  {
    assert (ps + [p])[..|ps|] == ps;
  }

  lemma {:induction false} AnswersConcat(a: seq<Push>, b: seq<Push>)
    ensures Answers(a + b) == Answers(a) + Answers(b)
  {
    if b == [] {
      assert a + b == a;
    } else {
      AnswersConcat(a, b[..|b| - 1]);
      assert (a + b)[..|a + b| - 1] == a + b[..|b| - 1];
    }
  }

  lemma CountSnoc(fired: seq<Answer>, a: Answer, h: Handle)
    ensures Count(fired + [a], h) == Count(fired, h) + (if a.source == Handler(h) then 1 else 0)
  {
    assert (fired + [a])[..|fired|] == fired;
  }

  lemma {:induction false} CountConcat(a: seq<Answer>, b: seq<Answer>, h: Handle)
    ensures Count(a + b, h) == Count(a, h) + Count(b, h)
  {
    if b == [] {
      assert a + b == a;
    } else {
      CountConcat(a, b[..|b| - 1], h);
      assert (a + b)[..|a + b| - 1] == a + b[..|b| - 1];
    }
  }

  lemma LedgerSnoc(ledger: seq<Mark>, m: Mark)
    ensures Late(ledger + [m]) == Late(ledger) + (if m.Fired? && Registered(m.handle) in ledger then {m.handle} else {})
    ensures Safe(ledger + [m]) <==>
            Safe(ledger) && (m.Cancelled? ==> Registered(m.handle) in ledger && Cancelled(m.handle) !in ledger && m.handle !in Late(ledger))
  {
    assert (ledger + [m])[..|ledger|] == ledger;
  }

  lemma {:induction false} LateWasRegistered(ledger: seq<Mark>, h: Handle)
    requires h in Late(ledger)
    ensures Registered(h) in ledger
  {
    var before := ledger[..|ledger| - 1];
    if h in Late(before) {
      LateWasRegistered(before, h);
    }
  }

  // ---- the invariant ----

  predicate IsStarted(started: seq<Handle>, h: Handle) {
    h.n < |started| && started[h.n] == h
  }

  /** Everything pushed is sent, queued or (by Close) dropped, in order. */
  predicate Conserved(o: Outbox) {
    Messages(o.pushed) == Flat(o.sent) + o.dropped + o.queue
  }

  /** A result handler answers under the id of the command that started its operation. */
  predicate OwnIds(answers: seq<Answer>) {
    forall j :: 0 <= j < |answers| && answers[j].source.Handler? ==> answers[j].id == answers[j].source.handle.id
  }

  /** Answers pushed, then deferred from index `i` on, are the handler calls in their order. */
  predicate Ordered(s: State, i: nat) {
    && i <= |s.callbacks|
    && Answers(s.out.pushed) + s.callbacks[i..] == s.log.fired
    && OwnIds(s.log.fired)
  }

  /** A started operation is pending, or its handler was called once, and the ledger says so. */
  ghost predicate Once(s: State) {
    && (forall h :: h in s.env.pending ==> IsStarted(s.env.started, h))
    && (forall h :: Count(s.log.fired, h) == if IsStarted(s.env.started, h) && h !in s.env.pending then 1 else 0)
    && (forall h :: Fired(h) in s.log.ledger <==> IsStarted(s.env.started, h) && h !in s.env.pending)
  }

  predicate Deferred(callbacks: seq<Answer>, i: nat, h: Handle) {
    exists j :: i <= j < |callbacks| && callbacks[j].source == Handler(h)
  }

  /** A cancel function is there for its own operation, unused, and late only with the discarding callback still due. */
  predicate Entry(ledger: seq<Mark>, callbacks: seq<Answer>, i: nat, id: Id, h: Handle) {
    && OpenEntry(ledger, id, h)
    && (h in Late(ledger) ==> Deferred(callbacks, i, h))
  }

  predicate OpenEntry(ledger: seq<Mark>, id: Id, h: Handle) {
    h.id == id && Registered(h) in ledger && Cancelled(h) !in ledger
  }

  ghost predicate Cancellers(s: State, i: nat) {
    && Safe(s.log.ledger)
    && (forall id :: id in s.canceller ==> Entry(s.log.ledger, s.callbacks, i, id, s.canceller[id].handle))
    && (forall h :: Registered(h) in s.log.ledger ==> IsStarted(s.env.started, h))
    && (forall h :: Cancelled(h) in s.log.ledger ==> Registered(h) in s.log.ledger)
  }

  ghost predicate At(s: State, i: nat) {
    Conserved(s.out) && s.out.dropped == [] && Ordered(s, i) && Once(s) && Cancellers(s, i)
  }

  /** The invariant between the steps of a run, and inside a task once the deferred callbacks are done. */
  ghost predicate Inv(s: State) {
    At(s, 0) && (s.inLoop ==> s.callbacks == [])
  }

  /** A step that registers and cancels nothing. */
  ghost predicate SameMarks(s: State, r: State) {
    && r.env.started == s.env.started
    && r.inLoop == s.inLoop
    && (forall h :: Registered(h) in r.log.ledger <==> Registered(h) in s.log.ledger)
    && (forall h :: Cancelled(h) in r.log.ledger <==> Cancelled(h) in s.log.ledger)
  }

  /** The invariant reads these parts of the state only. */
  lemma Same(s: State, r: State)
    requires Inv(s)
    requires r.callbacks == s.callbacks && r.canceller == s.canceller && r.out.pushed == s.out.pushed
    requires r.log.fired == s.log.fired && r.log.ledger == s.log.ledger
    requires r.env.started == s.env.started && r.env.pending == s.env.pending
    requires Conserved(r.out) && r.out.dropped == [] && (r.inLoop ==> r.callbacks == [])
    ensures Inv(r)
    ensures r.inLoop == s.inLoop ==> SameMarks(s, r)
  {
  }

  // ---- the primitive steps ----

  lemma PushKeeps(o: Outbox, p: Push)
    requires Conserved(o)
    ensures Conserved(o.Pushed(p))
    ensures Answers(o.Pushed(p).pushed) == Answers(o.pushed) + (if p.Reply? then [p.answer] else [])
  {
    AnswersSnoc(o.pushed, p);
    var r := o.Pushed(p);
    assert Messages(r.pushed) == Messages(o.pushed) + [MessageOf(p)];
    assert Flat(o.sent) + o.dropped + (o.queue + [MessageOf(p)]) == (Flat(o.sent) + o.dropped + o.queue) + [MessageOf(p)];
  }

  lemma CommandKeeps(s: State, c: Command, payloads: Payloads, header: Option<Header>)
    requires Inv(s)
    ensures Inv(s.(out := s.out.Command(c, payloads, header)))
  {
    var o := s.out.Drew();
    PushKeeps(o, Own(CommandMessage(Wrap(o.count), c, payloads, header)));
  }

  lemma OwnKeeps(s: State, m: Message)
    requires Inv(s)
    ensures Inv(s.(out := s.out.Pushed(Own(m))))
  {
    PushKeeps(s.out, Own(m));
  }

  lemma DiscardKeeps(s: State, id: Id)
    requires Inv(s)
    ensures Inv(s.(canceller := s.canceller - {id}))
  {
  }

  lemma RunCallbackKeeps(s: State, i: nat)
    requires i < |s.callbacks| && At(s, i)
    ensures At(RunCallback(s, s.callbacks[i]), i + 1)
  {
    hide Count;
    hide Late;
    hide Safe;
    hide Answers;
    hide Flat;
    hide Messages;
    var a := s.callbacks[i];
    var r := RunCallback(s, a);
    PushKeeps(s.out, Reply(a));
    assert s.callbacks[i..] == [a] + s.callbacks[i + 1..];
    forall id | id in r.canceller
      ensures Entry(r.log.ledger, r.callbacks, i + 1, id, r.canceller[id].handle)
    {
      var h := r.canceller[id].handle;
      if h in Late(s.log.ledger) {
        var j :| i <= j < |s.callbacks| && s.callbacks[j].source == Handler(h);
        assert j != i by { assert s.log.fired[|Answers(s.out.pushed)|] == a; }
        assert r.callbacks[j].source == Handler(h);
      }
    }
  }

  lemma {:induction false} DrainKeeps(s: State, i: nat)
    requires i <= |s.callbacks| && At(s, i)
    ensures At(DrainCallbacks(s, i), 0)
    decreases |s.callbacks| - i
  {
    if i < |s.callbacks| {
      RunCallbackKeeps(s, i);
      DrainKeeps(RunCallback(s, s.callbacks[i]), i + 1);
    } else {
      var r := s.(callbacks := []);
      assert s.callbacks[i..] == [] && r.callbacks[0..] == [];
      forall id | id in r.canceller
        ensures Entry(r.log.ledger, r.callbacks, 0, id, r.canceller[id].handle)
      {
        assert !Deferred(s.callbacks, i, s.canceller[id].handle);
      }
    }
  }

  /** An answer handed to its handler, before anything else knows of it. */
  ghost predicate Undelivered(s: State, a: Answer) {
    && Conserved(s.out) && s.out.dropped == [] && Ordered(s, 0)
    && (s.inLoop ==> s.callbacks == [])
    && Safe(s.log.ledger)
    && (forall id :: id in s.canceller ==> Entry(s.log.ledger, s.callbacks, 0, id, s.canceller[id].handle) || (a.source == Handler(s.canceller[id].handle) && OpenEntry(s.log.ledger, id, s.canceller[id].handle)))
    && (forall h :: Registered(h) in s.log.ledger ==> IsStarted(s.env.started, h))
    && (forall h :: Cancelled(h) in s.log.ledger ==> Registered(h) in s.log.ledger)
    && (a.source.Handler? ==> a.id == a.source.handle.id)
  }

  lemma DeliverKeeps(s: State, a: Answer)
    requires Undelivered(s, a)
    requires forall h :: h in s.env.pending ==> IsStarted(s.env.started, h)
    requires forall h :: Count(s.log.fired, h) + (if a.source == Handler(h) then 1 else 0) == if IsStarted(s.env.started, h) && h !in s.env.pending then 1 else 0
    requires forall h :: Fired(h) in s.log.ledger <==> IsStarted(s.env.started, h) && h !in s.env.pending
    ensures Inv(Deliver(s, a)) && SameMarks(s, Deliver(s, a))
  {
    var r := Deliver(s, a);
    forall h {
      CountSnoc(s.log.fired, a, h);
    }
    if s.inLoop {
      PushKeeps(s.out, Reply(a));
      assert s.callbacks[0..] == [] && r.callbacks[0..] == [];
      assert Answers(r.out.pushed) + [] == (Answers(s.out.pushed) + []) + [a];
    } else {
      assert s.callbacks[0..] == s.callbacks && r.callbacks[0..] == s.callbacks + [a];
      assert Answers(s.out.pushed) + (s.callbacks + [a]) == (Answers(s.out.pushed) + s.callbacks) + [a];
      forall id | id in r.canceller
        ensures Entry(r.log.ledger, r.callbacks, 0, id, r.canceller[id].handle)
      {
        var h := r.canceller[id].handle;
        if a.source == Handler(h) {
          assert r.callbacks[|s.callbacks|].source == Handler(h);
        } else if h in Late(s.log.ledger) {
          var j :| 0 <= j < |s.callbacks| && s.callbacks[j].source == Handler(h);
          assert r.callbacks[j].source == Handler(h);
        }
      }
    }
  }

  function Surrendered(s: State, h: Handle): State {
    s.(env := s.env.(pending := s.env.pending - {h}), log := s.log.(ledger := s.log.ledger + [Fired(h)]))
  }

  lemma SurrenderKeeps(s: State, h: Handle, o: Outcome)
    requires Inv(s) && h in s.env.pending
    ensures Undelivered(Surrendered(s, h), Answer(Handler(h), h.id, o))
  {
    var s1 := Surrendered(s, h);
    LedgerSnoc(s.log.ledger, Fired(h));
    forall id | id in s1.canceller
      ensures OpenEntry(s1.log.ledger, id, s1.canceller[id].handle)
      ensures s1.canceller[id].handle != h ==> Entry(s1.log.ledger, s1.callbacks, 0, id, s1.canceller[id].handle)
    {
      assert Entry(s.log.ledger, s.callbacks, 0, id, s1.canceller[id].handle);
    }
  }

  lemma FireResultKeeps(s: State, h: Handle, o: Outcome)
    requires Inv(s) && h in s.env.pending
    ensures Inv(Fire(s, Result(h, o))) && SameMarks(s, Fire(s, Result(h, o)))
  {
    hide Undelivered;
    hide Cancellers;
    hide Ordered;
    hide Conserved;
    hide Deliver;
    hide Count;
    SurrenderKeeps(s, h, o);
    assert IsStarted(s.env.started, h);
    DeliverKeeps(Surrendered(s, h), Answer(Handler(h), h.id, o));
  }

  lemma FireKeeps(s: State, f: Firing)
    requires Inv(s)
    ensures Inv(Fire(s, f)) && SameMarks(s, Fire(s, f))
  {
    hide Once;
    hide Ordered;
    hide Cancellers;
    hide Conserved;
    match f
    case Result(h, o) =>
      if h in s.env.pending {
        FireResultKeeps(s, h, o);
      }
    case Started(h, o) =>
      if h in s.env.starting {
        var s1 := s.(env := s.env.(starting := s.env.starting - {h}));
        Same(s, s1);
        PushChildKeeps(s1, h.id, o);
      }
  }

  lemma PushChildKeeps(s: State, child: Id, o: Outcome)
    requires At(s, 0) && (s.inLoop ==> s.callbacks == [])
    ensures Inv(PushChild(s, child, o)) && SameMarks(s, PushChild(s, child, o))
  {
    var s1 := EntryStored(s, child, o);
    Same(s, s1);
    if child in s.children.listeners {
      DeliverKeeps(s1, Answer(Listener(child), s.children.listeners[child], o));
    }
  }

  lemma ListenKeeps(s: State, child: Id, id: Id)
    requires Inv(s)
    ensures Inv(Listen(s, child, id))
  {
    var s1 := ListenerStored(s, child, id);
    Same(s, s1);
    if child in s.children.entries {
      DeliverKeeps(s1, Answer(Listener(child), id, s.children.entries[child]));
    }
  }

  lemma {:induction false} FireAllKeeps(s: State, fs: seq<Firing>)
    requires Inv(s)
    ensures Inv(FireAll(s, fs)) && SameMarks(s, FireAll(s, fs))
    decreases |fs|
  {
    if fs != [] {
      FireKeeps(s, fs[0]);
      FireAllKeeps(Fire(s, fs[0]), fs[1..]);
    }
  }

  // ---- environment calls ----

  lemma CallKeeps(s: State, call: EnvCall)
    requires Inv(s)
    ensures Inv(Call(s, call)) && SameMarks(s, Call(s, call))
  {
    Same(s, s.(env := s.env.Called(call)));
    FireAllKeeps(s.(env := s.env.Called(call)), s.env.Next().fired);
  }

  lemma BeginKeeps(s: State, id: Id, child: bool)
    requires Inv(s)
    ensures Inv(Begin(s, id, child))
    ensures var h := NextHandle(s, id);
            IsStarted(Begin(s, id, child).env.started, h) && Registered(h) !in Begin(s, id, child).log.ledger
  {
    var h := NextHandle(s, id);
    var r := Begin(s, id, child);
    assert !IsStarted(s.env.started, h);
    forall g ensures IsStarted(r.env.started, g) <==> IsStarted(s.env.started, g) || g == h {
    }
  }

  lemma RegisterKeeps(s: State, id: Id, c: Cancellable)
    requires Inv(s) && c.handle.id == id && IsStarted(s.env.started, c.handle) && Registered(c.handle) !in s.log.ledger
    ensures Inv(Register(s, id, c))
  {
    hide Count;
    hide Answers;
    hide Flat;
    hide Messages;
    hide Safe;
    hide Late;
    hide IsStarted;
    var ledger, r := s.log.ledger, Register(s, id, c);
    LedgerSnoc(ledger, Registered(c.handle));
    if c.handle in Late(ledger) {
      LateWasRegistered(ledger, c.handle);
    }
    forall k | k in r.canceller ensures Entry(r.log.ledger, r.callbacks, 0, k, r.canceller[k].handle) {
      if k != id {
        assert Entry(ledger, s.callbacks, 0, k, s.canceller[k].handle);
      }
    }
  }

  /** A step inside a task that adds `hs` to the started operations. */
  ghost predicate Kept(s: State, r: State, hs: seq<Handle>) {
    Inv(r) && r.inLoop && r.env.started == s.env.started + hs
  }

  /** Starting an operation: the handle is new, so registering it after the call is safe. */
  lemma StartKeeps(s: State, id: Id, child: bool, call: EnvCall)
    requires Inv(s) && s.inLoop
    ensures var r := Call(Begin(s, id, child), call);
            var h := NextHandle(s, id);
            Kept(s, r, [h]) && forall c: Cancellable :: c.handle == h ==> Kept(s, Register(r, id, c), [h])
  {
    BeginKeeps(s, id, child);
    CallKeeps(Begin(s, id, child), call);
    var r := Call(Begin(s, id, child), call);
    forall c: Cancellable | c.handle == NextHandle(s, id)
      ensures Kept(s, Register(r, id, c), [c.handle])
    {
      RegisterKeeps(r, id, c);
    }
  }

  lemma ChildKeeps(s: State, m: Message, name: string, o: ChildOptions)
    requires Inv(s) && s.inLoop
    ensures Kept(s, DoChild(s, m, name, o), [NextHandle(s, m.id)])
  {
    var s1 := if o.workflowId == "" then NameChild(s) else s;
    Same(s, s1);
    var id := if o.workflowId == "" then ChildId(s.env.info.runId, s1.childSeq) else o.workflowId;
    var h := NextHandle(s1, m.id);
    var params := o.(taskQueue := DefaultQueue(s, o.taskQueue), workflowId := id);
    StartKeeps(s1, m.id, true, StartChild(h, name, params, m.payloads, m.header));
  }

  lemma TimerKeeps(s: State, m: Message, ms: int, summary: string)
    requires Inv(s) && s.inLoop
    ensures Kept(s, DoTimer(s, m, ms, summary), [NextHandle(s, m.id)])
  {
    StartKeeps(s, m.id, false, StartTimer(NextHandle(s, m.id), Signed(ms * 1_000_000), summary));
  }

  // ---- cancellation ----

  /** A cancel function taken out of the table and marked as run. */
  function Taken(s: State, id: Id): State
    requires id in s.canceller
  {
    s.(canceller := s.canceller - {id}, log := s.log.(ledger := s.log.ledger + [Cancelled(s.canceller[id].handle)]))
  }

  /** In a task nothing is deferred, so whatever is still registered may be cancelled safely. */
  lemma TakenKeeps(s: State, id: Id)
    requires Inv(s) && s.inLoop && id in s.canceller
    ensures Inv(Taken(s, id))
  {
    hide Count;
    hide Answers;
    hide Flat;
    hide Messages;
    hide Safe;
    hide Late;
    var c, s1 := s.canceller[id], Taken(s, id);
    LedgerSnoc(s.log.ledger, Cancelled(c.handle));
    assert Entry(s.log.ledger, s.callbacks, 0, id, c.handle);
    forall k | k in s1.canceller ensures Entry(s1.log.ledger, s1.callbacks, 0, k, s1.canceller[k].handle) {
      assert Entry(s.log.ledger, s.callbacks, 0, k, s.canceller[k].handle);
    }
  }

  lemma CancelOneKeeps(s: State, id: Id)
    requires Inv(s) && s.inLoop
    ensures Kept(s, CancelOne(s, id), [])
  {
    hide Inv;
    hide Call;
    if id in s.canceller {
      TakenKeeps(s, id);
      var s1 := Taken(s, id);
      match s.canceller[id]
      case CancelActivity(h) => CallKeeps(s1, RequestCancelActivity(h));
      case CancelLocalActivity(h) => CallKeeps(s1, RequestCancelLocalActivity(h));
      case CancelChild(h, namespace, workflowId) => CallKeeps(s1, RequestCancelChild(h, namespace, workflowId));
      case CancelTimer(h, timerId) => if timerId { CallKeeps(s1, RequestCancelTimer(h)); }
    }
  }

  lemma {:induction false} CancelIdsKeeps(s: State, ids: seq<Id>)
    requires Inv(s) && s.inLoop
    ensures Kept(s, CancelIds(s, ids), [])
    decreases |ids|
  {
    if ids != [] {
      CancelOneKeeps(s, ids[0]);
      CancelIdsKeeps(CancelOne(s, ids[0]), ids[1..]);
    }
  }

  // ---- exchanges ----

  lemma SentKeeps(o: Outbox)
    requires Conserved(o) && o.dropped == []
    ensures Conserved(o.Sent())
  {
    FlatSnoc(o.sent, o.queue);
    assert Flat(o.sent) + [] + o.queue == (Flat(o.sent) + o.queue) + [] + [];
  }

  lemma FlushKeeps(s: State)
    requires Inv(s)
    ensures Inv(Flush(s).state) && Flush(s).state.inLoop == s.inLoop && Flush(s).state.env == s.env
  {
    hide Once;
    hide Ordered;
    hide Cancellers;
    SentKeeps(s.out);
    Same(s, Flush(s).state);
  }

  lemma RespondAndFlushKeeps(s: State, id: Id, payloads: Payloads)
    requires Inv(s) && s.inLoop
    ensures Kept(s, RespondAndFlush(s, id, payloads).state, [])
  {
    OwnKeeps(s, Response(id, payloads));
    FlushKeeps(Respond(s, id, payloads));
  }

  lemma VersionKeeps(s: State, m: Message, changeId: string, min: int, max: int)
    requires Inv(s) && s.inLoop
    ensures Kept(s, DoVersion(s, m, changeId, min, max).state, [])
  {
    CallKeeps(s, AskVersion(changeId, min, max));
    if s.env.Next().value.Succeeded? {
      RespondAndFlushKeeps(Call(s, AskVersion(changeId, min, max)), m.id, s.env.Next().value.payloads);
    }
  }

  lemma SideEffectKeeps(s: State, m: Message)
    requires Inv(s) && s.inLoop
    ensures Kept(s, DoSideEffect(s, m).state, [])
  {
    var outcome := s.env.Next().value;
    CallKeeps(s, RecordSideEffect(m.payloads, outcome));
    var s1 := Call(s, RecordSideEffect(m.payloads, outcome));
    DiscardKeeps(s1, m.id);
    var s2 := s1.(canceller := s1.canceller - {m.id});
    match outcome
    case Failed(e) => OwnKeeps(s2, ErrorResponse(m.id, e));
    case Succeeded(p) => RespondAndFlushKeeps(s2, m.id, p);
  }

  // ---- updates ----

  lemma {:induction false} InvokeAllKeeps(s: State, qs: seq<Request>)
    requires Inv(s)
    ensures Inv(InvokeAll(s, qs)) && InvokeAll(s, qs).inLoop == s.inLoop && InvokeAll(s, qs).env == s.env
    decreases |qs|
  {
    if qs != [] {
      var q := qs[0];
      CommandKeeps(s, InvokeUpdate(s.env.info.runId, q.token.updateId, q.name, VALIDATE_EXECUTE), q.input, q.header);
      Same(s.(out := InvokeQueued(s, q).out), InvokeQueued(s, q));
      InvokeAllKeeps(InvokeQueued(s, q), qs[1..]);
    }
  }

  lemma {:induction false} DrainNamesKeeps(s: State, order: seq<string>)
    requires Inv(s)
    ensures Inv(DrainNames(s, order)) && DrainNames(s, order).inLoop == s.inLoop
    ensures DrainNames(s, order).env.started == s.env.started
    decreases |order|
  {
    if order != [] {
      var name := order[0];
      var s1 := s.(env := s.env.Told(HandleQueuedUpdates(name)).(updates := Without(s.env.updates, name)));
      Same(s, s1);
      InvokeAllKeeps(s1, Named(s.env.updates, name));
      Same(InvokeAll(s1, Named(s.env.updates, name)), DrainName(s, name));
      DrainNamesKeeps(DrainName(s, name), order[1..]);
    }
  }

  // ---- one command ----

  /** The commands that start an operation in the environment and wait for its answer. */
  predicate IsOperation(c: Command) {
    c.ExecuteActivity? || c.ExecuteLocalActivity? || c.ExecuteChildWorkflow? || c.NewTimer? || c.SignalExternalWorkflow? || c.CancelExternalWorkflow?
  }

  lemma OperationKeeps(s: State, m: Message)
    requires Inv(s) && s.inLoop && m.IsCommand() && IsOperation(m.command.value)
    ensures Kept(s, HandleMessage(s, m).state, [NextHandle(s, m.id)])
  {
    hide Kept;
    hide Inv;
    hide Call;
    hide Register;
    hide CancelIds;
    hide Listen;
    hide Flush;
    var h := NextHandle(s, m.id);
    match m.command.value
    case ExecuteActivity(name, o) =>
      StartKeeps(s, m.id, false, StartActivity(h, name, o.(taskQueue := DefaultQueue(s, o.taskQueue)), m.payloads, m.header));
    case ExecuteLocalActivity(name, o) =>
      var params := LocalOptions(DefaultTimeout(o.scheduleToClose), DefaultTimeout(o.startToClose), o.rest);
      StartKeeps(s, m.id, false, StartLocalActivity(h, name, params, m.payloads, m.header));
    case ExecuteChildWorkflow(name, o) => ChildKeeps(s, m, name, o);
    case NewTimer(ms, summary) => TimerKeeps(s, m, ms, summary);
    case SignalExternalWorkflow(ns, wid, rid, signal, childOnly) =>
      StartKeeps(s, m.id, false, SignalExternal(h, ns, wid, rid, signal, m.payloads, m.header, childOnly));
    case CancelExternalWorkflow(ns, wid, rid) =>
      StartKeeps(s, m.id, false, CancelExternal(h, ns, wid, rid));
  }

  lemma ListenKept(s: State, child: Id, id: Id)
    requires Inv(s) && s.inLoop
    ensures Kept(s, Listen(s, child, id), [])
  {
    ListenKeeps(s, child, id);
  }

  lemma UpdateKeeps(s: State, m: Message, id: string)
    requires Inv(s) && s.inLoop
    ensures Kept(s, DoUpdateCompleted(s, m, id).state, []) && Kept(s, DoUpdateValidated(s, m, id).state, [])
  {
    hide Once;
    hide Ordered;
    hide Cancellers;
    hide Conserved;
    Same(s, DoUpdateCompleted(s, m, id).state);
    Same(s, DoUpdateValidated(s, m, id).state);
  }

  lemma CompleteKeeps(s: State, m: Message, name: string, next: ContinueOptions)
    requires Inv(s) && s.inLoop
    ensures Kept(s, DoComplete(s, m), []) && Kept(s, DoContinueAsNew(s, m, name, next), [])
  {
    hide Once;
    hide Ordered;
    hide Cancellers;
    hide Conserved;
    OwnKeeps(s, Response(m.id, COMPLETED));
    Same(Respond(s, m.id, COMPLETED), DoComplete(s, m));
    Same(Respond(s, m.id, COMPLETED), DoContinueAsNew(s, m, name, next));
  }

  lemma OtherKeeps(s: State, m: Message)
    requires Inv(s) && s.inLoop && m.IsCommand() && !IsOperation(m.command.value)
    ensures Kept(s, HandleMessage(s, m).state, [])
  {
    hide Kept;
    hide Inv;
    hide Call;
    hide Register;
    hide CancelIds;
    hide Listen;
    hide Flush;
    StayKeeps(s);
    match m.command.value
    case GetChildWorkflowExecution(child) => ListenKept(s, child, m.id);
    case GetVersion(changeId, min, max) => VersionKeeps(s, m, changeId, min, max);
    case SideEffect => SideEffectKeeps(s, m);
    case UpdateCompleted(id) => UpdateKeeps(s, m, id);
    case UpdateValidated(id) => UpdateKeeps(s, m, id);
    case CompleteWorkflow => CompleteKeeps(s, m, "", ContinueOptions("", 0, 0));
    case ContinueAsNew(name, next) => CompleteKeeps(s, m, name, next);
    case UpsertSearchAttributes(untyped) => TryKeeps(s, Upsert(untyped));
    case UpsertTypedSearchAttributes(attributes) => TryKeeps(s, UpsertTyped(Attributes.Updates(s.env.conversions, attributes)));
    case UpsertMemo(memo) => TryKeeps(s, UpsertMemos(memo));
    case Cancel(ids) => CancelKeeps(s, m, ids);
    case _ =>
  }

  lemma StayKeeps(s: State)
    requires Inv(s) && s.inLoop
    ensures Kept(s, s, [])
  {
  }

  lemma TryKeeps(s: State, call: EnvCall)
    requires Inv(s) && s.inLoop
    ensures Kept(s, Try(s, call).state, [])
  {
    CallKeeps(s, call);
  }

  lemma CancelKeeps(s: State, m: Message, ids: seq<Id>)
    requires Inv(s) && s.inLoop
    ensures Kept(s, DoCancel(s, m, ids).state, [])
  {
    CancelIdsKeeps(s, ids);
    RespondAndFlushKeeps(CancelIds(s, ids), m.id, COMPLETED);
  }

  lemma HandleKeeps(s: State, m: Message)
    requires Inv(s) && s.inLoop && m.IsCommand()
    ensures Kept(s, HandleMessage(s, m).state, if IsOperation(m.command.value) then [NextHandle(s, m.id)] else [])
  {
    if IsOperation(m.command.value) {
      OperationKeeps(s, m);
    } else {
      OtherKeeps(s, m);
    }
  }

  // ---- tasks and runs ----

  lemma {:induction false} PipelineKeeps(s: State)
    requires Inv(s) && s.inLoop
    ensures Inv(RunPipeline(s).state) && RunPipeline(s).state.inLoop
    decreases s.inbox.Work()
  {
    if s.inbox.pipeline != [] {
      var m := s.inbox.pipeline[0];
      var s1 := s.(inbox := s.inbox.Popped());
      Same(s, s1);
      if !m.IsCommand() {
        PipelineKeeps(s1);
      } else if m.IsUndefinedResponse() {
        Same(s1, s1.(inbox := s1.inbox.Cleared()));
      } else {
        HandleKeeps(s1, m);
        var r := HandleMessage(s1, m);
        match r.exit
        case Normal => PipelineKeeps(r.state);
        case Erred(e) => Same(r.state, r.state.(inbox := r.state.inbox.Cleared()));
        case Panicking(_, _) =>
      }
    }
  }

  lemma BeforeFlushKeeps(s: State, order: seq<string>)
    requires Inv(s)
    ensures Inv(BeforeFlush(s, order)) && BeforeFlush(s, order).inLoop
  {
    var s0 := s.(inLoop := true);
    assert At(s0, 0);
    DrainKeeps(s0, 0);
    var s1 := DrainCallbacks(s0, 0);
    DrainNamesKeeps(s1, order);
    Same(DrainNames(s1, order), BeforeFlush(s, order));
  }

  lemma TaskKeeps(s: State, order: seq<string>, reactions: seq<Reaction>, replies: seq<Exchange>, replaying: bool)
    requires Inv(s)
    ensures Inv(DoTask(s, order, reactions, replies, replaying))
  {
    hide DrainCallbacks;
    hide DrainNames;
    hide RunPipeline;
    hide Flush;
    hide Once;
    hide Ordered;
    hide Cancellers;
    hide Conserved;
    var s1 := s.(inbox := s.inbox.(replies := replies), env := s.env.(reactions := reactions, replaying := replaying));
    Same(s, s1);
    BeforeFlushKeeps(s1, order);
    FlushKeeps(BeforeFlush(s1, order));
    var f := Flush(BeforeFlush(s1, order));
    if f.exit.Normal? {
      PipelineKeeps(f.state);
    }
    Same(if f.exit.Erred? then f.state else RunPipeline(f.state).state, DoTask(s, order, reactions, replies, replaying));
  }

  /** Every event before Close keeps the invariant. */
  lemma NextKeeps(s: State, e: Event)
    requires Inv(s) && Next(s, e).status != Closed
    ensures Inv(Next(s, e))
  {
    hide Once;
    hide Ordered;
    hide Cancellers;
    hide Fire;
    hide DoTask;
    match e
    case Fires(f) => FireKeeps(s, f);
    case Signalled(name, input, header) => CommandKeeps(s, InvokeSignal(s.env.info.runId, name), input, header);
    case CancelRequested => CommandKeeps(s, CancelWorkflow(s.env.info.runId), NoPayloads, s.header);
    case Task(order, reactions, replies, replaying) => TaskKeeps(s, order, reactions, replies, replaying);
    case Closes(order) =>
    case _ => Same(s, Next(s, e));
  }

  lemma BlankHolds(x: Launch)
    ensures Inv(Blank(x.env, x.header, x.count, x.gaps))
  {
  }

  lemma ExecutedHolds(x: Launch)
    ensures Inv(Executed(x))
  {
    hide Inv;
    hide Attributes.StartTable;
    BlankHolds(x);
    CommandKeeps(Blank(x.env, x.header, x.count, x.gaps), StartCommand(x.env, x.tsa, x.order, x.last), StartInput(x.input, x.last), x.header);
  }

  lemma {:induction false} RunKeeps(s: State, events: seq<Event>)
    requires Inv(s) && Run(s, events).status != Closed
    ensures Inv(Run(s, events))
  {
    if events != [] {
      var before := events[..|events| - 1];
      RunKeeps(s, before);
      NextKeeps(Run(s, before), events[|events| - 1]);
    }
  }
}
