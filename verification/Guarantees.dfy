/** What holds over whole runs, from Execute on. */
module Guarantees {
  import opened Protocol
  import opened Engine
  import opened Delivery
  import Cancelling
  import Frames
  import Operations
  import Pipeline

  lemma FromExecute(x: Launch, events: seq<Event>)
    requires Run(Executed(x), events).status != Closed
    ensures Inv(Run(Executed(x), events))
  {
    hide Inv;
    hide Run;
    ExecutedHolds(x);
    RunKeeps(Executed(x), events);
  }

  // ---- nothing is lost ----

  /** Everything pushed before Close is sent or still queued, in the order pushed. */
  lemma NothingLost(x: Launch, events: seq<Event>)
    requires Run(Executed(x), events).status != Closed
    ensures var o := Run(Executed(x), events).out;
            Messages(o.pushed) == Flat(o.sent) + o.queue
  {
    FromExecute(x, events);
    hide Run;
    var o := Run(Executed(x), events).out;
    assert Flat(o.sent) + [] == Flat(o.sent);
  }

  /** The messages sent, and those still queued, as they were pushed. */
  function SentPushes(o: Outbox): seq<Push> {
    if |Flat(o.sent)| <= |o.pushed| then o.pushed[..|Flat(o.sent)|] else o.pushed
  }

  function QueuedPushes(o: Outbox): seq<Push> {
    if |Flat(o.sent)| <= |o.pushed| then o.pushed[|Flat(o.sent)|..] else []
  }

  // ---- exactly-once answers, in order ----

  /** How often the answer of `h` is among some pushed messages. */
  function AnswersOf(ps: seq<Push>, h: Handle): nat {
    Count(Answers(ps), h)
  }

  /** Where the answer of an operation can be. */
  predicate InOnePlace(s: State, h: Handle) {
    (if h in s.env.pending then 1 else 0) + Count(s.callbacks, h) + AnswersOf(QueuedPushes(s.out), h) + AnswersOf(SentPushes(s.out), h)
    == if IsStarted(s.env.started, h) then 1 else 0
  }

  lemma InvPlaces(s: State, h: Handle)
    requires Inv(s)
    ensures InOnePlace(s, h)
    ensures Messages(SentPushes(s.out)) == Flat(s.out.sent) && Messages(QueuedPushes(s.out)) == s.out.queue
    ensures Answers(SentPushes(s.out)) + Answers(QueuedPushes(s.out)) + s.callbacks == s.log.fired
  {
    hide Cancellers;
    var o := s.out;
    assert Messages(o.pushed) == Flat(o.sent) + o.queue by { assert Flat(o.sent) + [] == Flat(o.sent); }
    assert |Messages(o.pushed)| == |o.pushed|;
    var a, b := SentPushes(o), QueuedPushes(o);
    assert a + b == o.pushed;
    assert Messages(a) == Messages(o.pushed)[..|a|] && Messages(b) == Messages(o.pushed)[|a|..];
    AnswersConcat(a, b);
    assert s.callbacks[0..] == s.callbacks;
    CountConcat(Answers(o.pushed), s.callbacks, h);
    CountConcat(Answers(a), Answers(b), h);
  }

  /** A response or error that carries an outcome back to the command `id`. */
  predicate Carries(m: Message, id: Id, o: Outcome) {
    && m.id == id && m.command == None && m.header == None
    && match o
       case Succeeded(payloads) => m.failure == None && m.payloads == payloads
       case Failed(failure) => m.failure == Some(failure) && m.payloads == NoPayloads
  }

  /** The i-th message sent or queued is the answer of `h`, and carries what its handler was called with. */
  predicate AnswerAt(s: State, h: Handle, i: nat)
    requires i < |s.out.pushed| && |Flat(s.out.sent) + s.out.queue| == |s.out.pushed|
  {
    s.out.pushed[i].Reply? && s.out.pushed[i].answer.source == Handler(h) ==>
      && s.out.pushed[i].answer in s.log.fired
      && Carries((Flat(s.out.sent) + s.out.queue)[i], h.id, s.out.pushed[i].answer.outcome)
  }

  lemma {:induction false} AnswerListed(ps: seq<Push>, i: nat)
    requires i < |ps| && ps[i].Reply?
    ensures ps[i].answer in Answers(ps)
  {
    if i < |ps| - 1 {
      AnswerListed(ps[..|ps| - 1], i);
    }
  }

  lemma InvCarries(s: State, h: Handle, i: nat)
    requires Inv(s) && i < |s.out.pushed|
    ensures |Flat(s.out.sent) + s.out.queue| == |s.out.pushed| && AnswerAt(s, h, i)
  {
    hide Cancellers;
    hide Once;
    var o := s.out;
    assert Messages(o.pushed) == Flat(o.sent) + o.queue by { assert Flat(o.sent) + [] == Flat(o.sent); }
    if o.pushed[i].Reply? {
      var a := o.pushed[i].answer;
      AnswerListed(o.pushed, i);
      assert a in Answers(o.pushed) + s.callbacks[0..];
      assert (Flat(o.sent) + o.queue)[i] == MessageOf(o.pushed[i]);
    }
  }

  /** In every run before Close, and for every activity, local activity, child, timer, external signal and external
      cancel ever started: its answer is in exactly one place, still pending in the environment, deferred, queued or
      sent. A handler that was called thus yields exactly one response or error, and one that was not yields none. The
      message goes to the command that started the operation and carries the outcome its handler was called with. */
  lemma ExactlyOneAnswer(x: Launch, events: seq<Event>, h: Handle)
    requires Run(Executed(x), events).status != Closed
    ensures var r := Run(Executed(x), events);
            && InOnePlace(r, h) && Messages(SentPushes(r.out)) == Flat(r.out.sent) && Messages(QueuedPushes(r.out)) == r.out.queue
            && |Flat(r.out.sent) + r.out.queue| == |r.out.pushed|
            && forall i :: 0 <= i < |r.out.pushed| ==> AnswerAt(r, h, i)
  {
    hide Inv;
    hide Run;
    FromExecute(x, events);
    var r := Run(Executed(x), events);
    InvPlaces(r, h);
    NothingLost(x, events);
    forall i | 0 <= i < |r.out.pushed| ensures AnswerAt(r, h, i) {
      InvCarries(r, h, i);
    }
  }

  /** The answers sent, then those queued, then those deferred, are the handler calls of the whole run in their order. */
  lemma AnswersInOrder(x: Launch, events: seq<Event>)
    requires Run(Executed(x), events).status != Closed
    ensures var r := Run(Executed(x), events);
            Answers(SentPushes(r.out)) + Answers(QueuedPushes(r.out)) + r.callbacks == r.log.fired
  {
    hide Inv;
    hide Run;
    FromExecute(x, events);
    InvPlaces(Run(Executed(x), events), Handle(0, 0));
  }

  /** Nothing is deferred while a task handles a command: whatever fires there is answered at once. */
  lemma NothingDeferredInTask(s: State, m: Message)
    requires Inv(s) && s.inLoop && m.IsCommand()
    ensures HandleMessage(s, m).state.callbacks == [] && HandleMessage(s, m).state.inLoop
  {
    hide HandleMessage;
    HandleKeeps(s, m);
  }

  /** Outside a workflow task nothing is answered: a handler that fires leaves queue and cancel functions alone, and what it
      has to say waits behind what waits already. */
  lemma DeferredOutsideTask(s: State, f: Firing)
    requires !s.inLoop
    ensures var r := Fire(s, f);
            && r.out == s.out && r.canceller == s.canceller && s.callbacks <= r.callbacks
            && r.callbacks[|s.callbacks|..] == r.log.fired[|s.log.fired|..]
  {
  }

  // ---- cancellation ----

  /** Marks read by position: no cancel function ran twice, none ran unregistered, and none ran for an operation whose
      handler had been called after the cancel function was registered. */
  predicate SafeAt(ledger: seq<Mark>, h: Handle) {
    && (forall i, j :: 0 <= i < j < |ledger| && ledger[i] == Cancelled(h) ==> ledger[j] != Cancelled(h))
    && (forall i, j, k :: 0 <= i < j < k < |ledger| && ledger[i] == Registered(h) && ledger[j] == Fired(h) ==> ledger[k] != Cancelled(h))
    && RegisteredFirst(ledger, h)
  }

  predicate RegisteredFirst(ledger: seq<Mark>, h: Handle) {
    forall k :: 0 <= k < |ledger| && ledger[k] == Cancelled(h) ==> Registered(h) in ledger[..k]
  }

  /** The handler was called before the cancel function was registered. */
  predicate Early(ledger: seq<Mark>, h: Handle) {
    exists i, j :: 0 <= i < j < |ledger| && ledger[i] == Fired(h) && ledger[j] == Registered(h)
  }

  lemma {:induction false} LateAt(ledger: seq<Mark>, h: Handle, i: nat, j: nat)
    requires i < j < |ledger| && ledger[i] == Registered(h) && ledger[j] == Fired(h)
    ensures h in Late(ledger)
  {
    var before := ledger[..|ledger| - 1];
    if j < |ledger| - 1 {
      LateAt(before, h, i, j);
    } else {
      assert before[i] == Registered(h);
    }
  }

  lemma {:induction false} RegisteredReads(ledger: seq<Mark>, h: Handle)
    requires Safe(ledger)
    ensures RegisteredFirst(ledger, h)
  {
    hide Late;
    if ledger != [] {
      var before := ledger[..|ledger| - 1];
      RegisteredReads(before, h);
      forall k | 0 <= k < |ledger| && ledger[k] == Cancelled(h) ensures Registered(h) in ledger[..k] {
        if k < |before| {
          assert before[k] == ledger[k] && before[..k] == ledger[..k];
        } else {
          assert ledger[..k] == before;
        }
      }
    }
  }

  lemma {:induction false} SafeReads(ledger: seq<Mark>, h: Handle)
    requires Safe(ledger)
    ensures SafeAt(ledger, h)
  {
    hide RegisteredFirst;
    RegisteredReads(ledger, h);
    if ledger != [] {
      var before := ledger[..|ledger| - 1];
      var last := ledger[|ledger| - 1];
      SafeReads(before, h);
      if last == Cancelled(h) {
        assert forall i :: 0 <= i < |before| ==> ledger[i] == before[i] && ledger[i] != Cancelled(h);
        forall i, j | 0 <= i < j < |before| && ledger[i] == Registered(h) ensures ledger[j] != Fired(h) {
          if ledger[j] == Fired(h) {
            LateAt(before, h, i, j);
          }
        }
      } else {
        assert forall i :: 0 <= i < |before| ==> ledger[i] == before[i];
      }
    }
  }

  lemma {:induction false} MarkedOnce(ledger: seq<Mark>, h: Handle)
    requires Safe(ledger)
    ensures multiset(Frames.CancelMarks(ledger))[h] <= 1
    ensures Cancelled(h) !in ledger ==> multiset(Frames.CancelMarks(ledger))[h] == 0
  {
    if ledger != [] {
      MarkedOnce(ledger[..|ledger| - 1], h);
    }
  }

  /** In every run before Close a cancel function runs at most once, hence an operation is asked to cancel at most once;
      and none runs once the operation's handler was called after its registration. */
  lemma CancellationIsSafe(x: Launch, events: seq<Event>, h: Handle)
    requires Run(Executed(x), events).status != Closed
    ensures var r := Run(Executed(x), events);
            && SafeAt(r.log.ledger, h)
            && multiset(Operations.Requests(r.env.trace))[h] <= 1
  {
    var s := Executed(x);
    assert Operations.Obedient(s);
    Operations.RunObedient(s, events);
    FromExecute(x, events);
    hide Run;
    hide Executed;
    var r := Run(s, events);
    SafeReads(r.log.ledger, h);
    MarkedOnce(r.log.ledger, h);
    hide Safe;
    hide SafeAt;
  }

  /** Exactly when a cancel function runs for an operation that is already answered: over every run before Close, the
      handler had been called by then if and only if it had been called before the cancel function was registered. */
  lemma CancelledAfterAnswer(x: Launch, events: seq<Event>, h: Handle, k: nat)
    requires var r := Run(Executed(x), events); r.status != Closed && k < |r.log.ledger| && r.log.ledger[k] == Cancelled(h)
    ensures var ledger := Run(Executed(x), events).log.ledger;
            Fired(h) in ledger[..k] <==> Early(ledger[..k], h)
  {
    hide Run;
    hide Executed;
    hide SafeAt;
    hide Early;
    CancellationIsSafe(x, events, h);
    SafeEarly(Run(Executed(x), events).log.ledger, h, k);
  }

  lemma SafeEarly(ledger: seq<Mark>, h: Handle, k: nat)
    requires SafeAt(ledger, h) && k < |ledger| && ledger[k] == Cancelled(h)
    ensures Fired(h) in ledger[..k] <==> Early(ledger[..k], h)
  {
    var before := ledger[..k];
    if Fired(h) in before {
      var i :| 0 <= i < |before| && before[i] == Fired(h);
      var j :| 0 <= j < |before| && before[j] == Registered(h);
      assert ledger[i] == Fired(h) && ledger[j] == Registered(h);
    }
  }

  lemma {:induction false} Counted(fired: seq<Answer>, h: Handle, j: nat)
    requires j < |fired| && fired[j].source == Handler(h)
    ensures Count(fired, h) > 0
  {
    if j < |fired| - 1 {
      Counted(fired[..|fired| - 1], h, j);
    }
  }

  /** Exactly when a cancel function left in the table is for an operation already answered: its handler was called
      before it was registered, or the callback that will discard it is still deferred. */
  lemma EntryAnswered(s: State, id: Id)
    requires Inv(s) && id in s.canceller
    ensures var h := s.canceller[id].handle;
            h !in s.env.pending <==> Early(s.log.ledger, h) || Deferred(s.callbacks, 0, h)
  {
    var h := s.canceller[id].handle;
    var ledger := s.log.ledger;
    assert Entry(ledger, s.callbacks, 0, id, h);
    assert h !in s.env.pending <==> Fired(h) in ledger;
    if Fired(h) in ledger {
      var i :| 0 <= i < |ledger| && ledger[i] == Fired(h);
      var j :| 0 <= j < |ledger| && ledger[j] == Registered(h);
      if j < i {
        LateAt(ledger, h, j, i);
      }
    }
    if Deferred(s.callbacks, 0, h) {
      var j :| 0 <= j < |s.callbacks| && s.callbacks[j].source == Handler(h);
      var n := |Answers(s.out.pushed)|;
      assert s.log.fired[n + j] == s.callbacks[0..][j];
      Counted(s.log.fired, h, n + j);
    }
  }

  /** The same between the events of every run before Close. */
  lemma AnsweredEntries(x: Launch, events: seq<Event>, id: Id)
    requires var r := Run(Executed(x), events); r.status != Closed && id in r.canceller
    ensures var r := Run(Executed(x), events);
            var h := r.canceller[id].handle;
            h !in r.env.pending <==> Early(r.log.ledger, h) || Deferred(r.callbacks, 0, h)
  {
    hide Inv;
    hide Run;
    FromExecute(x, events);
    EntryAnswered(Run(Executed(x), events), id);
  }

  /** An answer under this id among those from the n-th on. */
  predicate AnsweredSince(fired: seq<Answer>, n: nat, id: Id) {
    exists i :: n <= i < |fired| && fired[i].id == id
  }

  /** A cancel function is kept as it is, or gone with an answer under its id. */
  ghost predicate Holds(s: State, r: State, id: Id) {
    && (id in r.canceller ==> id in s.canceller && r.canceller[id] == s.canceller[id])
    && (id in s.canceller && id !in r.canceller ==> AnsweredSince(r.log.fired, |s.log.fired|, id))
    && s.log.fired <= r.log.fired && s.log.ledger <= r.log.ledger
  }

  lemma HoldsChain(s: State, r: State, t: State, id: Id)
    requires Holds(s, r, id) && Holds(r, t, id)
    ensures Holds(s, t, id)
  {
    if id in s.canceller && id !in r.canceller {
      var i :| |s.log.fired| <= i < |r.log.fired| && r.log.fired[i].id == id;
      assert t.log.fired[i].id == id;
    }
  }

  lemma FireHolds(s: State, f: Firing, id: Id)
    ensures Holds(s, Fire(s, f), id)
  {
    var r := Fire(s, f);
    if |r.log.fired| > |s.log.fired| && r.log.fired[|s.log.fired|].id == id {
      assert AnsweredSince(r.log.fired, |s.log.fired|, id);
    }
  }

  lemma {:induction false} FireAllHolds(s: State, fs: seq<Firing>, id: Id)
    ensures Holds(s, FireAll(s, fs), id)
    decreases |fs|
  {
    hide Fire;
    if fs != [] {
      FireHolds(s, fs[0], id);
      FireAllHolds(Fire(s, fs[0]), fs[1..], id);
      hide Holds;
      HoldsChain(s, Fire(s, fs[0]), FireAll(s, fs), id);
    }
  }

  lemma CancelOneHolds(s: State, other: Id, id: Id)
    ensures other != id ==> Holds(s, CancelOne(s, other), id)
    ensures other == id ==> id !in CancelOne(s, other).canceller
    ensures other == id && id in s.canceller ==> Cancelled(s.canceller[id].handle) in CancelOne(s, other).log.ledger
    ensures s.log.fired <= CancelOne(s, other).log.fired && s.log.ledger <= CancelOne(s, other).log.ledger
  {
    hide FireAll;
    if other in s.canceller {
      var s1 := Taken(s, other);
      var c := s.canceller[other];
      var call := match c
        case CancelActivity(h) => RequestCancelActivity(h)
        case CancelLocalActivity(h) => RequestCancelLocalActivity(h)
        case CancelChild(h, namespace, workflowId) => RequestCancelChild(h, namespace, workflowId)
        case CancelTimer(h, _) => RequestCancelTimer(h);
      FireAllHolds(s1.(env := s1.env.Called(call)), s1.env.Next().fired, id);
      assert s1.log.ledger[|s.log.ledger|] == Cancelled(c.handle);
    }
  }

  /** Whatever handlers its cancel functions call meanwhile, a Cancel reaches every listed id: afterwards none of them has a
      cancel function, and each that had one when the Cancel came had it run, or was answered on the way. */
  lemma {:induction false} CancelReaches(s: State, ids: seq<Id>, id: Id)
    requires id in ids
    ensures var r := CancelIds(s, ids);
            && id !in r.canceller
            && (id in s.canceller ==> Cancelled(s.canceller[id].handle) in r.log.ledger || AnsweredSince(r.log.fired, |s.log.fired|, id))
    decreases |ids|
  {
    hide CancelOne;
    var s1 := CancelOne(s, ids[0]);
    CancelOneHolds(s, ids[0], id);
    Gone(s1, ids[1..], id);
    if ids[0] != id {
      assert id in ids[1..];
      CancelReaches(s1, ids[1..], id);
      if id in s.canceller && id !in s1.canceller {
        var i :| |s.log.fired| <= i < |s1.log.fired| && s1.log.fired[i].id == id;
        assert CancelIds(s, ids).log.fired[i].id == id;
      }
    }
  }

  lemma {:induction false} Gone(s: State, ids: seq<Id>, id: Id)
    ensures var r := CancelIds(s, ids);
            (id !in s.canceller ==> id !in r.canceller) && s.log.fired <= r.log.fired && s.log.ledger <= r.log.ledger
    decreases |ids|
  {
    hide CancelOne;
    if ids != [] {
      CancelOneHolds(s, ids[0], id);
      Gone(CancelOne(s, ids[0]), ids[1..], id);
    }
  }

  /** Cancelling by itself, with no handler called meanwhile, runs and leaves what the canceller's own loop does. */
  lemma {:induction false} CancelsLikeCanceller(s: State, ids: seq<Id>)
    requires forall i :: 0 <= i < |s.env.reactions| ==> s.env.reactions[i].fired == []
    ensures CancelIds(s, ids).canceller == Cancelling.CancelAll(s.canceller, ids, _ => false).table
    decreases |ids|
  {
    if ids != [] {
      var id := ids[0];
      var r := CancelOne(s, id);
      assert r.canceller == (if id in s.canceller then s.canceller - {id} else s.canceller);
      assert forall i :: 0 <= i < |r.env.reactions| ==> r.env.reactions[i].fired == [];
      CancelsLikeCanceller(r, ids[1..]);
    }
  }

  // ---- handlers called early ----

  /** The result handler of `h` is among those called. */
  predicate Answering(fs: seq<Firing>, h: Handle) {
    exists i :: 0 <= i < |fs| && fs[i].Result? && fs[i].handle == h
  }

  lemma {:induction false} FireAllPending(s: State, fs: seq<Firing>, h: Handle)
    requires h in s.env.pending
    ensures h !in FireAll(s, fs).env.pending <==> Answering(fs, h)
    decreases |fs|
  {
    if fs != [] {
      assert fs == [fs[0]] + fs[1..];
      assert Answering(fs, h) <==> (fs[0].Result? && fs[0].handle == h) || Answering(fs[1..], h) by {
        forall i | 0 <= i < |fs[1..]| ensures fs[1..][i] == fs[i + 1] {
        }
        if Answering(fs, h) && !(fs[0].Result? && fs[0].handle == h) {
          var i :| 0 <= i < |fs| && fs[i].Result? && fs[i].handle == h;
          assert fs[1..][i - 1] == fs[i];
        }
      }
      FirePending(s, fs[0], h);
      if h in Fire(s, fs[0]).env.pending {
        FireAllPending(Fire(s, fs[0]), fs[1..], h);
      } else {
        FireAllGone(Fire(s, fs[0]), fs[1..], h);
      }
    }
  }

  lemma FirePending(s: State, f: Firing, h: Handle)
    ensures h in Fire(s, f).env.pending <==> h in s.env.pending && !(f.Result? && f.handle == h)
  {
  }

  lemma {:induction false} FireAllGone(s: State, fs: seq<Firing>, h: Handle)
    requires h !in s.env.pending
    ensures h !in FireAll(s, fs).env.pending
    decreases |fs|
  {
    if fs != [] {
      FirePending(s, fs[0], h);
      FireAllGone(Fire(s, fs[0]), fs[1..], h);
    }
  }

  /** Starting and registering an operation leaves its cancel function in the table whatever the call did; the operation
      is answered by then exactly when the environment called its handler inside the call. */
  lemma RegisteredAnswered(s: State, id: Id, child: bool, call: EnvCall, c: Cancellable)
    requires c.handle == NextHandle(s, id)
    ensures var r := Register(Call(Begin(s, id, child), call), id, c);
            && id in r.canceller && r.canceller[id] == c
            && (c.handle !in r.env.pending <==> Answering(s.env.Next().fired, c.handle))
            && r.log.ledger != [] && r.log.ledger[|r.log.ledger| - 1] == Registered(c.handle)
  {
    var b := Begin(s, id, child);
    FireAllPending(b.(env := b.env.Called(call)), s.env.Next().fired, c.handle);
    hide FireAll;
  }

  /** The operations that can be cancelled. */
  predicate IsCancellable(c: Command) {
    c.ExecuteActivity? || c.ExecuteLocalActivity? || c.ExecuteChildWorkflow? || c.NewTimer?
  }

  lemma CancellableAnswered(s: State, m: Message)
    requires m.IsCommand() && IsCancellable(m.command.value)
    ensures var h := NextHandle(s, m.id);
            var r := HandleMessage(s, m).state;
            && m.id in r.canceller && r.canceller[m.id].handle == h
            && (h !in r.env.pending <==> Answering(s.env.Next().fired, h))
            && r.log.ledger != [] && r.log.ledger[|r.log.ledger| - 1] == Registered(h)
  {
    hide Call;
    hide Register;
    hide Begin;
    hide Answering;
    hide Signed;
    hide ChildId;
    var h := NextHandle(s, m.id);
    match m.command.value
    case ExecuteActivity(name, o) =>
      RegisteredAnswered(s, m.id, false, StartActivity(h, name, o.(taskQueue := DefaultQueue(s, o.taskQueue)), m.payloads, m.header), CancelActivity(h));
    case ExecuteLocalActivity(name, o) =>
      var params := LocalOptions(DefaultTimeout(o.scheduleToClose), DefaultTimeout(o.startToClose), o.rest);
      RegisteredAnswered(s, m.id, false, StartLocalActivity(h, name, params, m.payloads, m.header), CancelLocalActivity(h));
    case ExecuteChildWorkflow(name, o) =>
      var s1 := if o.workflowId == "" then NameChild(s) else s;
      var id := if o.workflowId == "" then ChildId(s.env.info.runId, s1.childSeq) else o.workflowId;
      var params := o.(taskQueue := DefaultQueue(s, o.taskQueue), workflowId := id);
      RegisteredAnswered(s1, m.id, true, StartChild(h, name, params, m.payloads, m.header), CancelChild(h, o.namespace, id));
    case NewTimer(ms, summary) =>
      RegisteredAnswered(s, m.id, false, StartTimer(h, Signed(ms * 1_000_000), summary), CancelTimer(h, s.env.Next().timerId));
  }

  /** A cancel function asks the environment to cancel its operation, unless it is that of a timer without an id. */
  lemma CancelRequests(s: State, id: Id)
    requires id in s.canceller
    ensures var c := s.canceller[id];
            Operations.Requests(CancelOne(s, id).env.trace) ==
            Operations.Requests(s.env.trace) + (if c.CancelTimer? && !c.timerId then [] else [c.handle])
  {
    hide Operations.Requests;
    hide Call;
    hide Frames.Apart;
    hide Frames.CancelMarks;
    var c := s.canceller[id];
    var s1 := s.(canceller := s.canceller - {id}, log := s.log.(ledger := s.log.ledger + [Cancelled(c.handle)]));
    var call := match c
      case CancelActivity(h) => RequestCancelActivity(h)
      case CancelLocalActivity(h) => RequestCancelLocalActivity(h)
      case CancelChild(h, namespace, workflowId) => RequestCancelChild(h, namespace, workflowId)
      case CancelTimer(h, _) => RequestCancelTimer(h);
    Frames.CallApart(s1, call);
    Operations.RequestsSnoc(s.env.trace, call);
    assert Operations.Requests(s.env.trace) + [] == Operations.Requests(s.env.trace);
  }

  /** Handling a command that starts a cancellable operation leaves its cancel function behind for an operation already
      answered if and only if the environment calls the handler inside the start call, and that is when the handler
      comes before the registration in the ledger. */
  lemma EarlyFiringLeavesEntry(s: State, m: Message)
    requires Inv(s) && s.inLoop && m.IsCommand() && IsCancellable(m.command.value)
    ensures var h := NextHandle(s, m.id);
            var r := HandleMessage(s, m).state;
            && m.id in r.canceller && r.canceller[m.id].handle == h
            && (h !in r.env.pending <==> Answering(s.env.Next().fired, h))
            && (Early(r.log.ledger, h) <==> Answering(s.env.Next().fired, h))
  {
    hide HandleMessage;
    hide Answering;
    CancellableAnswered(s, m);
    HandleKeeps(s, m);
    var r := HandleMessage(s, m).state;
    assert r.callbacks == [];
    EntryAnswered(r, m.id);
  }

  /** An activity answered inside its start call and cancelled afterwards: the environment is asked to cancel an
      operation whose answer is already on its way. */
  lemma AnsweredThenCancelled(s: State, m: Message, name: string, o: ActivityOptions, outcome: Outcome)
    requires Inv(s) && s.inLoop && m.command == Some(ExecuteActivity(name, o))
    requires s.env.Next().fired == [Result(NextHandle(s, m.id), outcome)]
    ensures var h := NextHandle(s, m.id);
            var r := HandleMessage(s, m).state;
            && h !in r.env.pending
            && Operations.Requests(CancelOne(r, m.id).env.trace) == Operations.Requests(r.env.trace) + [h]
  {
    assert s.env.Next().fired[0].handle == NextHandle(s, m.id);
    CancellableAnswered(s, m);
    CancelRequests(HandleMessage(s, m).state, m.id);
    ActivityEntry(s, m, name, o);
    hide HandleMessage;
  }

  lemma ActivityEntry(s: State, m: Message, name: string, o: ActivityOptions)
    requires m.command == Some(ExecuteActivity(name, o))
    ensures m.id in HandleMessage(s, m).state.canceller && HandleMessage(s, m).state.canceller[m.id].CancelActivity?
  {
    hide Call;
  }

  // ---- order of handling ----

  /** Between the events of every run, panicked and closed ones included: what was handled is a prefix of what was
      received, in order; it is all of it, with the pipeline empty, unless the run panicked; and a panicked run has
      either kept all the rest in the pipeline or cleared it. */
  lemma HandledInOrder(x: Launch, events: seq<Event>)
    ensures var r := Run(Executed(x), events);
            && !r.inLoop && r.inbox.handled <= r.inbox.received
            && (r.status == Running ==> r.inbox.pipeline == [] && r.inbox.handled == r.inbox.received)
            && (r.inbox.pipeline == [] || r.inbox.handled + r.inbox.pipeline == r.inbox.received)
  {
    Pipeline.RunSettled(Executed(x), events);
    hide Run;
  }

  /** Close clears the completions but not the validations, and drops the queue unsent. */
  lemma CloseDrops(s: State, order: seq<string>)
    ensures var r := DoClose(s, order);
            && r.updates.complete == map[] && r.updates.names == {} && r.out.queue == []
            && (forall id :: id in s.updates.validate ==> id in r.updates.validate)
            && r.out.sent == s.out.sent
            && r.out.dropped == s.out.dropped + DrainNames(s, order).out.queue
            && s.out.queue <= DrainNames(s, order).out.queue
            && r.env.trace == s.env.trace + [DrainUnhandledUpdates]
  {
    DrainGrows(s, order);
    Pipeline.DrainNamesFrame(s, order);
    hide DrainNames;
  }

  lemma {:induction false} InvokeGrows(s: State, qs: seq<Request>)
    ensures s.out.queue <= InvokeAll(s, qs).out.queue && InvokeAll(s, qs).out.dropped == s.out.dropped
    ensures forall id :: id in s.updates.validate ==> id in InvokeAll(s, qs).updates.validate
    decreases |qs|
  {
    if qs != [] {
      InvokeGrows(InvokeQueued(s, qs[0]), qs[1..]);
    }
  }

  lemma {:induction false} DrainGrows(s: State, order: seq<string>)
    ensures s.out.queue <= DrainNames(s, order).out.queue && DrainNames(s, order).out.dropped == s.out.dropped
    ensures forall id :: id in s.updates.validate ==> id in DrainNames(s, order).updates.validate
    decreases |order|
  {
    hide InvokeAll;
    if order != [] {
      var s1 := s.(env := s.env.Told(HandleQueuedUpdates(order[0])).(updates := Without(s.env.updates, order[0])));
      InvokeGrows(s1, Named(s.env.updates, order[0]));
      DrainGrows(DrainName(s, order[0]), order[1..]);
    }
  }
}
