/** What the environment is asked to start, and under which names. */
module Operations {
  import opened Protocol
  import opened Engine
  import opened Frames
  import Attributes
  import Decimal
  import Delivery
  import Pipeline

  // ---- what the worker asked for ----

  predicate Starting(m: Message) {
    m.IsCommand() && Delivery.IsOperation(m.command.value)
  }

  predicate Nameless(m: Message) {
    m.IsCommand() && m.command.value.ExecuteChildWorkflow? && m.command.value.child.workflowId == ""
  }

  /** The children without an id of their own. */
  function NamelessIn(ms: seq<Message>): nat {
    if ms == [] then 0 else NamelessIn(ms[..|ms| - 1]) + (if Nameless(ms[|ms| - 1]) then 1 else 0)
  }

  /** The call for one command: the n-th operation, with its child the k-th nameless one. */
  function CallFor(info: Info, n: nat, k: nat, m: Message): EnvCall
    requires Starting(m)
  {
    var h := Handle(n, m.id);
    match m.command.value
    case ExecuteActivity(name, o) =>
      StartActivity(h, name, if o.taskQueue == "" then o.(taskQueue := info.taskQueue) else o, m.payloads, m.header)
    case ExecuteLocalActivity(name, o) =>
      StartLocalActivity(h, name,
                         LocalOptions(if o.scheduleToClose == 0 then 60_000_000_000 else o.scheduleToClose,
                                      if o.startToClose == 0 then 60_000_000_000 else o.startToClose, o.rest), m.payloads, m.header)
    case ExecuteChildWorkflow(name, o) =>
      StartChild(h, name,
                 ChildOptions(o.namespace, if o.workflowId == "" then ChildId(info.runId, Wrap(k)) else o.workflowId,
                              if o.taskQueue == "" then info.taskQueue else o.taskQueue, o.rest), m.payloads, m.header)
    case NewTimer(ms, summary) => StartTimer(h, Signed(ms * 1_000_000), summary)
    case SignalExternalWorkflow(namespace, workflowId, runId, signal, childOnly) =>
      SignalExternal(h, namespace, workflowId, runId, signal, m.payloads, m.header, childOnly)
    case CancelExternalWorkflow(namespace, workflowId, runId) => CancelExternal(h, namespace, workflowId, runId)
  }

  /** The calls the handled messages call for, in order, from the messages alone. */
  function Wanted(info: Info, ms: seq<Message>): seq<EnvCall> {
    if ms == [] then []
    else
      var before := Wanted(info, ms[..|ms| - 1]);
      var m := ms[|ms| - 1];
      before + (if Starting(m) then [CallFor(info, |before|, NamelessIn(ms), m)] else [])
  }

  // ---- what the environment was asked for ----

  predicate IsStart(c: EnvCall) {
    c.StartActivity? || c.StartLocalActivity? || c.StartChild? || c.StartTimer? || c.SignalExternal? || c.CancelExternal?
  }

  function Starts(trace: seq<EnvCall>): seq<EnvCall> {
    if trace == [] then []
    else Starts(trace[..|trace| - 1]) + (if IsStart(trace[|trace| - 1]) then [trace[|trace| - 1]] else [])
  }

  lemma StartsSnoc(trace: seq<EnvCall>, c: EnvCall)
    ensures Starts(trace + [c]) == Starts(trace) + (if IsStart(c) then [c] else [])
  {
    assert (trace + [c])[..|trace|] == trace;
  }

  lemma WantedSnoc(info: Info, ms: seq<Message>, m: Message)
    ensures NamelessIn(ms + [m]) == NamelessIn(ms) + (if Nameless(m) then 1 else 0)
    ensures Wanted(info, ms + [m]) ==
            Wanted(info, ms) + (if Starting(m) then [CallFor(info, |Wanted(info, ms)|, NamelessIn(ms + [m]), m)] else [])
  {
    assert (ms + [m])[..|ms|] == ms;
  }

  /** The operation a call asks to cancel. */
  function Requested(c: EnvCall): seq<Handle> {
    match c
    case RequestCancelActivity(h) => [h]
    case RequestCancelLocalActivity(h) => [h]
    case RequestCancelChild(h, _, _) => [h]
    case RequestCancelTimer(h) => [h]
    case _ => []
  }

  function Requests(trace: seq<EnvCall>): seq<Handle> {
    if trace == [] then [] else Requests(trace[..|trace| - 1]) + Requested(trace[|trace| - 1])
  }

  lemma RequestsSnoc(trace: seq<EnvCall>, c: EnvCall)
    ensures Requests(trace + [c]) == Requests(trace) + Requested(c)
  {
    assert (trace + [c])[..|trace|] == trace;
  }

  /** Every request to cancel is the doing of a cancel function that ran. */
  ghost predicate Justified(trace: seq<EnvCall>, ledger: seq<Mark>) {
    multiset(Requests(trace)) <= multiset(CancelMarks(ledger))
  }

  /** A step that starts nothing. */
  ghost predicate Idle(s: State, r: State) {
    && (Justified(s.env.trace, s.log.ledger) ==> Justified(r.env.trace, r.log.ledger))
    && Starts(r.env.trace) == Starts(s.env.trace) && r.env.started == s.env.started && r.childSeq == s.childSeq
    && r.env.info == s.env.info && r.inbox.handled == s.inbox.handled
  }

  /** A step that starts one operation. */
  ghost predicate Begun(s: State, r: State, call: EnvCall, h: Handle, childSeq: nat) {
    && (Justified(s.env.trace, s.log.ledger) ==> Justified(r.env.trace, r.log.ledger))
    && Starts(r.env.trace) == Starts(s.env.trace) + [call] && r.env.started == s.env.started + [h] && r.childSeq == childSeq
    && r.env.info == s.env.info && r.inbox.handled == s.inbox.handled
  }

  lemma CallIdle(s: State, call: EnvCall)
    requires !IsStart(call) && Requested(call) == []
    ensures Idle(s, Call(s, call))
  {
    CallApart(s, call);
    StartsSnoc(s.env.trace, call);
    RequestsSnoc(s.env.trace, call);
    hide Call;
    hide Requests;
    hide CancelMarks;
  }

  lemma CallBegun(s: State, id: Id, child: bool, call: EnvCall)
    requires IsStart(call)
    ensures Begun(s, Call(Begin(s, id, child), call), call, NextHandle(s, id), s.childSeq)
    ensures forall c: Cancellable :: Begun(s, Register(Call(Begin(s, id, child), call), id, c), call, NextHandle(s, id), s.childSeq)
  {
    CallApart(Begin(s, id, child), call);
    StartsSnoc(s.env.trace, call);
    RequestsSnoc(s.env.trace, call);
    forall c: Cancellable {
      MarksSnoc(Call(Begin(s, id, child), call).log.ledger, Registered(c.handle));
    }
    hide Call;
    hide Requests;
    hide CancelMarks;
  }

  /** The request of a cancel function that has been marked as run. */
  lemma RequestIdle(s: State, s1: State, call: EnvCall, h: Handle)
    requires !IsStart(call) && Requested(call) == [h]
    requires s1 == s.(canceller := s1.canceller, log := s.log.(ledger := s.log.ledger + [Cancelled(h)]))
    ensures Idle(s, Call(s1, call)) && Idle(s, s1)
  {
    CallApart(s1, call);
    StartsSnoc(s.env.trace, call);
    RequestsSnoc(s.env.trace, call);
    MarksSnoc(s.log.ledger, Cancelled(h));
    hide Call;
    hide Requests;
    hide CancelMarks;
    hide Starts;
  }

  lemma CancelOneIdle(s: State, id: Id)
    ensures Idle(s, CancelOne(s, id))
  {
    hide Call;
    hide Idle;
    StayIdle(s);
    if id in s.canceller {
      var c := s.canceller[id];
      var s1 := s.(canceller := s.canceller - {id}, log := s.log.(ledger := s.log.ledger + [Cancelled(c.handle)]));
      match c
      case CancelActivity(h) => RequestIdle(s, s1, RequestCancelActivity(h), h);
      case CancelLocalActivity(h) => RequestIdle(s, s1, RequestCancelLocalActivity(h), h);
      case CancelChild(h, namespace, workflowId) => RequestIdle(s, s1, RequestCancelChild(h, namespace, workflowId), h);
      case CancelTimer(h, timerId) => RequestIdle(s, s1, RequestCancelTimer(h), h);
    }
  }

  lemma {:induction false} CancelIdsIdle(s: State, ids: seq<Id>)
    ensures Idle(s, CancelIds(s, ids))
    decreases |ids|
  {
    hide CancelOne;
    if ids != [] {
      CancelOneIdle(s, ids[0]);
      CancelIdsIdle(CancelOne(s, ids[0]), ids[1..]);
    }
  }

  /** One handled command starts the operation it asks for, with the parameters it asks for, or nothing. */
  ghost predicate Obeys(s: State, m: Message, r: State) {
    var k := Wrap(s.childSeq + (if Nameless(m) then 1 else 0));
    if Starting(m)
    then Begun(s, r, CallFor(s.env.info, |s.env.started|, k, m), Handle(|s.env.started|, m.id), if Nameless(m) then k else s.childSeq)
    else Idle(s, r)
  }

  lemma WrapTwice(n: nat)
    ensures Wrap(Wrap(n)) == Wrap(n)
  {
  }

  lemma ChildObeys(s: State, m: Message, name: string, o: ChildOptions)
    requires m.command == Some(ExecuteChildWorkflow(name, o)) && s.childSeq < UINT64
    ensures Obeys(s, m, DoChild(s, m, name, o))
  {
    hide Call;
    hide ChildId;
    hide Wrap;
    hide Starts;
    hide Justified;
    var s1 := if o.workflowId == "" then NameChild(s) else s;
    WrapTwice(s.childSeq + 1);
    var id := if o.workflowId == "" then ChildId(s.env.info.runId, s1.childSeq) else o.workflowId;
    var params := o.(taskQueue := DefaultQueue(s, o.taskQueue), workflowId := id);
    hide Register;
    CallBegun(s1, m.id, true, StartChild(NextHandle(s1, m.id), name, params, m.payloads, m.header));
  }

  lemma OperationObeys(s: State, m: Message)
    requires Starting(m) && s.childSeq < UINT64
    ensures Obeys(s, m, HandleMessage(s, m).state)
  {
    hide Begun;
    hide Call;
    hide Register;
    hide DoChild;
    hide Signed;
    hide ChildId;
    hide Begin;
    var h := NextHandle(s, m.id);
    match m.command.value
    case ExecuteActivity(name, o) =>
      CallBegun(s, m.id, false, StartActivity(h, name, o.(taskQueue := DefaultQueue(s, o.taskQueue)), m.payloads, m.header));
    case ExecuteLocalActivity(name, o) =>
      var params := LocalOptions(DefaultTimeout(o.scheduleToClose), DefaultTimeout(o.startToClose), o.rest);
      CallBegun(s, m.id, false, StartLocalActivity(h, name, params, m.payloads, m.header));
    case ExecuteChildWorkflow(name, o) => ChildObeys(s, m, name, o);
    case NewTimer(ms, summary) => CallBegun(s, m.id, false, StartTimer(h, Signed(ms * 1_000_000), summary));
    case SignalExternalWorkflow(ns, wid, rid, signal, childOnly) =>
      CallBegun(s, m.id, false, SignalExternal(h, ns, wid, rid, signal, m.payloads, m.header, childOnly));
    case CancelExternalWorkflow(ns, wid, rid) => CallBegun(s, m.id, false, CancelExternal(h, ns, wid, rid));
  }

  lemma AskingObeys(s: State, m: Message)
    requires m.IsCommand() && IsAsking(m.command.value)
    ensures Idle(s, HandleMessage(s, m).state)
  {
    hide HandleMessage;
    AskingTalks(s, m);
    hide Call;
    hide CancelIds;
    match m.command.value
    case GetVersion(changeId, min, max) => CallIdle(s, AskVersion(changeId, min, max));
    case SideEffect => CallIdle(s, RecordSideEffect(m.payloads, s.env.Next().value));
    case Cancel(ids) => CancelIdsIdle(s, ids);
  }

  lemma ToldIdle(s: State, r: State, call: EnvCall)
    requires !IsStart(call) && Requested(call) == []
    requires r.env == s.env.Told(call) && r.childSeq == s.childSeq && r.inbox == s.inbox && r.log.ledger == s.log.ledger
    ensures Idle(s, r)
  {
    StartsSnoc(s.env.trace, call);
    RequestsSnoc(s.env.trace, call);
  }

  lemma UpdateObeys(s: State, m: Message, id: string)
    ensures Idle(s, DoUpdateCompleted(s, m, id).state) && Idle(s, DoUpdateValidated(s, m, id).state)
  {
    hide Idle;
    hide Starts;
    hide Requests;
    StayIdle(s);
    if id != "" && id in s.updates.complete {
      ToldIdle(s, DoUpdateCompleted(s, m, id).state, CompleteUpdate(s.updates.complete[id], OutcomeOf(m)));
    }
    if id != "" && id in s.updates.validate {
      var t := s.updates.validate[id];
      ToldIdle(s, DoUpdateValidated(s, m, id).state, if !s.env.replaying && m.failure.Some? then Reject(t, m.failure.value) else Accept(t));
    }
  }

  lemma CompleteObeys(s: State, m: Message, name: string, next: ContinueOptions)
    ensures Idle(s, DoComplete(s, m)) && Idle(s, DoContinueAsNew(s, m, name, next))
  {
    ToldIdle(s, DoComplete(s, m), if m.failure.None? then Complete(m.payloads, None) else Complete(NoPayloads, m.failure));
    ToldIdle(s, DoContinueAsNew(s, m, name, next), CompleteAsNew(name, next, m.payloads, m.header));
  }

  lemma ListenIdle(s: State, child: Id, id: Id)
    ensures Idle(s, Listen(s, child, id))
  {
  }

  lemma SettlingObeys(s: State, m: Message)
    requires m.IsCommand() && !IsApart(m.command.value) && !IsAsking(m.command.value)
    ensures Idle(s, HandleMessage(s, m).state)
  {
    hide Call;
    hide CancelIds;
    hide Idle;
    hide DoUpdateCompleted;
    hide DoUpdateValidated;
    hide DoComplete;
    hide DoContinueAsNew;
    match m.command.value
    case UpdateCompleted(id) => UpdateObeys(s, m, id);
    case UpdateValidated(id) => UpdateObeys(s, m, id);
    case CompleteWorkflow => CompleteObeys(s, m, "", ContinueOptions("", 0, 0));
    case ContinueAsNew(name, next) => CompleteObeys(s, m, name, next);
  }

  lemma QuietObeys(s: State, m: Message)
    requires m.IsCommand() && IsApart(m.command.value) && !Starting(m)
    ensures Idle(s, HandleMessage(s, m).state)
  {
    hide Call;
    hide Idle;
    hide Listen;
    hide Attributes.Updates;
    hide Attributes.Unparsable;
    StayIdle(s);
    match m.command.value
    case GetChildWorkflowExecution(child) => ListenIdle(s, child, m.id);
    case UpsertSearchAttributes(untyped) => CallIdle(s, Upsert(untyped));
    case UpsertTypedSearchAttributes(attributes) => CallIdle(s, UpsertTyped(Attributes.Updates(s.env.conversions, attributes)));
    case UpsertMemo(memo) => CallIdle(s, UpsertMemos(memo));
    case _ =>
  }

  lemma OtherObeys(s: State, m: Message)
    requires m.IsCommand() && !Starting(m)
    ensures Idle(s, HandleMessage(s, m).state)
  {
    hide HandleMessage;
    hide Idle;
    if IsAsking(m.command.value) {
      AskingObeys(s, m);
    } else if IsApart(m.command.value) {
      QuietObeys(s, m);
    } else {
      SettlingObeys(s, m);
    }
  }

  lemma StayIdle(s: State)
    ensures Idle(s, s)
  {
  }

  // ---- runs ----

  /** The environment was asked to start exactly what the worker's handled commands ask for, in that order. */
  ghost predicate Obedient(s: State) {
    && Starts(s.env.trace) == Wanted(s.env.info, s.inbox.handled)
    && |s.env.started| == |Starts(s.env.trace)|
    && s.childSeq == Wrap(NamelessIn(s.inbox.handled))
    && Justified(s.env.trace, s.log.ledger)
  }

  lemma IdleObedient(s: State, r: State)
    requires Obedient(s) && Idle(s, r)
    ensures Obedient(r)
  {
  }

  lemma WrapNext(n: nat)
    ensures Wrap(Wrap(n) + 1) == Wrap(n + 1)
  {
  }

  /** A message popped, then obeyed. */
  lemma ObeysObedient(s: State, m: Message, s1: State, r: State)
    requires Obedient(s) && s1 == s.(inbox := s1.inbox) && s1.inbox.handled == s.inbox.handled + [m]
    requires Obeys(s1, m, r)
    ensures Obedient(r)
  {
    WantedSnoc(s.env.info, s.inbox.handled, m);
    WrapNext(NamelessIn(s.inbox.handled));
    WrapTwice(NamelessIn(s.inbox.handled));
    hide Wanted;
    hide Starts;
    hide Wrap;
    hide Justified;
    hide CallFor;
    hide NamelessIn;
    var k := NamelessIn(s.inbox.handled + [m]);
    assert Wrap(s1.childSeq + (if Nameless(m) then 1 else 0)) == Wrap(k);
    if Starting(m) {
      CallForWrapped(s.env.info, |s.env.started|, k, m);
      BegunObedient(s, m, s1, r, CallFor(s.env.info, |s.env.started|, k, m));
    }
  }

  lemma BegunObedient(s: State, m: Message, s1: State, r: State, call: EnvCall)
    requires Obedient(s) && s1 == s.(inbox := s1.inbox)
    requires Wanted(s.env.info, s1.inbox.handled) == Wanted(s.env.info, s.inbox.handled) + [call]
    requires Begun(s1, r, call, Handle(|s.env.started|, m.id), Wrap(NamelessIn(s1.inbox.handled)))
    ensures Obedient(r)
  {
  }

  lemma CallForWrapped(info: Info, n: nat, k: nat, m: Message)
    requires Starting(m)
    ensures CallFor(info, n, Wrap(k), m) == CallFor(info, n, k, m)
  {
    WrapTwice(k);
    hide Wrap;
    hide Signed;
    hide ChildId;
  }

  /** A message taken off the pipeline that starts nothing. */
  lemma PoppedObedient(s: State)
    requires Obedient(s) && s.inbox.pipeline != [] && !Starting(s.inbox.pipeline[0])
    ensures Obedient(s.(inbox := s.inbox.Popped()))
  {
    hide Obedient;
    var s1 := s.(inbox := s.inbox.Popped());
    StayIdle(s1);
    ObeysObedient(s, s.inbox.pipeline[0], s1, s1);
  }

  lemma HandledObedient(s: State)
    requires Obedient(s) && s.inbox.pipeline != [] && s.inbox.pipeline[0].IsCommand()
    ensures var r := HandleMessage(s.(inbox := s.inbox.Popped()), s.inbox.pipeline[0]).state;
            Obedient(r) && r.env.info == s.env.info
  {
    hide HandleMessage;
    hide Obedient;
    hide Starts;
    hide Wanted;
    hide CallFor;
    var m, s1 := s.inbox.pipeline[0], s.(inbox := s.inbox.Popped());
    ObedientSeq(s);
    if Starting(m) { OperationObeys(s1, m); } else { OtherObeys(s1, m); }
    ObeysObedient(s, m, s1, HandleMessage(s1, m).state);
  }

  lemma {:induction false} PipelineObedient(s: State)
    requires Obedient(s)
    ensures Obedient(RunPipeline(s).state) && RunPipeline(s).state.env.info == s.env.info
    decreases s.inbox.Work()
  {
    hide HandleMessage;
    hide Obedient;
    hide Starting;
    if s.inbox.pipeline != [] {
      var m := s.inbox.pipeline[0];
      var s1 := s.(inbox := s.inbox.Popped());
      if !m.IsCommand() || m.IsUndefinedResponse() {
        NotStarting(m);
        PoppedObedient(s);
        ClearedObedient(s1);
        if !m.IsCommand() { PipelineObedient(s1); }
      } else {
        HandledObedient(s);
        var r := HandleMessage(s1, m);
        ClearedObedient(r.state);
        if r.exit.Normal? { PipelineObedient(r.state); }
      }
    }
  }

  lemma NotStarting(m: Message)
    requires !m.IsCommand() || m.IsUndefinedResponse()
    ensures !Starting(m)
  {
  }

  lemma ObedientSeq(s: State)
    requires Obedient(s)
    ensures s.childSeq < UINT64
  {
  }

  lemma ClearedObedient(s: State)
    requires Obedient(s)
    ensures Obedient(s.(inbox := s.inbox.Cleared()))
  {
  }

  lemma {:induction false} DrainNamesIdle(s: State, order: seq<string>)
    ensures Idle(s, DrainNames(s, order))
    decreases |order|
  {
    if order != [] {
      var s1 := s.(env := s.env.Told(HandleQueuedUpdates(order[0])).(updates := Without(s.env.updates, order[0])));
      Pipeline.InvokeAllFrame(s1, Named(s.env.updates, order[0]));
      StartsSnoc(s.env.trace, HandleQueuedUpdates(order[0]));
      RequestsSnoc(s.env.trace, HandleQueuedUpdates(order[0]));
      hide Requests;
      hide InvokeAll;
      hide Starts;
      DrainNamesIdle(DrainName(s, order[0]), order[1..]);
    }
  }

  lemma BeforeFlushIdle(s: State, order: seq<string>)
    ensures Idle(s, BeforeFlush(s, order))
  {
    var s0 := s.(inLoop := true);
    Pipeline.DrainCallbacksFrame(s0, 0);
    DrainNamesIdle(DrainCallbacks(s0, 0), order);
    hide DrainCallbacks;
    hide DrainNames;
  }

  lemma FlushIdle(s: State)
    ensures Idle(s, Flush(s).state)
  {
  }

  lemma TaskObedient(s: State, order: seq<string>, reactions: seq<Reaction>, replies: seq<Exchange>, replaying: bool)
    requires Obedient(s)
    ensures Obedient(DoTask(s, order, reactions, replies, replaying)) && DoTask(s, order, reactions, replies, replaying).env.info == s.env.info
  {
    hide BeforeFlush;
    hide RunPipeline;
    hide Starts;
    hide Wanted;
    var s1 := s.(inbox := s.inbox.(replies := replies), env := s.env.(reactions := reactions, replaying := replaying));
    BeforeFlushIdle(s1, order);
    IdleObedient(s1, BeforeFlush(s1, order));
    var f := Flush(BeforeFlush(s1, order));
    FlushIdle(BeforeFlush(s1, order));
    hide Flush;
    hide Idle;
    IdleObedient(BeforeFlush(s1, order), f.state);
    hide Justified;
    hide NamelessIn;
    if f.exit.Normal? {
      PipelineObedient(f.state);
    }
  }

  lemma CloseIdle(s: State, order: seq<string>)
    ensures Idle(s, DoClose(s, order))
  {
    DrainNamesIdle(s, order);
    StartsSnoc(s.env.trace, DrainUnhandledUpdates);
    RequestsSnoc(s.env.trace, DrainUnhandledUpdates);
    Pipeline.DrainNamesFrame(s, order);
    hide Requests;
    hide DrainNames;
    hide Starts;
  }

  lemma FireIdle(s: State, f: Firing)
    ensures Idle(s, Fire(s, f))
  {
    hide Fire;
    hide Starts;
    hide Requests;
    FireApart(s, f);
  }

  lemma NextObedient(s: State, e: Event)
    requires Obedient(s)
    ensures Obedient(Next(s, e)) && Next(s, e).env.info == s.env.info
  {
    hide Starts;
    hide Wanted;
    hide Requests;
    hide NamelessIn;
    hide CancelMarks;
    hide DoTask;
    hide DoClose;
    hide Fire;
    match e
    case Fires(f) =>
      FireIdle(s, f);
      IdleObedient(s, Fire(s, f));
    case Task(order, reactions, replies, replaying) => TaskObedient(s, order, reactions, replies, replaying);
    case Closes(order) =>
      CloseIdle(s, order);
      IdleObedient(s, DoClose(s, order));
    case _ => IdleObedient(s, Next(s, e));
  }

  lemma {:induction false} RunObedient(s: State, events: seq<Event>)
    requires Obedient(s)
    ensures Obedient(Run(s, events)) && Run(s, events).env.info == s.env.info
  {
    hide Obedient;
    hide Next;
    if events != [] {
      RunObedient(s, events[..|events| - 1]);
      NextObedient(Run(s, events[..|events| - 1]), events[|events| - 1]);
    }
  }

  /** In every run the environment is asked to start exactly the operations the worker's handled commands ask for: each
      once, in the order handled, under the command's id, with the command's parameters and the defaults filled in. */
  lemma OperationsStarted(x: Launch, events: seq<Event>)
    ensures var r := Run(Executed(x), events);
            r.env.info == x.env.info && Starts(r.env.trace) == Wanted(x.env.info, r.inbox.handled)
  {
    var s := Executed(x);
    assert Obedient(s) && s.env.info == x.env.info;
    hide Executed;
    RunObedient(s, events);
  }

  // ---- children without an id ----

  /** The messages that ask for an operation. */
  function Starters(ms: seq<Message>): seq<Message> {
    if ms == [] then []
    else Starters(ms[..|ms| - 1]) + (if Starting(ms[|ms| - 1]) then [ms[|ms| - 1]] else [])
  }

  /** The workflow ids in the calls made for nameless children: the i-th start call is for the i-th starting message. */
  function GivenIds(starts: seq<EnvCall>, starters: seq<Message>): seq<string> {
    if starts == [] || |starters| != |starts| then []
    else
      var n := |starts| - 1;
      GivenIds(starts[..n], starters[..n]) +
      (if Nameless(starters[n]) && starts[n].StartChild? then [starts[n].child.workflowId] else [])
  }

  /** The calls wanted for the messages, read back: the ids count up. */
  lemma {:induction false} WantedIds(info: Info, ms: seq<Message>)
    ensures |Starters(ms)| == |Wanted(info, ms)|
    ensures var ids := GivenIds(Wanted(info, ms), Starters(ms));
            |ids| == NamelessIn(ms) && forall k :: 0 <= k < |ids| ==> ids[k] == ChildId(info.runId, Wrap(k + 1))
  {
    hide ChildId;
    hide Wrap;
    if ms != [] {
      var before, m := ms[..|ms| - 1], ms[|ms| - 1];
      WantedIds(info, before);
      if Starting(m) {
        var w, t := Wanted(info, before), Starters(before);
        var call := CallFor(info, |w|, NamelessIn(ms), m);
        GivenSnoc(w, t, call, m);
      } else {
        assert Wanted(info, ms) == Wanted(info, before) && Starters(ms) == Starters(before);
      }
    }
  }

  lemma GivenSnoc(starts: seq<EnvCall>, starters: seq<Message>, call: EnvCall, m: Message)
    requires |starters| == |starts|
    ensures GivenIds(starts + [call], starters + [m]) ==
            GivenIds(starts, starters) + (if Nameless(m) && call.StartChild? then [call.child.workflowId] else [])
  {
    assert (starts + [call])[..|starts|] == starts && (starters + [m])[..|starts|] == starters;
  }

  /** The children a run started without an id of their own are called RunID_1, RunID_2, ... in the order their commands
      were handled, however other commands come in between: these are the ids in the calls made to the environment. */
  lemma KthChild(x: Launch, events: seq<Event>)
    ensures var r := Run(Executed(x), events);
            var ids := GivenIds(Starts(r.env.trace), Starters(r.inbox.handled));
            && |Starters(r.inbox.handled)| == |Starts(r.env.trace)| && |ids| == NamelessIn(r.inbox.handled)
            && (forall k :: 0 <= k < |ids| ==> ids[k] == ChildId(x.env.info.runId, Wrap(k + 1)))
            && (forall k :: 0 <= k < |ids| && k + 1 < INT64 ==> ids[k] == x.env.info.runId + "_" + Decimal.Itoa(k + 1))
  {
    hide Decimal.Itoa;
    OperationsStarted(x, events);
    var r := Run(Executed(x), events);
    hide Run;
    hide Executed;
    WantedIds(x.env.info, r.inbox.handled);
  }

  /** Two of them coincide exactly when they are a multiple of 2^64 apart. */
  lemma ChildIdsDistinct(x: Launch, events: seq<Event>, j: nat, k: nat)
    requires var r := Run(Executed(x), events);
             var n := |GivenIds(Starts(r.env.trace), Starters(r.inbox.handled))|; j < n && k < n
    ensures var r := Run(Executed(x), events);
            var ids := GivenIds(Starts(r.env.trace), Starters(r.inbox.handled));
            ids[j] == ids[k] <==> (j - k) % UINT64 == 0
  {
    hide Run;
    hide Executed;
    hide GivenIds;
    hide Starts;
    hide Starters;
    KthChild(x, events);
    SameChildId(x.env.info.runId, j + 1, k + 1);
  }

  lemma SameChildId(runId: string, a: nat, b: nat)
    ensures ChildId(runId, Wrap(a)) == ChildId(runId, Wrap(b)) <==> (a - b) % UINT64 == 0
  {
    hide Decimal.Itoa;
    if ChildId(runId, Wrap(a)) == ChildId(runId, Wrap(b)) {
      SameTail(runId + "_", Decimal.Itoa(Signed(Wrap(a))), Decimal.Itoa(Signed(Wrap(b))));
      Decimal.ItoaInjective(Signed(Wrap(a)), Signed(Wrap(b)));
    }
  }

  lemma SameTail(p: string, x: string, y: string)
    requires p + x == p + y
    ensures x == y
  {
    assert (p + x)[|p|..] == x && (p + y)[|p|..] == y;
  }
}
