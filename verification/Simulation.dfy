/** Corresponding states of two runs of one workflow, and what every step keeps of the correspondence. */
module Simulation {
  import opened Protocol
  import opened Engine
  import Attributes
  import Delivery
  import Frames
  import Pipeline

  // ---- the same up to engine ids ----

  predicate AlikeMessage(m: Message, n: Message) {
    n == m.(id := n.id) && (m.command.None? ==> n.id == m.id)
  }

  predicate AlikePush(p: Push, q: Push) {
    match (p, q)
    case (Own(m), Own(n)) => AlikeMessage(m, n)
    case (Reply(a), Reply(b)) => a == b
    case _ => false
  }

  predicate AlikeAll(ms: seq<Message>, ns: seq<Message>) {
    |ms| == |ns| && forall i :: 0 <= i < |ms| ==> AlikeMessage(ms[i], ns[i])
  }

  /** Queued, pushed and dropped messages and sent batches correspond one to one. What was asked, and the counter, may differ. */
  predicate AlikeOut(o: Outbox, p: Outbox) {
    && AlikeAll(o.queue, p.queue) && AlikeAll(o.dropped, p.dropped)
    && |o.sent| == |p.sent| && (forall i :: 0 <= i < |o.sent| ==> AlikeAll(o.sent[i], p.sent[i]))
    && |o.pushed| == |p.pushed| && (forall i :: 0 <= i < |o.pushed| ==> AlikePush(o.pushed[i], p.pushed[i]))
  }

  /** Received messages: commands are the same, plain responses, which the pipeline drops, may echo different ids. */
  predicate AlikeReply(m: Message, n: Message) {
    n == m.(id := n.id) && (m.command.Some? ==> n.id == m.id)
  }

  predicate AlikeReplies(ms: seq<Message>, ns: seq<Message>) {
    |ms| == |ns| && forall i :: 0 <= i < |ms| ==> AlikeReply(ms[i], ns[i])
  }

  predicate AlikeFrame(f: Frame, g: Frame) {
    match (f, g)
    case (Parsed(m), Parsed(n)) => AlikeReply(m, n)
    case _ => f == g
  }

  predicate AlikeExchange(x: Exchange, y: Exchange) {
    match (x, y)
    case (Body(fs), Body(gs)) => |fs| == |gs| && forall i :: 0 <= i < |fs| ==> AlikeFrame(fs[i], gs[i])
    case _ => x == y
  }

  predicate AlikeExchanges(xs: seq<Exchange>, ys: seq<Exchange>) {
    |xs| == |ys| && forall i :: 0 <= i < |xs| ==> AlikeExchange(xs[i], ys[i])
  }

  predicate AlikeInbox(i: Inbox, j: Inbox) {
    && AlikeReplies(i.pipeline, j.pipeline) && AlikeReplies(i.received, j.received) && AlikeReplies(i.handled, j.handled)
    && AlikeExchanges(i.replies, j.replies)
  }

  /** The same answers of the environment; maps may be visited in different orders. */
  predicate AlikeReactions(a: seq<Reaction>, b: seq<Reaction>) {
    |a| == |b| && forall i :: 0 <= i < |a| ==> b[i] == a[i].(visit := b[i].visit)
  }

  /** Everything else is equal, the calls to the environment among it; one of them may be a replay of the other. */
  ghost predicate Twins(s: State, t: State) {
    && t == s.(out := t.out, env := t.env, inbox := t.inbox)
    && t.env == s.env.(replaying := t.env.replaying, reactions := t.env.reactions)
    && AlikeReactions(s.env.reactions, t.env.reactions)
    && AlikeOut(s.out, t.out) && AlikeInbox(s.inbox, t.inbox)
  }

  ghost predicate TwinSteps(a: Step, b: Step) {
    a.exit == b.exit && Twins(a.state, b.state)
  }

  lemma PushAlike(o: Outbox, p: Outbox, x: Push, y: Push)
    requires AlikeOut(o, p) && AlikePush(x, y)
    ensures AlikeOut(o.Pushed(x), p.Pushed(y))
  {
  }

  lemma SentAlike(o: Outbox, p: Outbox)
    requires AlikeOut(o, p)
    ensures AlikeOut(o.Sent(), p.Sent()) && AlikeOut(o.Dropped(), p.Dropped())
  {
  }

  lemma CommandAlike(o: Outbox, p: Outbox, c: Command, payloads: Payloads, header: Option<Header>)
    requires AlikeOut(o, p)
    ensures AlikeOut(o.Command(c, payloads, header), p.Command(c, payloads, header))
  {
    PushAlike(o.Drew(), p.Drew(), Own(CommandMessage(Wrap(o.count + 1), c, payloads, header)),
              Own(CommandMessage(Wrap(p.count + 1), c, payloads, header)));
  }

  lemma AskedAlike(o: Outbox, p: Outbox, c: Command, payloads: Payloads, header: Option<Header>)
    requires AlikeOut(o, p)
    ensures AlikeOut(o.Asked(c, payloads, header), p) && AlikeOut(o, p.Asked(c, payloads, header))
  {
    hide AlikeMessage;
    hide AlikePush;
  }

  // ---- handlers ----

  lemma RunCallbackTwins(s: State, t: State, a: Answer)
    requires Twins(s, t)
    ensures Twins(RunCallback(s, a), RunCallback(t, a))
  {
    PushAlike(s.out, t.out, Reply(a), Reply(a));
  }

  lemma DeliverTwins(s: State, t: State, a: Answer)
    requires Twins(s, t)
    ensures Twins(Deliver(s, a), Deliver(t, a))
  {
    hide AlikeOut;
    hide AlikeInbox;
    var f := s.log.fired + [a];
    if s.inLoop {
      RunCallbackTwins(s.(log := s.log.(fired := f)), t.(log := t.log.(fired := f)), a);
    }
  }

  lemma FireTwins(s: State, t: State, f: Firing)
    requires Twins(s, t)
    ensures Twins(Fire(s, f), Fire(t, f))
  {
    hide AlikeOut;
    hide AlikeInbox;
    hide Deliver;
    match f
    case Result(h, o) =>
      if h in s.env.pending {
        var log := s.log.(ledger := s.log.ledger + [Fired(h)]);
        DeliverTwins(s.(env := s.env.(pending := s.env.pending - {h}), log := log),
                     t.(env := t.env.(pending := t.env.pending - {h}), log := log), Answer(Handler(h), h.id, o));
      }
    case Started(h, o) =>
      if h in s.env.starting && h.id in s.children.listeners {
        DeliverTwins(EntryStored(s.(env := s.env.(starting := s.env.starting - {h})), h.id, o),
                     EntryStored(t.(env := t.env.(starting := t.env.starting - {h})), h.id, o),
                     Answer(Listener(h.id), s.children.listeners[h.id], o));
      }
  }

  lemma {:induction false} FireAllTwins(s: State, t: State, fs: seq<Firing>)
    requires Twins(s, t)
    ensures Twins(FireAll(s, fs), FireAll(t, fs))
    decreases |fs|
  {
    if fs != [] {
      FireTwins(s, t, fs[0]);
      FireAllTwins(Fire(s, fs[0]), Fire(t, fs[0]), fs[1..]);
    }
  }

  lemma CallTwins(s: State, t: State, call: EnvCall)
    requires Twins(s, t)
    ensures Twins(Call(s, call), Call(t, call))
  {
    hide AlikeOut;
    hide AlikeInbox;
    FireAllTwins(s.(env := s.env.Called(call)), t.(env := t.env.Called(call)), s.env.Next().fired);
  }

  lemma ListenTwins(s: State, t: State, child: Id, id: Id)
    requires Twins(s, t)
    ensures Twins(Listen(s, child, id), Listen(t, child, id))
  {
    hide AlikeOut;
    hide AlikeInbox;
    hide Deliver;
    if child in s.children.entries {
      DeliverTwins(ListenerStored(s, child, id), ListenerStored(t, child, id), Answer(Listener(child), id, s.children.entries[child]));
    }
  }

  lemma BeginTwins(s: State, t: State, id: Id, child: bool, call: EnvCall)
    requires Twins(s, t)
    ensures Twins(Call(Begin(s, id, child), call), Call(Begin(t, id, child), call))
  {
    hide AlikeOut;
    hide AlikeInbox;
    CallTwins(Begin(s, id, child), Begin(t, id, child), call);
  }

  lemma StartTwins(s: State, t: State, id: Id, child: bool, call: EnvCall, c: Cancellable)
    requires Twins(s, t)
    ensures Twins(Register(Call(Begin(s, id, child), call), id, c), Register(Call(Begin(t, id, child), call), id, c))
  {
    hide AlikeOut;
    hide AlikeInbox;
    hide Call;
    BeginTwins(s, t, id, child, call);
  }

  lemma ChildTwins(s: State, t: State, m: Message, name: string, o: ChildOptions)
    requires Twins(s, t)
    ensures Twins(DoChild(s, m, name, o), DoChild(t, m, name, o))
  {
    hide AlikeOut;
    hide AlikeInbox;
    hide Call;
    hide Begin;
    hide Register;
    hide ChildId;
    var s1 := if o.workflowId == "" then NameChild(s) else s;
    var t1 := if o.workflowId == "" then NameChild(t) else t;
    var id := if o.workflowId == "" then ChildId(s.env.info.runId, s1.childSeq) else o.workflowId;
    var params := o.(taskQueue := DefaultQueue(s, o.taskQueue), workflowId := id);
    var h := NextHandle(s1, m.id);
    StartTwins(s1, t1, m.id, true, StartChild(h, name, params, m.payloads, m.header), CancelChild(h, o.namespace, id));
  }

  lemma CancelOneTwins(s: State, t: State, id: Id)
    requires Twins(s, t)
    ensures Twins(CancelOne(s, id), CancelOne(t, id))
  {
    hide AlikeOut;
    hide AlikeInbox;
    hide Call;
    if id in s.canceller {
      var c := s.canceller[id];
      var canceller := s.canceller - {id};
      var log := s.log.(ledger := s.log.ledger + [Cancelled(c.handle)]);
      var s1 := s.(canceller := canceller, log := log);
      var t1 := t.(canceller := canceller, log := log);
      match c
      case CancelActivity(h) => CallTwins(s1, t1, RequestCancelActivity(h));
      case CancelLocalActivity(h) => CallTwins(s1, t1, RequestCancelLocalActivity(h));
      case CancelChild(h, namespace, workflowId) => CallTwins(s1, t1, RequestCancelChild(h, namespace, workflowId));
      case CancelTimer(h, timerId) => CallTwins(s1, t1, RequestCancelTimer(h));
    }
  }

  lemma {:induction false} CancelIdsTwins(s: State, t: State, ids: seq<Id>)
    requires Twins(s, t)
    ensures Twins(CancelIds(s, ids), CancelIds(t, ids))
    decreases |ids|
  {
    if ids != [] {
      CancelOneTwins(s, t, ids[0]);
      CancelIdsTwins(CancelOne(s, ids[0]), CancelOne(t, ids[0]), ids[1..]);
    }
  }

  lemma {:induction false} DecodedAlike(fs: seq<Frame>, gs: seq<Frame>)
    requires AlikeExchange(Body(fs), Body(gs))
    ensures AlikeReplies(Decoded(fs).messages, Decoded(gs).messages) && Decoded(fs).error == Decoded(gs).error
  {
    if fs != [] {
      DecodedAlike(fs[..|fs| - 1], gs[..|gs| - 1]);
      assert AlikeFrame(fs[|fs| - 1], gs[|gs| - 1]);
    }
  }

  lemma AnsweredAlike(x: Exchange, y: Exchange)
    requires AlikeExchange(x, y)
    ensures AlikeReplies(Answered(x).messages, Answered(y).messages) && Answered(x).error == Answered(y).error
  {
    if x.Body? && y.Body? {
      DecodedAlike(x.frames, y.frames);
    }
  }

  lemma TakenAlike(i: Inbox, j: Inbox)
    requires AlikeInbox(i, j)
    ensures AlikeExchange(i.Next(), j.Next()) && AlikeInbox(i.Consumed(), j.Consumed())
  {
  }

  lemma GotAlike(i: Inbox, j: Inbox, ms: seq<Message>, ns: seq<Message>)
    requires AlikeInbox(i, j) && AlikeReplies(ms, ns)
    ensures AlikeInbox(i.Got(ms), j.Got(ns))
  {
    hide AlikeReply;
    hide AlikeExchange;
  }

  lemma FlushTwins(s: State, t: State)
    requires Twins(s, t)
    ensures TwinSteps(Flush(s), Flush(t))
  {
    hide AlikeInbox;
    hide AlikeReply;
    hide AlikeReplies;
    hide AlikeExchange;
    hide Answered;
    SentAlike(s.out, t.out);
    TakenAlike(s.inbox, t.inbox);
    AnsweredAlike(s.inbox.Next(), t.inbox.Next());
    GotAlike(s.inbox.Consumed(), t.inbox.Consumed(), Answered(s.inbox.Next()).messages, Answered(t.inbox.Next()).messages);
  }

  lemma OwnTwins(s: State, t: State, m: Message)
    requires Twins(s, t)
    ensures Twins(s.(out := s.out.Pushed(Own(m))), t.(out := t.out.Pushed(Own(m))))
  {
    PushAlike(s.out, t.out, Own(m), Own(m));
  }

  lemma RespondAndFlushTwins(s: State, t: State, id: Id, payloads: Payloads)
    requires Twins(s, t)
    ensures TwinSteps(RespondAndFlush(s, id, payloads), RespondAndFlush(t, id, payloads))
  {
    hide AlikeOut;
    hide AlikeInbox;
    OwnTwins(s, t, Response(id, payloads));
    FlushTwins(Respond(s, id, payloads), Respond(t, id, payloads));
  }

  lemma VersionTwins(s: State, t: State, m: Message, changeId: string, min: int, max: int)
    requires Twins(s, t)
    ensures TwinSteps(DoVersion(s, m, changeId, min, max), DoVersion(t, m, changeId, min, max))
  {
    hide AlikeOut;
    hide AlikeInbox;
    hide Call;
    hide RespondAndFlush;
    var call := AskVersion(changeId, min, max);
    CallTwins(s, t, call);
    if s.env.Next().value.Succeeded? {
      RespondAndFlushTwins(Call(s, call), Call(t, call), m.id, s.env.Next().value.payloads);
    }
  }

  lemma SideEffectTwins(s: State, t: State, m: Message)
    requires Twins(s, t)
    ensures TwinSteps(DoSideEffect(s, m), DoSideEffect(t, m))
  {
    hide AlikeOut;
    hide AlikeInbox;
    hide Call;
    hide RespondAndFlush;
    var outcome := s.env.Next().value;
    var call := RecordSideEffect(m.payloads, outcome);
    CallTwins(s, t, call);
    var s1 := Call(s, call);
    var t1 := Call(t, call);
    var s2 := s1.(canceller := s1.canceller - {m.id});
    var t2 := t1.(canceller := t1.canceller - {m.id});
    match outcome
    case Failed(e) => OwnTwins(s2, t2, ErrorResponse(m.id, e));
    case Succeeded(p) => RespondAndFlushTwins(s2, t2, m.id, p);
  }

  lemma CancelTwins(s: State, t: State, m: Message, ids: seq<Id>)
    requires Twins(s, t)
    ensures TwinSteps(DoCancel(s, m, ids), DoCancel(t, m, ids))
  {
    CancelIdsTwins(s, t, ids);
    RespondAndFlushTwins(CancelIds(s, ids), CancelIds(t, ids), m.id, COMPLETED);
  }

  lemma TryTwins(s: State, t: State, call: EnvCall)
    requires Twins(s, t)
    ensures TwinSteps(Try(s, call), Try(t, call))
  {
    hide AlikeOut;
    hide AlikeInbox;
    hide Call;
    CallTwins(s, t, call);
  }

  /** The one thing a replay treats differently: the failed validation of a request that waits for one. */
  predicate Overrules(s: State, m: Message) {
    && m.command.Some? && m.command.value.UpdateValidated? && m.failure.Some?
    && m.command.value.updateId != "" && m.command.value.updateId in s.updates.validate
  }

  /** The one thing map order decides in a command: which of two faults of an upsert comes first. */
  predicate Misread(s: State, t: State, m: Message) {
    && m.command.Some? && m.command.value.UpsertTypedSearchAttributes?
    && UpsertEnds(s, m.command.value.attributes) != UpsertEnds(t, m.command.value.attributes)
  }

  function UpsertEnds(s: State, attributes: Protocol.Attributes): Attributes.Ending {
    Attributes.Ends(s.env.conversions, attributes, s.env.Next().visit)
  }

  predicate Disputed(s: State, t: State, m: Message) {
    (s.env.replaying != t.env.replaying && Overrules(s, m)) || Misread(s, t, m)
  }

  lemma UpdateTwins(s: State, t: State, m: Message, id: string)
    requires Twins(s, t) && m.command == Some(UpdateValidated(id)) && !Disputed(s, t, m)
    ensures TwinSteps(DoUpdateValidated(s, m, id), DoUpdateValidated(t, m, id))
  {
    hide AlikeOut;
    hide AlikeInbox;
  }

  lemma UpsertTwins(s: State, t: State, attributes: Protocol.Attributes)
    requires Twins(s, t) && UpsertEnds(s, attributes) == UpsertEnds(t, attributes)
    ensures TwinSteps(DoUpsertTyped(s, attributes), DoUpsertTyped(t, attributes))
  {
    hide AlikeOut;
    hide AlikeInbox;
    hide Attributes.Ends;
    hide Attributes.Updates;
    hide Try;
    TryTwins(s, t, UpsertTyped(Attributes.Updates(s.env.conversions, attributes)));
  }

  lemma UpdateCompletedTwins(s: State, t: State, m: Message, id: string)
    requires Twins(s, t)
    ensures TwinSteps(DoUpdateCompleted(s, m, id), DoUpdateCompleted(t, m, id))
  {
    hide AlikeOut;
    hide AlikeInbox;
  }

  lemma CompleteTwins(s: State, t: State, m: Message, name: string, next: ContinueOptions)
    requires Twins(s, t)
    ensures Twins(DoComplete(s, m), DoComplete(t, m)) && Twins(DoContinueAsNew(s, m, name, next), DoContinueAsNew(t, m, name, next))
  {
    hide AlikeOut;
    hide AlikeInbox;
    OwnTwins(s, t, Response(m.id, COMPLETED));
  }

  lemma OperationTwins(s: State, t: State, m: Message)
    requires Twins(s, t) && m.IsCommand() && Delivery.IsOperation(m.command.value)
    ensures TwinSteps(HandleMessage(s, m), HandleMessage(t, m))
  {
    hide AlikeOut;
    hide AlikeInbox;
    hide Call;
    hide Begin;
    hide Register;
    hide DoChild;
    hide Signed;
    var h := NextHandle(s, m.id);
    match m.command.value
    case ExecuteActivity(name, o) =>
      StartTwins(s, t, m.id, false, StartActivity(h, name, o.(taskQueue := DefaultQueue(s, o.taskQueue)), m.payloads, m.header), CancelActivity(h));
    case ExecuteLocalActivity(name, o) =>
      var params := LocalOptions(DefaultTimeout(o.scheduleToClose), DefaultTimeout(o.startToClose), o.rest);
      StartTwins(s, t, m.id, false, StartLocalActivity(h, name, params, m.payloads, m.header), CancelLocalActivity(h));
    case ExecuteChildWorkflow(name, o) => ChildTwins(s, t, m, name, o);
    case NewTimer(ms, summary) =>
      StartTwins(s, t, m.id, false, StartTimer(h, Signed(ms * 1_000_000), summary), CancelTimer(h, s.env.Next().timerId));
    case SignalExternalWorkflow(ns, wid, rid, signal, childOnly) =>
      BeginTwins(s, t, m.id, false, SignalExternal(h, ns, wid, rid, signal, m.payloads, m.header, childOnly));
    case CancelExternalWorkflow(ns, wid, rid) => BeginTwins(s, t, m.id, false, CancelExternal(h, ns, wid, rid));
  }

  lemma HandleTwins(s: State, t: State, m: Message)
    requires Twins(s, t) && m.IsCommand() && !Disputed(s, t, m)
    ensures TwinSteps(HandleMessage(s, m), HandleMessage(t, m))
  {
    if Delivery.IsOperation(m.command.value) {
      OperationTwins(s, t, m);
    } else {
      OtherTwins(s, t, m);
    }
  }

  lemma OtherTwins(s: State, t: State, m: Message)
    requires Twins(s, t) && m.IsCommand() && !Delivery.IsOperation(m.command.value) && !Disputed(s, t, m)
    ensures TwinSteps(HandleMessage(s, m), HandleMessage(t, m))
  {
    hide AlikeOut;
    hide AlikeInbox;
    hide Call;
    hide Listen;
    hide DoVersion;
    hide DoSideEffect;
    hide DoCancel;
    hide DoUpdateCompleted;
    hide DoUpdateValidated;
    hide DoComplete;
    hide DoContinueAsNew;
    hide Try;
    hide DoUpsertTyped;
    hide Attributes.Ends;
    match m.command.value
    case GetChildWorkflowExecution(child) => ListenTwins(s, t, child, m.id);
    case GetVersion(changeId, min, max) => VersionTwins(s, t, m, changeId, min, max);
    case SideEffect => SideEffectTwins(s, t, m);
    case UpdateCompleted(id) => UpdateCompletedTwins(s, t, m, id);
    case UpdateValidated(id) => UpdateTwins(s, t, m, id);
    case CompleteWorkflow => CompleteTwins(s, t, m, "", ContinueOptions("", 0, 0));
    case ContinueAsNew(name, next) => CompleteTwins(s, t, m, name, next);
    case UpsertSearchAttributes(untyped) => TryTwins(s, t, Upsert(untyped));
    case UpsertTypedSearchAttributes(attributes) => UpsertTwins(s, t, attributes);
    case UpsertMemo(memo) => TryTwins(s, t, UpsertMemos(memo));
    case Cancel(ids) => CancelTwins(s, t, m, ids);
    case _ =>
  }

  // ---- tasks ----

  lemma {:induction false} DrainCallbacksTwins(s: State, t: State, i: nat)
    requires Twins(s, t) && i <= |s.callbacks|
    ensures Twins(DrainCallbacks(s, i), DrainCallbacks(t, i))
    decreases |s.callbacks| - i
  {
    if i < |s.callbacks| {
      RunCallbackTwins(s, t, s.callbacks[i]);
      DrainCallbacksTwins(RunCallback(s, s.callbacks[i]), RunCallback(t, s.callbacks[i]), i + 1);
    }
  }

  lemma InvokeQueuedTwins(s: State, t: State, q: Request)
    requires Twins(s, t)
    ensures Twins(InvokeQueued(s, q), InvokeQueued(t, q))
  {
    CommandAlike(s.out, t.out, InvokeUpdate(s.env.info.runId, q.token.updateId, q.name, VALIDATE_EXECUTE), q.input, q.header);
  }

  lemma {:induction false} InvokeAllTwins(s: State, t: State, qs: seq<Request>)
    requires Twins(s, t)
    ensures Twins(InvokeAll(s, qs), InvokeAll(t, qs))
    decreases |qs|
  {
    if qs != [] {
      InvokeQueuedTwins(s, t, qs[0]);
      InvokeAllTwins(InvokeQueued(s, qs[0]), InvokeQueued(t, qs[0]), qs[1..]);
    }
  }

  lemma {:induction false} DrainNamesTwins(s: State, t: State, order: seq<string>)
    requires Twins(s, t)
    ensures Twins(DrainNames(s, order), DrainNames(t, order))
    decreases |order|
  {
    hide AlikeOut;
    hide AlikeInbox;
    hide InvokeAll;
    if order != [] {
      InvokeAllTwins(s.(env := s.env.Told(HandleQueuedUpdates(order[0])).(updates := Without(s.env.updates, order[0]))),
                     t.(env := t.env.Told(HandleQueuedUpdates(order[0])).(updates := Without(t.env.updates, order[0]))),
                     Named(s.env.updates, order[0]));
      DrainNamesTwins(DrainName(s, order[0]), DrainName(t, order[0]), order[1..]);
    }
  }

  // ---- the trace only grows ----

  predicate Parted<T(==)>(a: seq<T>, b: seq<T>) {
    exists i :: 0 <= i < |a| && i < |b| && a[i] != b[i]
  }

  lemma PartedGrows<T>(a: seq<T>, b: seq<T>, later: seq<T>, otherLater: seq<T>)
    requires Parted(a, b) && a <= later && b <= otherLater
    ensures Parted(later, otherLater)
  {
    var i :| 0 <= i < |a| && i < |b| && a[i] != b[i];
    assert later[i] != otherLater[i];
  }

  /** The calls to the environment and the panics of two runs are not the same. */
  predicate Diverged(s: State, t: State) {
    Parted(s.env.trace, t.env.trace) || Parted(s.log.panics, t.log.panics)
  }

  /** Calls and panics are only added to. */
  predicate Grows(s: State, r: State) {
    s.env.trace <= r.env.trace && s.log.panics <= r.log.panics
  }

  /** What was once different stays different. */
  lemma DivergedStays(s: State, t: State, r: State, q: State)
    requires Diverged(s, t) && Grows(s, r) && Grows(t, q)
    ensures Diverged(r, q)
  {
    if Parted(s.env.trace, t.env.trace) {
      PartedGrows(s.env.trace, t.env.trace, r.env.trace, q.env.trace);
    } else {
      PartedGrows(s.log.panics, t.log.panics, r.log.panics, q.log.panics);
    }
  }

  /** What handling leaves alone of the environment and the panics. */
  ghost predicate Steady(s: State, r: State) {
    && s.env.trace <= r.env.trace && Frames.Suffix(s.env.reactions, r.env.reactions)
    && r.env.replaying == s.env.replaying && r.log.panics == s.log.panics
  }

  lemma HandleSteady(s: State, m: Message)
    requires m.IsCommand()
    ensures Steady(s, HandleMessage(s, m).state)
  {
    hide HandleMessage;
    hide Steady;
    if Frames.IsAsking(m.command.value) {
      AskingSteady(s, m);
    } else if Frames.IsApart(m.command.value) {
      Frames.HandleApart(s, m);
      ApartSteady(s, HandleMessage(s, m).state);
    } else {
      SettlingSteady(s, m);
    }
  }

  lemma ApartSteady(s: State, r: State)
    requires Frames.Apart(s, r)
    ensures Steady(s, r)
  {
  }

  lemma AskingSteady(s: State, m: Message)
    requires m.IsCommand() && Frames.IsAsking(m.command.value)
    ensures Steady(s, HandleMessage(s, m).state)
  {
    hide HandleMessage;
    hide Frames.Asking;
    hide Frames.StoryOf;
    hide Frames.FailedEffects;
    hide Frames.CommandIds;
    Frames.AskingApart(s, m);
    Frames.AskingTalks(s, m);
  }

  lemma SettlingSteady(s: State, m: Message)
    requires m.IsCommand() && !Frames.IsApart(m.command.value) && !Frames.IsAsking(m.command.value)
    ensures Steady(s, HandleMessage(s, m).state)
  {
    hide Steady;
    hide DoUpdateCompleted;
    hide DoUpdateValidated;
    hide DoComplete;
    hide DoContinueAsNew;
    match m.command.value
    case UpdateCompleted(id) => UpdateSteady(s, m, id);
    case UpdateValidated(id) => UpdateSteady(s, m, id);
    case CompleteWorkflow => CompleteSteady(s, m, "", ContinueOptions("", 0, 0));
    case ContinueAsNew(name, next) => CompleteSteady(s, m, name, next);
  }

  lemma UpdateSteady(s: State, m: Message, id: string)
    ensures Steady(s, DoUpdateCompleted(s, m, id).state) && Steady(s, DoUpdateValidated(s, m, id).state)
  {
    hide Steady;
    ToldSteady(s, DoUpdateCompleted(s, m, id).state);
    ToldSteady(s, DoUpdateValidated(s, m, id).state);
  }

  lemma ToldSteady(s: State, r: State)
    requires s.env.trace <= r.env.trace && r.env == s.env.(trace := r.env.trace) && r.log.panics == s.log.panics
    ensures Steady(s, r)
  {
    assert s.env.reactions[0..] == s.env.reactions;
  }

  lemma CompleteSteady(s: State, m: Message, name: string, next: ContinueOptions)
    ensures Steady(s, DoComplete(s, m)) && Steady(s, DoContinueAsNew(s, m, name, next))
  {
    hide Steady;
    ToldSteady(s, DoComplete(s, m));
    ToldSteady(s, DoContinueAsNew(s, m, name, next));
  }

  lemma {:induction false} PipelineSteady(s: State)
    ensures Steady(s, RunPipeline(s).state)
    decreases s.inbox.Work()
  {
    hide HandleMessage;
    if s.inbox.pipeline != [] {
      var m := s.inbox.pipeline[0];
      var s1 := s.(inbox := s.inbox.Popped());
      if !m.IsCommand() {
        PipelineSteady(s1);
      } else if !m.IsUndefinedResponse() {
        HandleSteady(s1, m);
        if HandleMessage(s1, m).exit.Normal? {
          PipelineSteady(HandleMessage(s1, m).state);
        }
      }
    }
  }

  /** The names a task hands to the environment come first in what it tells it. */
  lemma {:induction false} DrainTrace(s: State, order: seq<string>)
    ensures var r := DrainNames(s, order).env.trace;
            && |r| == |s.env.trace| + |order| && s.env.trace <= r
            && (forall i :: 0 <= i < |order| ==> r[|s.env.trace| + i] == HandleQueuedUpdates(order[i]))
    decreases |order|
  {
    hide InvokeAll;
    hide Named;
    hide Without;
    if order != [] {
      var s1 := s.(env := s.env.Told(HandleQueuedUpdates(order[0])).(updates := Without(s.env.updates, order[0])));
      Pipeline.InvokeAllFrame(s1, Named(s.env.updates, order[0]));
      DrainTrace(DrainName(s, order[0]), order[1..]);
    }
  }

  lemma BeforeFlushTrace(s: State, order: seq<string>)
    ensures var r := BeforeFlush(s, order).env.trace;
            && |r| == |s.env.trace| + |order| && s.env.trace <= r
            && (forall i :: 0 <= i < |order| ==> r[|s.env.trace| + i] == HandleQueuedUpdates(order[i]))
  {
    hide DrainNames;
    hide DrainCallbacks;
    DrainTrace(DrainCallbacks(s.(inLoop := true), 0), order);
  }

  lemma TaskGrows(s: State, order: seq<string>)
    ensures BeforeFlush(s, order).env.trace <= RunTask(s, order).state.env.trace
    ensures RunTask(s, order).state.log.panics == s.log.panics
  {
    BeforeFlushLog(s, order);
    hide BeforeFlush;
    hide RunPipeline;
    var b := BeforeFlush(s, order);
    Pipeline.FlushEnv(b);
    PipelineSteady(Flush(b).state);
  }

  lemma BeforeFlushLog(s: State, order: seq<string>)
    ensures BeforeFlush(s, order).log == s.log
  {
    hide DrainNames;
    hide DrainCallbacks;
    var s0 := s.(inLoop := true);
    Pipeline.DrainCallbacksFrame(s0, 0);
    Pipeline.DrainNamesFrame(DrainCallbacks(s0, 0), order);
  }

  lemma NextGrows(s: State, e: Event)
    ensures Grows(s, Next(s, e))
  {
    hide DrainNames;
    hide RunTask;
    hide Fire;
    match e
    case Fires(f) => Frames.FireApart(s, f);
    case Closes(order) => Pipeline.DrainNamesFrame(s, order);
    case Task(order, reactions, replies, replaying) =>
      var s1 := s.(inbox := s.inbox.(replies := replies), env := s.env.(reactions := reactions, replaying := replaying));
      BeforeFlushTrace(s1, order);
      TaskGrows(s1, order);
    case _ =>
  }

  // ---- replayed and not ----

  lemma DifferentErrors()
    ensures BAD_TIME != NIL_DEREFERENCE
  {
    assert BAD_TIME[0] == 'f' && NIL_DEREFERENCE[0] == 'n';
  }

  /** How two handlers part: by what they call, or by how they fail. */
  ghost predicate StepsApart(a: Step, b: Step) {
    || (a.exit.Normal? && b.exit.Normal? && Parted(a.state.env.trace, b.state.env.trace))
    || (!a.exit.Normal? && !b.exit.Normal? && a.exit.error != b.exit.error)
  }

  /** A failed validation is where a run and its replay part, an upsert with two faults is where map orders do. */
  lemma HandleParts(s: State, t: State, m: Message)
    requires Twins(s, t) && m.IsCommand() && Disputed(s, t, m)
    ensures StepsApart(HandleMessage(s, m), HandleMessage(t, m))
  {
    hide AlikeOut;
    hide AlikeInbox;
    hide Attributes.Ends;
    hide Attributes.Updates;
    if Misread(s, t, m) {
      var attributes := m.command.value.attributes;
      Attributes.EndsAs(s.env.conversions, attributes, s.env.Next().visit);
      Attributes.EndsAs(s.env.conversions, attributes, t.env.Next().visit);
      DifferentErrors();
      hide Attributes.HasNull;
      hide Attributes.Unparsable;
    } else {
      var n := |s.env.trace|;
      assert HandleMessage(s, m).state.env.trace[n] != HandleMessage(t, m).state.env.trace[n];
    }
  }

  /** From corresponding states, of which one may be a replay and which may visit maps in different orders, a command leads
      to corresponding states if and only if it is neither the failed validation of a waiting request, with one of them a
      replay, nor an upsert whose two faults they come to in different orders. */
  lemma ReplayedAlike(s: State, t: State, m: Message)
    requires Twins(s, t) && m.IsCommand()
    ensures TwinSteps(HandleMessage(s, m), HandleMessage(t, m)) <==> !Disputed(s, t, m)
  {
    hide HandleMessage;
    if Disputed(s, t, m) {
      HandleParts(s, t, m);
    } else {
      HandleTwins(s, t, m);
    }
  }

  /** No disputed command is handled before the pipeline ends. */
  ghost predicate Undisputed(s: State, t: State)
    decreases s.inbox.Work()
  {
    s.inbox.pipeline == [] || t.inbox.pipeline == [] ||
    var m := s.inbox.pipeline[0];
    var s1, t1 := s.(inbox := s.inbox.Popped()), t.(inbox := t.inbox.Popped());
    if !m.IsCommand() then Undisputed(s1, t1)
    else
      m.IsUndefinedResponse() ||
      (!Disputed(s1, t1, m) && (HandleMessage(s1, m).exit.Normal? ==> Undisputed(HandleMessage(s1, m).state, HandleMessage(t1, m).state)))
  }

  /** Both are replays or neither is, and they visit maps in the same order. */
  predicate Agreeing(s: State, t: State) {
    s.env.replaying == t.env.replaying && s.env.reactions == t.env.reactions
  }

  /** Then nothing is disputed, and they go on to agree. */
  lemma AgreeingHandle(s: State, t: State, m: Message)
    requires Twins(s, t) && m.IsCommand() && Agreeing(s, t)
    ensures !Disputed(s, t, m)
    ensures Agreeing(HandleMessage(s, m).state, HandleMessage(t, m).state)
  {
    hide HandleMessage;
    hide Attributes.Ends;
    hide Overrules;
    hide AlikeOut;
    hide AlikeInbox;
    HandleTwins(s, t, m);
    HandleSteady(s, m);
    HandleSteady(t, m);
  }

  lemma PoppedAlike(i: Inbox, j: Inbox)
    requires AlikeInbox(i, j) && i.pipeline != []
    ensures j.pipeline != [] && AlikeReply(i.pipeline[0], j.pipeline[0]) && AlikeInbox(i.Popped(), j.Popped())
  {
    hide AlikeExchange;
  }

  lemma ClearedAlike(s: State, t: State)
    requires Twins(s, t)
    ensures Twins(s.(inbox := s.inbox.Cleared()), t.(inbox := t.inbox.Cleared()))
  {
    hide AlikeOut;
  }

  /** Equal replies are taken in as they are. */
  lemma HandleInbox(s: State, t: State, m: Message)
    requires Twins(s, t) && s.inbox == t.inbox && m.IsCommand()
    ensures HandleMessage(s, m).state.inbox == HandleMessage(t, m).state.inbox
  {
    if Frames.IsAsking(m.command.value) {
      AskingInbox(s, m);
      AskingInbox(t, m);
      hide HandleMessage;
      hide Answered;
      hide AlikeOut;
      hide AlikeInbox;
    } else if Frames.IsApart(m.command.value) {
      Frames.HandleApart(s, m);
      Frames.HandleApart(t, m);
      hide HandleMessage;
    } else {
      hide Call;
      hide CancelIds;
      hide AlikeOut;
      hide AlikeInbox;
    }
  }

  /** What an asking command takes in depends on the worker's next answer alone. */
  lemma AskingInbox(s: State, m: Message)
    requires m.IsCommand() && Frames.IsAsking(m.command.value)
    ensures var i := Answered(s.inbox.Next());
            HandleMessage(s, m).state.inbox ==
            if !m.command.value.Cancel? && s.env.Next().value.Failed? then s.inbox
            else if i.error.Some? then s.inbox.Consumed() else s.inbox.Consumed().Got(i.messages)
  {
    hide Answered;
    hide Call;
    hide CancelIds;
  }

  /** One message of the loop, from corresponding states. */
  lemma StepTwins(s: State, t: State)
    requires Twins(s, t) && s.inbox.pipeline != []
    ensures t.inbox.pipeline != [] && AlikeReply(s.inbox.pipeline[0], t.inbox.pipeline[0])
    ensures Twins(s.(inbox := s.inbox.Popped()), t.(inbox := t.inbox.Popped()))
  {
    hide AlikeOut;
    hide AlikeInbox;
    PoppedAlike(s.inbox, t.inbox);
  }

  lemma {:induction false} PipelineTwins(s: State, t: State)
    requires Twins(s, t) && (Agreeing(s, t) || Undisputed(s, t))
    ensures TwinSteps(RunPipeline(s), RunPipeline(t))
    ensures s.inbox == t.inbox ==> RunPipeline(s).state.inbox == RunPipeline(t).state.inbox
    ensures Agreeing(s, t) ==> Agreeing(RunPipeline(s).state, RunPipeline(t).state)
    decreases s.inbox.Work()
  {
    hide Twins;
    hide HandleMessage;
    hide Disputed;
    hide Agreeing;
    TwinsPipeline(s, t);
    if s.inbox.pipeline != [] {
      StepTwins(s, t);
      var m := s.inbox.pipeline[0];
      var s1 := s.(inbox := s.inbox.Popped());
      var t1 := t.(inbox := t.inbox.Popped());
      StillAgreeing(s, t, s1, t1);
      if !m.IsCommand() {
        PipelineTwins(s1, t1);
      } else if m.IsUndefinedResponse() {
        ClearedAlike(s1, t1);
        StillAgreeing(s, t, s1.(inbox := s1.inbox.Cleared()), t1.(inbox := t1.inbox.Cleared()));
      } else {
        if Agreeing(s1, t1) { AgreeingHandle(s1, t1, m); }
        HandleTwins(s1, t1, m);
        var r, q := HandleMessage(s1, m), HandleMessage(t1, m);
        if s.inbox == t.inbox { HandleInbox(s1, t1, m); }
        ClearedAlike(r.state, q.state);
        StillAgreeing(r.state, q.state, r.state.(inbox := r.state.inbox.Cleared()), q.state.(inbox := q.state.inbox.Cleared()));
        if r.exit.Normal? {
          PipelineTwins(r.state, q.state);
        }
      }
    }
  }

  lemma StillAgreeing(s: State, t: State, r: State, q: State)
    requires r.env == s.env && q.env == t.env
    ensures Agreeing(s, t) <==> Agreeing(r, q)
  {
  }

  lemma TwinsPipeline(s: State, t: State)
    requires Twins(s, t)
    ensures s.inbox.pipeline == [] <==> t.inbox.pipeline == []
  {
  }

  /** The loop ends differently. */
  ghost predicate EndsApart(a: Step, b: Step) {
    || Parted(a.state.env.trace, b.state.env.trace)
    || (a.exit.Panicking? && b.exit.Panicking? && a.exit.error != b.exit.error)
  }

  /** A disputed loop parts two runs. */
  lemma {:induction false} PipelineParts(s: State, t: State)
    requires Twins(s, t) && !Undisputed(s, t)
    ensures EndsApart(RunPipeline(s), RunPipeline(t))
    decreases s.inbox.Work()
  {
    hide Twins;
    hide HandleMessage;
    hide Disputed;
    hide Parted;
    StepTwins(s, t);
    var m := s.inbox.pipeline[0];
    var s1 := s.(inbox := s.inbox.Popped());
    var t1 := t.(inbox := t.inbox.Popped());
    if !m.IsCommand() {
      PipelineParts(s1, t1);
    } else {
      var r, q := HandleMessage(s1, m), HandleMessage(t1, m);
      if Disputed(s1, t1, m) {
        HandleParts(s1, t1, m);
        if r.exit.Normal? {
          PipelineSteady(r.state);
          PipelineSteady(q.state);
          PartedGrows(r.state.env.trace, q.state.env.trace, RunPipeline(s).state.env.trace, RunPipeline(t).state.env.trace);
        }
      } else {
        HandleTwins(s1, t1, m);
        PipelineParts(r.state, q.state);
      }
    }
  }

  lemma BeforeFlushTwins(s: State, t: State, order: seq<string>)
    requires Twins(s, t)
    ensures Twins(BeforeFlush(s, order), BeforeFlush(t, order))
  {
    hide AlikeOut;
    hide AlikeInbox;
    hide DrainCallbacks;
    hide DrainNames;
    var s0 := s.(inLoop := true);
    var t0 := t.(inLoop := true);
    DrainCallbacksTwins(s0, t0, 0);
    DrainNamesTwins(DrainCallbacks(s0, 0), DrainCallbacks(t0, 0), order);
  }

  lemma DrainFrame(s: State, order: seq<string>)
    ensures var b := BeforeFlush(s, order);
            b.env.replaying == s.env.replaying && b.env.reactions == s.env.reactions && b.inbox == s.inbox
  {
    DrainReplaying(DrainCallbacks(s.(inLoop := true), 0), order);
    Pipeline.DrainNamesFrame(DrainCallbacks(s.(inLoop := true), 0), order);
  }

  lemma {:induction false} DrainReplaying(s: State, order: seq<string>)
    ensures DrainNames(s, order).env.replaying == s.env.replaying && DrainNames(s, order).env.reactions == s.env.reactions
    decreases |order|
  {
    if order != [] {
      var s1 := s.(env := s.env.Told(HandleQueuedUpdates(order[0])).(updates := Without(s.env.updates, order[0])));
      Pipeline.InvokeAllFrame(s1, Named(s.env.updates, order[0]));
      DrainReplaying(DrainName(s, order[0]), order[1..]);
    }
  }

  function Given(s: State, reactions: seq<Reaction>, replies: seq<Exchange>, replaying: bool): State {
    s.(inbox := s.inbox.(replies := replies), env := s.env.(reactions := reactions, replaying := replaying))
  }

  /** What an environment and a worker answer in one task, and whether it is a replay. */
  datatype Answers = Answers(reactions: seq<Reaction>, replies: seq<Exchange>, replaying: bool)

  predicate AlikeAnswers(a: Answers, b: Answers) {
    AlikeReactions(a.reactions, b.reactions) && AlikeExchanges(a.replies, b.replies)
  }

  function GivenAll(s: State, a: Answers): State {
    Given(s, a.reactions, a.replies, a.replaying)
  }

  function TaskOf(s: State, order: seq<string>, a: Answers): State {
    DoTask(s, order, a.reactions, a.replies, a.replaying)
  }

  /** No disputed command is handled in this task. */
  ghost predicate TaskUndisputed(s: State, t: State, order: seq<string>, a: Answers, b: Answers) {
    var f, g := Flush(BeforeFlush(GivenAll(s, a), order)), Flush(BeforeFlush(GivenAll(t, b), order));
    f.exit.Normal? ==> Undisputed(f.state, g.state)
  }

  lemma GivenTwins(s: State, t: State, a: Answers, b: Answers)
    requires Twins(s, t) && AlikeAnswers(a, b)
    ensures Twins(GivenAll(s, a), GivenAll(t, b))
  {
    hide AlikeOut;
    hide AlikeExchanges;
  }

  /** Up to the end of the first flush two tasks correspond, replayed or not. */
  lemma FirstFlushTwins(s: State, t: State, order: seq<string>)
    requires Twins(s, t)
    ensures var f, g := Flush(BeforeFlush(s, order)), Flush(BeforeFlush(t, order));
            && TwinSteps(f, g) && (Agreeing(s, t) ==> Agreeing(f.state, g.state))
            && (s.inbox == t.inbox ==> f.state.inbox == g.state.inbox)
  {
    hide BeforeFlush;
    hide AlikeOut;
    hide AlikeInbox;
    hide Answered;
    BeforeFlushTwins(s, t, order);
    FlushTwins(BeforeFlush(s, order), BeforeFlush(t, order));
    DrainFrame(s, order);
    DrainFrame(t, order);
    Pipeline.FlushEnv(BeforeFlush(s, order));
    Pipeline.FlushEnv(BeforeFlush(t, order));
    QueueEmpty(BeforeFlush(s, order), BeforeFlush(t, order));
  }

  lemma QueueEmpty(s: State, t: State)
    requires Twins(s, t)
    ensures s.out.queue == [] <==> t.out.queue == []
  {
  }

  /** The pipeline loop after a flush, and the end of a task after the loop. */
  function Looped(f: Step): Step {
    if f.exit.Erred? then f.(exit := Panicking(f.exit.error, false)) else RunPipeline(f.state)
  }

  function Ended(r: Step): State {
    var s := r.state.(inLoop := false);
    if r.exit.Normal? then s else Failing(s, r.exit.error)
  }

  lemma TaskIs(s: State, order: seq<string>, a: Answers)
    ensures TaskOf(s, order, a) == Ended(Looped(Flush(BeforeFlush(GivenAll(s, a), order))))
  {
    hide BeforeFlush;
    hide Flush;
    hide RunPipeline;
  }

  lemma EndedTwins(a: Step, b: Step)
    requires TwinSteps(a, b)
    ensures Twins(Ended(a), Ended(b))
  {
    hide AlikeOut;
    hide AlikeInbox;
    hide AlikeReactions;
  }

  lemma TaskTwins(s: State, t: State, order: seq<string>, a: Answers, b: Answers)
    requires Twins(s, t) && AlikeAnswers(a, b)
    requires (a.replaying == b.replaying && a.reactions == b.reactions) || TaskUndisputed(s, t, order, a, b)
    ensures Twins(TaskOf(s, order, a), TaskOf(t, order, b))
    ensures s.inbox == t.inbox && a.replies == b.replies ==> TaskOf(s, order, a).inbox == TaskOf(t, order, b).inbox
  {
    hide Twins;
    hide AlikeAnswers;
    hide BeforeFlush;
    hide Flush;
    hide RunPipeline;
    hide Undisputed;
    hide TaskOf;
    var s1, t1 := GivenAll(s, a), GivenAll(t, b);
    GivenTwins(s, t, a, b);
    FirstFlushTwins(s1, t1, order);
    TaskIs(s, order, a);
    TaskIs(t, order, b);
    var f, g := Flush(BeforeFlush(s1, order)), Flush(BeforeFlush(t1, order));
    if f.exit.Normal? {
      PipelineTwins(f.state, g.state);
    }
    EndedTwins(Looped(f), Looped(g));
  }

  lemma TaskParts(s: State, t: State, order: seq<string>, a: Answers, b: Answers)
    requires Twins(s, t) && AlikeAnswers(a, b) && !TaskUndisputed(s, t, order, a, b)
    ensures Diverged(TaskOf(s, order, a), TaskOf(t, order, b))
  {
    hide Twins;
    hide BeforeFlush;
    hide Flush;
    hide RunPipeline;
    hide Undisputed;
    hide AlikeAnswers;
    hide Parted;
    var s1, t1 := GivenAll(s, a), GivenAll(t, b);
    GivenTwins(s, t, a, b);
    FirstFlushTwins(s1, t1, order);
    SamePanics(s, t);
    var f, g := Flush(BeforeFlush(s1, order)), Flush(BeforeFlush(t1, order));
    PipelineParts(f.state, g.state);
    var r, q := RunPipeline(f.state), RunPipeline(g.state);
    if !Parted(r.state.env.trace, q.state.env.trace) {
      TaskGrows(s1, order);
      TaskGrows(t1, order);
      PartedLast(s.log.panics, r.exit.error, q.exit.error);
    }
  }

  lemma SamePanics(s: State, t: State)
    requires Twins(s, t)
    ensures s.log.panics == t.log.panics
  {
  }

  lemma PartedLast(panics: seq<Error>, e: Error, f: Error)
    requires e != f
    ensures Parted(panics + [e], panics + [f])
  {
    assert (panics + [e])[|panics|] != (panics + [f])[|panics|];
  }

  lemma CloseTwins(s: State, t: State, order: seq<string>)
    requires Twins(s, t)
    ensures Twins(DoClose(s, order), DoClose(t, order)) && (s.inbox == t.inbox ==> DoClose(s, order).inbox == DoClose(t, order).inbox)
  {
    Pipeline.DrainNamesFrame(s, order);
    Pipeline.DrainNamesFrame(t, order);
    DrainNamesTwins(s, t, order);
    hide DrainNames;
    SentAlike(DrainNames(s, order).out, DrainNames(t, order).out);
  }

  // ---- events ----

  /** Queries and stack traces. */
  predicate Silent(e: Event) {
    e.Queried? || e.StackTraced?
  }

  lemma SilentTwins(s: State, t: State, e: Event)
    requires Twins(s, t) && Silent(e)
    ensures Twins(Next(s, e), t) && Twins(s, Next(t, e)) && Next(s, e).inbox == s.inbox && Next(t, e).inbox == t.inbox
  {
    hide AlikeOut;
    hide AlikeInbox;
    match e
    case Queried(name, args, header) => AskedAlike(s.out, t.out, InvokeQuery(s.env.info.runId, name), args, header);
    case StackTraced => AskedAlike(s.out, t.out, GetStackTrace(s.env.info.runId), NoPayloads, s.header);
  }

  /** Queueing one command on top of twins. */
  lemma QueueTwins(s: State, t: State, c: Command, payloads: Payloads, header: Option<Header>)
    requires Twins(s, t)
    ensures Twins(s.(out := s.out.Command(c, payloads, header)), t.(out := t.out.Command(c, payloads, header)))
  {
    hide AlikeInbox;
    CommandAlike(s.out, t.out, c, payloads, header);
  }

  lemma NextTwins(s: State, t: State, e: Event)
    requires Twins(s, t) && !Silent(e) && !e.Task?
    ensures Twins(Next(s, e), Next(t, e)) && (s.inbox == t.inbox ==> Next(s, e).inbox == Next(t, e).inbox)
  {
    hide AlikeOut;
    hide AlikeInbox;
    hide Fire;
    hide DoClose;
    match e
    case Fires(f) =>
      FireTwins(s, t, f);
      Frames.FireApart(s, f);
      Frames.FireApart(t, f);
    case Signalled(name, input, header) => QueueTwins(s, t, InvokeSignal(s.env.info.runId, name), input, header);
    case CancelRequested => QueueTwins(s, t, CancelWorkflow(s.env.info.runId), NoPayloads, s.header);
    case UpdateRequested(name, id, input, header) =>
    case Closes(order) => CloseTwins(s, t, order);
  }
}
