/** What the calls and handlers of a command leave alone: the ground the per-property modules stand on. */
module Frames {
  import opened Protocol
  import opened Engine
  import Attributes

  /** What an update request was told. */
  datatype Verdict = Accepted | Rejected | Completed

  function VerdictOn(c: EnvCall, t: Token): Option<Verdict> {
    match c
    case Accept(u) => if u == t then Some(Accepted) else None
    case Reject(u, _) => if u == t then Some(Rejected) else None
    case CompleteUpdate(u, _) => if u == t then Some(Completed) else None
    case _ => None
  }

  /** The lawful successions of verdicts, and everything else. */
  datatype Story = Silent | Accepting | Rejecting | Completing
    | AcceptedThenCompleted | CompletedThenAccepted | CompletedThenRejected | Unlawful

  function Hear(story: Story, v: Option<Verdict>): Story {
    match (story, v)
    case (_, None) => story
    case (Silent, Some(Accepted)) => Accepting
    case (Silent, Some(Rejected)) => Rejecting
    case (Silent, Some(Completed)) => Completing
    case (Accepting, Some(Completed)) => AcceptedThenCompleted
    case (Completing, Some(Accepted)) => CompletedThenAccepted
    case (Completing, Some(Rejected)) => CompletedThenRejected
    case _ => Unlawful
  }

  /** What one update request was told over a trace. */
  function StoryOf(trace: seq<EnvCall>, t: Token): Story {
    if trace == [] then Silent else Hear(StoryOf(trace[..|trace| - 1], t), VerdictOn(trace[|trace| - 1], t))
  }

  function IsFailedEffect(c: EnvCall): nat {
    if c.RecordSideEffect? && c.outcome.Failed? then 1 else 0
  }

  /** Side effects whose callback got an error. */
  function FailedEffects(trace: seq<EnvCall>): nat {
    if trace == [] then 0 else FailedEffects(trace[..|trace| - 1]) + IsFailedEffect(trace[|trace| - 1])
  }

  /** The ids of the engine's own commands, in the order they were pushed. */
  function CommandIds(ps: seq<Push>): seq<Id> {
    if ps == [] then []
    else
      var p := ps[|ps| - 1];
      CommandIds(ps[..|ps| - 1]) + (if p.Own? && p.msg.IsCommand() then [p.msg.id] else [])
  }

  /** The operations whose cancel function ran, in order. */
  function CancelMarks(ledger: seq<Mark>): seq<Handle> {
    if ledger == [] then []
    else
      var m := ledger[|ledger| - 1];
      CancelMarks(ledger[..|ledger| - 1]) + (if m.Cancelled? then [m.handle] else [])
  }

  lemma MarksSnoc(ledger: seq<Mark>, m: Mark)
    ensures CancelMarks(ledger + [m]) == CancelMarks(ledger) + (if m.Cancelled? then [m.handle] else [])
  {
    assert (ledger + [m])[..|ledger|] == ledger;
  }

  lemma TraceSnoc(trace: seq<EnvCall>, c: EnvCall, t: Token)
    ensures StoryOf(trace + [c], t) == Hear(StoryOf(trace, t), VerdictOn(c, t))
    ensures FailedEffects(trace + [c]) == FailedEffects(trace) + IsFailedEffect(c)
  {
    assert (trace + [c])[..|trace|] == trace;
  }

  lemma IdsSnoc(ps: seq<Push>, p: Push)
    ensures CommandIds(ps + [p]) == CommandIds(ps) + (if p.Own? && p.msg.IsCommand() then [p.msg.id] else [])
  {
    assert (ps + [p])[..|ps|] == ps;
  }

  predicate IsVerdict(c: EnvCall) {
    c.Accept? || c.Reject? || c.CompleteUpdate?
  }

  predicate IsQuiet(c: EnvCall) {
    !IsVerdict(c) && IsFailedEffect(c) == 0
  }

  /** Nothing but responses and errors was added. */
  predicate OnlyAnswers(queue: seq<Message>, later: seq<Message>) {
    queue <= later && forall i :: |queue| <= i < |later| ==> later[i].command.None?
  }

  /** What is left of the environment's answers. */
  predicate Suffix(reactions: seq<Reaction>, later: seq<Reaction>) {
    |later| <= |reactions| && later == reactions[|reactions| - |later|..]
  }

  /** Only answers are queued, no verdict is passed, nothing is exchanged or drawn. */
  ghost predicate Apart(s: State, r: State) {
    && r.inbox == s.inbox && r.updates == s.updates && r.inLoop == s.inLoop && r.header == s.header && r.status == s.status
    && r.env.info == s.env.info && r.env.conversions == s.env.conversions && r.env.replaying == s.env.replaying
    && r.env.updates == s.env.updates && r.env.tokens == s.env.tokens
    && s.env.trace <= r.env.trace && Suffix(s.env.reactions, r.env.reactions)
    && (forall t :: StoryOf(r.env.trace, t) == StoryOf(s.env.trace, t))
    && FailedEffects(r.env.trace) == FailedEffects(s.env.trace)
    && r.out == s.out.(queue := r.out.queue, pushed := r.out.pushed) && OnlyAnswers(s.out.queue, r.out.queue)
    && CommandIds(r.out.pushed) == CommandIds(s.out.pushed)
    && r.log.hasty == s.log.hasty && r.log.panics == s.log.panics
  }

  lemma DeliverApart(s: State, a: Answer)
    ensures Apart(s, Deliver(s, a))
  {
    IdsSnoc(s.out.pushed, Reply(a));
  }

  /** A delivered answer leaves these alone too. */
  ghost predicate Handed(s: State, r: State) {
    && Apart(s, r)
    && r.env.trace == s.env.trace && r.childSeq == s.childSeq && r.env.started == s.env.started
    && CancelMarks(r.log.ledger) == CancelMarks(s.log.ledger)
  }

  lemma ResultApart(s: State, h: Handle, o: Outcome)
    ensures Handed(s, Fire(s, Result(h, o)))
  {
    hide StoryOf;
    hide CommandIds;
    hide FailedEffects;
    hide CancelMarks;
    hide OnlyAnswers;
    StayApart(s);
    var s1 := s.(env := s.env.(pending := s.env.pending - {h}), log := s.log.(ledger := s.log.ledger + [Fired(h)]));
    MarksSnoc(s.log.ledger, Fired(h));
    DeliverApart(s1, Answer(Handler(h), h.id, o));
  }

  lemma FireApart(s: State, f: Firing)
    ensures Handed(s, Fire(s, f))
  {
    match f
    case Result(h, o) => ResultApart(s, h, o);
    case Started(h, o) =>
      var s1 := EntryStored(s.(env := s.env.(starting := s.env.starting - {h})), h.id, o);
      if h.id in s.children.listeners {
        DeliverApart(s1, Answer(Listener(h.id), s.children.listeners[h.id], o));
      }
  }

  lemma {:induction false} FireAllApart(s: State, fs: seq<Firing>)
    ensures Handed(s, FireAll(s, fs))
    decreases |fs|
  {
    if fs != [] {
      FireApart(s, fs[0]);
      FireAllApart(Fire(s, fs[0]), fs[1..]);
    }
  }

  /** A call leaves everything alone but the trace. */
  lemma CallApart(s: State, call: EnvCall)
    ensures var r := Call(s, call);
            && r.env.trace == s.env.trace + [call]
            && r.childSeq == s.childSeq && r.env.started == s.env.started && CancelMarks(r.log.ledger) == CancelMarks(s.log.ledger)
            && Apart(s.(env := s.env.Called(call)), r)
            && (IsQuiet(call) ==> Apart(s, r))
  {
    hide StoryOf;
    hide FailedEffects;
    hide CommandIds;
    hide CancelMarks;
    hide FireAll;
    hide OnlyAnswers;
    FireAllApart(s.(env := s.env.Called(call)), s.env.Next().fired);
    forall t {
      TraceSnoc(s.env.trace, call, t);
    }
    TraceSnoc(s.env.trace, call, Token(0, ""));
  }

  lemma MarkedApart(s: State, s1: State, r: State)
    requires s1 == s.(canceller := s1.canceller, log := s.log.(ledger := s1.log.ledger))
    requires Apart(s1, r) && r.childSeq == s1.childSeq
    ensures Apart(s, r) && r.childSeq == s.childSeq
  {
  }

  lemma CancelOneApart(s: State, id: Id)
    ensures Apart(s, CancelOne(s, id)) && CancelOne(s, id).childSeq == s.childSeq
  {
    hide Apart;
    hide Call;
    hide StoryOf;
    hide FailedEffects;
    hide CancelMarks;
    StayApart(s);
    if id in s.canceller {
      var c := s.canceller[id];
      var s1 := s.(canceller := s.canceller - {id}, log := s.log.(ledger := s.log.ledger + [Cancelled(c.handle)]));
      StayApart(s1);
      match c {
        case CancelActivity(h) => CallApart(s1, RequestCancelActivity(h));
        case CancelLocalActivity(h) => CallApart(s1, RequestCancelLocalActivity(h));
        case CancelChild(h, namespace, workflowId) => CallApart(s1, RequestCancelChild(h, namespace, workflowId));
        case CancelTimer(h, timerId) => CallApart(s1, RequestCancelTimer(h));
      }
      MarkedApart(s, s1, CancelOne(s, id));
    }
  }

  lemma {:induction false} CancelIdsApart(s: State, ids: seq<Id>)
    ensures Apart(s, CancelIds(s, ids)) && CancelIds(s, ids).childSeq == s.childSeq
    decreases |ids|
  {
    if ids != [] {
      CancelOneApart(s, ids[0]);
      CancelIdsApart(CancelOne(s, ids[0]), ids[1..]);
    }
  }

  lemma BeginApart(s: State, id: Id, child: bool, call: EnvCall)
    requires IsQuiet(call)
    ensures var r := Call(Begin(s, id, child), call);
            Apart(s, r) && r.childSeq == s.childSeq
  {
    CallApart(Begin(s, id, child), call);
  }

  lemma StartApart(s: State, id: Id, child: bool, call: EnvCall, c: Cancellable)
    requires IsQuiet(call)
    ensures var r := Register(Call(Begin(s, id, child), call), id, c);
            Apart(s, r) && r.childSeq == s.childSeq
  {
    BeginApart(s, id, child, call);
  }

  /** The commands that exchange nothing and settle no update. */
  predicate IsApart(c: Command) {
    !c.GetVersion? && !c.SideEffect? && !c.Cancel? && !c.UpdateCompleted? && !c.UpdateValidated? && !c.CompleteWorkflow? && !c.ContinueAsNew?
  }

  lemma ChildApart(s: State, m: Message, name: string, o: ChildOptions)
    ensures Apart(s, DoChild(s, m, name, o))
  {
    var s1 := if o.workflowId == "" then NameChild(s) else s;
    var id := if o.workflowId == "" then ChildId(s.env.info.runId, s1.childSeq) else o.workflowId;
    var params := o.(taskQueue := DefaultQueue(s, o.taskQueue), workflowId := id);
    var h := NextHandle(s1, m.id);
    StartApart(s1, m.id, true, StartChild(h, name, params, m.payloads, m.header), CancelChild(h, o.namespace, id));
  }

  lemma ListenApart(s: State, child: Id, id: Id)
    ensures Apart(s, Listen(s, child, id))
  {
    var s1 := ListenerStored(s, child, id);
    if child in s.children.entries {
      DeliverApart(s1, Answer(Listener(child), id, s.children.entries[child]));
    }
  }

  lemma StayApart(s: State)
    ensures Apart(s, s)
  {
  }

  lemma HandleApart(s: State, m: Message)
    requires m.IsCommand() && IsApart(m.command.value)
    ensures Apart(s, HandleMessage(s, m).state)
  {
    hide Apart;
    hide StoryOf;
    hide FailedEffects;
    hide CancelMarks;
    hide Call;
    hide Begin;
    hide Register;
    hide Listen;
    hide DoChild;
    hide Signed;
    hide Attributes.Updates;
    var h := NextHandle(s, m.id);
    StayApart(s);
    match m.command.value
    case ExecuteActivity(name, o) =>
      StartApart(s, m.id, false, StartActivity(h, name, o.(taskQueue := DefaultQueue(s, o.taskQueue)), m.payloads, m.header), CancelActivity(h));
    case ExecuteLocalActivity(name, o) =>
      var params := LocalOptions(DefaultTimeout(o.scheduleToClose), DefaultTimeout(o.startToClose), o.rest);
      StartApart(s, m.id, false, StartLocalActivity(h, name, params, m.payloads, m.header), CancelLocalActivity(h));
    case ExecuteChildWorkflow(name, o) => ChildApart(s, m, name, o);
    case NewTimer(ms, summary) =>
      StartApart(s, m.id, false, StartTimer(h, Signed(ms * 1_000_000), summary), CancelTimer(h, s.env.Next().timerId));
    case SignalExternalWorkflow(ns, wid, rid, signal, childOnly) =>
      BeginApart(s, m.id, false, SignalExternal(h, ns, wid, rid, signal, m.payloads, m.header, childOnly));
    case CancelExternalWorkflow(ns, wid, rid) => BeginApart(s, m.id, false, CancelExternal(h, ns, wid, rid));
    case GetChildWorkflowExecution(child) => ListenApart(s, child, m.id);
    case UpsertSearchAttributes(untyped) => CallApart(s, Upsert(untyped));
    case UpsertTypedSearchAttributes(attributes) => CallApart(s, UpsertTyped(Attributes.Updates(s.env.conversions, attributes)));
    case UpsertMemo(memo) => CallApart(s, UpsertMemos(memo));
    case _ =>
  }

  /** Telling the environment something, after a response. */
  lemma TellApart(s: State, m: Message, call: EnvCall)
    requires IsQuiet(call)
    ensures var s1 := Respond(s, m.id, COMPLETED);
            Apart(s, s1.(env := s1.env.Told(call)))
  {
    IdsSnoc(s.out.pushed, Own(Response(m.id, COMPLETED)));
    forall t {
      TraceSnoc(s.env.trace, call, t);
    }
    TraceSnoc(s.env.trace, call, Token(0, ""));
  }

  /** The state from which an asking command flushes, if it does. */
  function Asking(s: State, m: Message): State
    requires m.IsCommand()
  {
    match m.command.value
    case GetVersion(changeId, min, max) => Call(s, AskVersion(changeId, min, max))
    case SideEffect =>
      var s1 := Call(s, RecordSideEffect(m.payloads, s.env.Next().value));
      s1.(canceller := s1.canceller - {m.id})
    case Cancel(ids) => CancelIds(s, ids)
    case _ => s
  }

  lemma VersionTalks(s: State, m: Message, changeId: string, min: int, max: int)
    ensures var r, a := DoVersion(s, m, changeId, min, max).state, Call(s, AskVersion(changeId, min, max));
            r == a.(out := r.out, inbox := r.inbox) && r.inbox.handled == a.inbox.handled
  {
    hide Call;
    hide Answered;
  }

  lemma EffectTalks(s: State, m: Message)
    requires m.command == Some(SideEffect)
    ensures var r, a := DoSideEffect(s, m).state, Asking(s, m);
            r == a.(out := r.out, inbox := r.inbox) && r.inbox.handled == a.inbox.handled
  {
    hide Call;
    hide Answered;
  }

  lemma CancelTalks(s: State, m: Message, ids: seq<Id>)
    ensures var r, a := DoCancel(s, m, ids).state, CancelIds(s, ids);
            r == a.(out := r.out, inbox := r.inbox) && r.inbox.handled == a.inbox.handled
  {
    hide CancelIds;
    hide Answered;
  }

  /** After its calls an asking command only talks to the worker. */
  lemma AskingTalks(s: State, m: Message)
    requires m.IsCommand() && IsAsking(m.command.value)
    ensures var r, a := HandleMessage(s, m).state, Asking(s, m);
            r == a.(out := r.out, inbox := r.inbox) && r.inbox.handled == a.inbox.handled
  {
    hide Call;
    hide CancelIds;
    hide DoVersion;
    hide DoSideEffect;
    hide DoCancel;
    match m.command.value
    case GetVersion(changeId, min, max) => VersionTalks(s, m, changeId, min, max);
    case SideEffect => EffectTalks(s, m);
    case Cancel(ids) => CancelTalks(s, m, ids);
  }

  predicate IsAsking(c: Command) {
    c.GetVersion? || c.SideEffect? || c.Cancel?
  }

  predicate EffectFails(s: State, m: Message) {
    m.command.Some? && m.command.value.SideEffect? && s.env.Next().value.Failed?
  }

  /** Up to the flush, an asking command is apart but for the failed side effect it may record. */
  ghost predicate ApartBut(s: State, r: State, failed: nat) {
    && Apart(s.(env := s.env.(trace := r.env.trace)), r)
    && s.env.trace <= r.env.trace
    && (forall t :: StoryOf(r.env.trace, t) == StoryOf(s.env.trace, t))
    && FailedEffects(r.env.trace) == FailedEffects(s.env.trace) + failed
    && r.childSeq == s.childSeq
  }

  lemma EffectApart(s: State, m: Message)
    requires m.command == Some(SideEffect)
    ensures ApartBut(s, Asking(s, m), if EffectFails(s, m) then 1 else 0)
  {
    hide StoryOf;
    hide FailedEffects;
    hide CommandIds;
    hide Call;
    var call := RecordSideEffect(m.payloads, s.env.Next().value);
    CallApart(s, call);
    forall t {
      TraceSnoc(s.env.trace, call, t);
    }
    TraceSnoc(s.env.trace, call, Token(0, ""));
  }

  lemma ApartIsBut(s: State, r: State)
    requires Apart(s, r) && r.childSeq == s.childSeq
    ensures ApartBut(s, r, 0)
  {
    hide StoryOf;
    hide FailedEffects;
    hide CommandIds;
  }

  lemma AskingApart(s: State, m: Message)
    requires m.IsCommand() && IsAsking(m.command.value)
    ensures ApartBut(s, Asking(s, m), if EffectFails(s, m) then 1 else 0)
  {
    hide Apart;
    hide ApartBut;
    hide Call;
    hide CancelIds;
    match m.command.value
    case GetVersion(changeId, min, max) =>
      CallApart(s, AskVersion(changeId, min, max));
      ApartIsBut(s, Asking(s, m));
    case SideEffect => EffectApart(s, m);
    case Cancel(ids) =>
      CancelIdsApart(s, ids);
      ApartIsBut(s, Asking(s, m));
  }
}
