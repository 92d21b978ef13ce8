/** Where answers come from: every handler call is one the environment makes, and what children's listeners hear is what
    the child-id registry makes of it. */
module Provenance {
  import opened Protocol
  import opened Engine
  import Attributes
  import Delivery
  import Frames
  import Pipeline
  import Registry

  // ---- what the environment calls ----

  predicate Among(reactions: seq<Reaction>, f: Firing) {
    exists i :: 0 <= i < |reactions| && f in reactions[i].fired
  }

  /** The environment calls a handler by itself, or inside a call of a workflow task. */
  predicate Offered(e: Event, f: Firing) {
    e == Fires(f) || (e.Task? && Among(e.reactions, f))
  }

  ghost function Offers(events: seq<Event>): iset<Firing> {
    iset f | OfferedIn(events, f)
  }

  predicate OfferedIn(events: seq<Event>, f: Firing) {
    exists i :: 0 <= i < |events| && Offered(events[i], f)
  }

  /** The child announced that it had started, with this outcome. */
  ghost predicate Announced(offers: iset<Firing>, child: Id, o: Outcome) {
    exists h: Handle :: h.id == child && Started(h, o) in offers
  }

  /** An answer of a result handler carries what the environment called it with, under the id of the command; one of a
      child's listener carries what the child announced. */
  ghost predicate Backed(offers: iset<Firing>, a: Answer) {
    match a.source
    case Handler(h) => a.id == h.id && Result(h, a.outcome) in offers
    case Listener(child) => Announced(offers, child, a.outcome)
  }

  ghost predicate Honest(s: State, offers: iset<Firing>) {
    && (forall f :: Among(s.env.reactions, f) ==> f in offers)
    && (forall i :: 0 <= i < |s.log.fired| ==> Backed(offers, s.log.fired[i]))
    && (forall child :: child in s.children.entries ==> Announced(offers, child, s.children.entries[child]))
    && (forall i :: 0 <= i < |s.log.ops| && s.log.ops[i].Push? ==> Announced(offers, s.log.ops[i].id, s.log.ops[i].entry))
  }

  // ---- what the registry makes of it ----

  /** The answers of children's listeners, in order: the command, and what it hears. */
  function ListenerCalls(fired: seq<Answer>): seq<(Id, Outcome)> {
    if fired == [] then []
    else
      var a := fired[|fired| - 1];
      ListenerCalls(fired[..|fired| - 1]) + (if a.source.Listener? then [(a.id, a.outcome)] else [])
  }

  lemma CallsSnoc(fired: seq<Answer>, a: Answer)
    ensures ListenerCalls(fired + [a]) == ListenerCalls(fired) + (if a.source.Listener? then [(a.id, a.outcome)] else [])
  {
    assert (fired + [a])[..|fired|] == fired;
  }

  /** The registry is where its history has taken it, and has called whom that calls. */
  ghost predicate Registered(s: State) {
    Registry.ApplyAll(s.log.ops) == Registry.History(s.children.entries, s.children.listeners, ListenerCalls(s.log.fired))
  }

  lemma ApplySnoc(ops: seq<Registry.Op<Outcome, Id>>, op: Registry.Op<Outcome, Id>)
    ensures Registry.ApplyAll(ops + [op]) == Registry.Apply(Registry.ApplyAll(ops), op)
  {
    assert (ops + [op])[..|ops|] == ops;
  }

  /** Who listens for whom, in order. */
  function Listens(ops: seq<Registry.Op<Outcome, Id>>): seq<(Id, Id)> {
    if ops == [] then []
    else
      var op := ops[|ops| - 1];
      Listens(ops[..|ops| - 1]) + (if op.Listen? then [(op.id, op.listener)] else [])
  }

  lemma ListensSnoc(ops: seq<Registry.Op<Outcome, Id>>, op: Registry.Op<Outcome, Id>)
    ensures Listens(ops + [op]) == Listens(ops) + (if op.Listen? then [(op.id, op.listener)] else [])
  {
    assert (ops + [op])[..|ops|] == ops;
  }

  predicate AsksForChild(m: Message) {
    m.command.Some? && m.command.value.GetChildWorkflowExecution?
  }

  /** The commands that ask for a child's execution: the child, and the command. */
  function ChildAsks(ms: seq<Message>): seq<(Id, Id)> {
    if ms == [] then []
    else
      var m := ms[|ms| - 1];
      ChildAsks(ms[..|ms| - 1]) + (if AsksForChild(m) then [(m.command.value.childId, m.id)] else [])
  }

  lemma AsksSnoc(ms: seq<Message>, m: Message)
    ensures ChildAsks(ms + [m]) == ChildAsks(ms) + (if AsksForChild(m) then [(m.command.value.childId, m.id)] else [])
  {
    assert (ms + [m])[..|ms|] == ms;
  }

  // ---- one step ----

  ghost predicate Sound(s: State, offers: iset<Firing>) {
    Honest(s, offers) && Registered(s)
  }

  /** A step that listens for no child. */
  ghost predicate Tells(s: State, r: State, offers: iset<Firing>) {
    Sound(s, offers) ==> Sound(r, offers) && Listens(r.log.ops) == Listens(s.log.ops)
  }

  lemma Chain(s: State, r: State, t: State, offers: iset<Firing>)
    requires Tells(s, r, offers) && Tells(r, t, offers)
    ensures Tells(s, t, offers)
  {
    hide Sound;
    hide Listens;
  }

  /** Nothing happened that this module looks at. */
  lemma Untold(s: State, r: State, offers: iset<Firing>)
    requires r.log.fired == s.log.fired && r.log.ops == s.log.ops && r.children == s.children
    requires Frames.Suffix(s.env.reactions, r.env.reactions)
    ensures Tells(s, r, offers)
  {
    hide Backed;
    hide Announced;
    hide Listens;
    hide ListenerCalls;
    forall f | Among(r.env.reactions, f) ensures Among(s.env.reactions, f) {
      var i :| 0 <= i < |r.env.reactions| && f in r.env.reactions[i].fired;
      assert s.env.reactions[|s.env.reactions| - |r.env.reactions| + i] == r.env.reactions[i];
    }
  }

  lemma Unused(s: State)
    ensures Frames.Suffix(s.env.reactions, s.env.reactions)
  {
    assert s.env.reactions[0..] == s.env.reactions;
  }

  /** The same with all of the environment's answers still to come. */
  lemma Still(s: State, r: State, offers: iset<Firing>)
    requires r.log.fired == s.log.fired && r.log.ops == s.log.ops && r.children == s.children
    requires r.env.reactions == s.env.reactions
    ensures Tells(s, r, offers)
  {
    hide Tells;
    Unused(s);
    Untold(s, r, offers);
  }

  lemma DeliverHonest(s: State, a: Answer, offers: iset<Firing>)
    requires Honest(s, offers) && Backed(offers, a)
    ensures Honest(Deliver(s, a), offers)
  {
    hide Backed;
    hide Announced;
  }

  lemma DeliverLog(s: State, a: Answer)
    ensures var r := Deliver(s, a);
            && r.log.fired == s.log.fired + [a] && r.log.ops == s.log.ops && r.children == s.children
            && r.env == s.env
  {
  }

  lemma ResultTells(s: State, h: Handle, o: Outcome, offers: iset<Firing>)
    requires Result(h, o) in offers
    ensures Tells(s, Fire(s, Result(h, o)), offers)
  {
    if h in s.env.pending {
      var s1 := Delivery.Surrendered(s, h);
      var a := Answer(Handler(h), h.id, o);
      DeliverLog(s1, a);
      CallsSnoc(s.log.fired, a);
      if Honest(s, offers) {
        Still(s, s1, offers);
        DeliverHonest(s1, a, offers);
      }
      hide Deliver;
      hide Registry.ApplyAll;
      hide ListenerCalls;
      hide Listens;
      hide Among;
      hide Announced;
    }
  }

  lemma StoredHonest(s: State, child: Id, o: Outcome, offers: iset<Firing>)
    requires Honest(s, offers) && Announced(offers, child, o)
    ensures Honest(EntryStored(s, child, o), offers)
  {
    hide Backed;
    hide Announced;
    hide Among;
  }

  lemma PushTells(s: State, child: Id, o: Outcome, offers: iset<Firing>)
    requires Announced(offers, child, o)
    ensures Tells(s, PushChild(s, child, o), offers)
  {
    hide Registry.ApplyAll;
    hide Announced;
    hide Among;
    hide Deliver;
    hide Honest;
    var s1 := EntryStored(s, child, o);
    ApplySnoc(s.log.ops, Registry.Push(child, o));
    ListensSnoc(s.log.ops, Registry.Push(child, o));
    hide Listens;
    if Honest(s, offers) {
      StoredHonest(s, child, o, offers);
    }
    if child in s.children.listeners {
      var a := Answer(Listener(child), s.children.listeners[child], o);
      DeliverLog(s1, a);
      CallsSnoc(s.log.fired, a);
      hide ListenerCalls;
      if Honest(s, offers) {
        DeliverHonest(s1, a, offers);
      }
    }
  }

  lemma ListenHonest(s: State, child: Id, id: Id, offers: iset<Firing>)
    requires Honest(s, offers)
    ensures Honest(ListenerStored(s, child, id), offers)
  {
    hide Backed;
    hide Announced;
    hide Among;
  }

  /** The one step that listens for a child. */
  lemma ListenTells(s: State, child: Id, id: Id, offers: iset<Firing>)
    requires Sound(s, offers)
    ensures Sound(Listen(s, child, id), offers) && Listens(Listen(s, child, id).log.ops) == Listens(s.log.ops) + [(child, id)]
  {
    hide Registry.ApplyAll;
    hide Among;
    hide Deliver;
    var s1 := ListenerStored(s, child, id);
    ApplySnoc(s.log.ops, Registry.Listen(child, id));
    ListensSnoc(s.log.ops, Registry.Listen(child, id));
    hide Listens;
    ListenHonest(s, child, id, offers);
    if child in s.children.entries {
      var a := Answer(Listener(child), id, s.children.entries[child]);
      assert Backed(offers, a);
      DeliverLog(s1, a);
      CallsSnoc(s.log.fired, a);
      DeliverHonest(s1, a, offers);
    }
    hide ListenerCalls;
    hide Honest;
  }

  lemma FireTells(s: State, f: Firing, offers: iset<Firing>)
    requires f in offers
    ensures Tells(s, Fire(s, f), offers)
  {
    hide Tells;
    Still(s, s, offers);
    match f
    case Result(h, o) => ResultTells(s, h, o, offers);
    case Started(h, o) =>
      if h in s.env.starting {
        var s1 := s.(env := s.env.(starting := s.env.starting - {h}));
        Still(s, s1, offers);
        assert Announced(offers, h.id, o);
        PushTells(s1, h.id, o, offers);
        Chain(s, s1, Fire(s, f), offers);
      }
  }

  lemma {:induction false} FireAllTells(s: State, fs: seq<Firing>, offers: iset<Firing>)
    requires forall f :: f in fs ==> f in offers
    ensures Tells(s, FireAll(s, fs), offers)
    decreases |fs|
  {
    hide Tells;
    hide Fire;
    if fs == [] {
      Still(s, s, offers);
    } else {
      FireTells(s, fs[0], offers);
      FireAllTells(Fire(s, fs[0]), fs[1..], offers);
      Chain(s, Fire(s, fs[0]), FireAll(s, fs), offers);
    }
  }

  // ---- one command ----

  lemma CallTells(s: State, call: EnvCall, offers: iset<Firing>)
    ensures Tells(s, Call(s, call), offers)
  {
    if Sound(s, offers) {
      forall f | f in s.env.Next().fired ensures f in offers {
        assert s.env.reactions != [] && f in s.env.reactions[0].fired;
        assert Among(s.env.reactions, f);
      }
      hide Tells;
      hide Sound;
      var s1 := s.(env := s.env.Called(call));
      assert Frames.Suffix(s.env.reactions, s1.env.reactions);
      Untold(s, s1, offers);
      FireAllTells(s1, s.env.Next().fired, offers);
      Chain(s, s1, Call(s, call), offers);
    }
  }

  lemma StartTells(s: State, id: Id, child: bool, call: EnvCall, c: Cancellable, offers: iset<Firing>)
    ensures var r := Call(Begin(s, id, child), call);
            Tells(s, r, offers) && Tells(s, Register(r, id, c), offers)
  {
    hide Tells;
    hide Call;
    var b := Begin(s, id, child);
    var r := Call(b, call);
    Still(s, b, offers);
    CallTells(b, call, offers);
    Chain(s, b, r, offers);
    Still(r, Register(r, id, c), offers);
    Chain(s, r, Register(r, id, c), offers);
  }

  lemma ChildTells(s: State, m: Message, name: string, o: ChildOptions, offers: iset<Firing>)
    ensures Tells(s, DoChild(s, m, name, o), offers)
  {
    hide Tells;
    hide Call;
    hide Register;
    hide Begin;
    hide ChildId;
    var s1 := if o.workflowId == "" then NameChild(s) else s;
    var id := if o.workflowId == "" then ChildId(s.env.info.runId, s1.childSeq) else o.workflowId;
    var params := o.(taskQueue := DefaultQueue(s, o.taskQueue), workflowId := id);
    var h := NextHandle(s1, m.id);
    Still(s, s1, offers);
    StartTells(s1, m.id, true, StartChild(h, name, params, m.payloads, m.header), CancelChild(h, o.namespace, id), offers);
    Chain(s, s1, DoChild(s, m, name, o), offers);
  }

  lemma OperationTells(s: State, m: Message, offers: iset<Firing>)
    requires m.IsCommand() && Delivery.IsOperation(m.command.value)
    ensures Tells(s, HandleMessage(s, m).state, offers)
  {
    hide Tells;
    hide Call;
    hide Register;
    hide Begin;
    hide DoChild;
    hide Signed;
    var h := NextHandle(s, m.id);
    var c := CancelActivity(h);
    match m.command.value
    case ExecuteActivity(name, o) =>
      StartTells(s, m.id, false, StartActivity(h, name, o.(taskQueue := DefaultQueue(s, o.taskQueue)), m.payloads, m.header), c, offers);
    case ExecuteLocalActivity(name, o) =>
      var params := LocalOptions(DefaultTimeout(o.scheduleToClose), DefaultTimeout(o.startToClose), o.rest);
      StartTells(s, m.id, false, StartLocalActivity(h, name, params, m.payloads, m.header), CancelLocalActivity(h), offers);
    case ExecuteChildWorkflow(name, o) => ChildTells(s, m, name, o, offers);
    case NewTimer(ms, summary) =>
      StartTells(s, m.id, false, StartTimer(h, Signed(ms * 1_000_000), summary), CancelTimer(h, s.env.Next().timerId), offers);
    case SignalExternalWorkflow(ns, wid, rid, signal, childOnly) =>
      StartTells(s, m.id, false, SignalExternal(h, ns, wid, rid, signal, m.payloads, m.header, childOnly), c, offers);
    case CancelExternalWorkflow(ns, wid, rid) => StartTells(s, m.id, false, CancelExternal(h, ns, wid, rid), c, offers);
  }

  lemma CancelOneTells(s: State, id: Id, offers: iset<Firing>)
    ensures Tells(s, CancelOne(s, id), offers)
  {
    hide Tells;
    hide Call;
    Still(s, s, offers);
    if id in s.canceller {
      var s1 := Delivery.Taken(s, id);
      Still(s, s1, offers);
      match s.canceller[id] {
        case CancelActivity(h) => CallTells(s1, RequestCancelActivity(h), offers);
        case CancelLocalActivity(h) => CallTells(s1, RequestCancelLocalActivity(h), offers);
        case CancelChild(h, namespace, workflowId) => CallTells(s1, RequestCancelChild(h, namespace, workflowId), offers);
        case CancelTimer(h, timerId) =>
          CallTells(s1, RequestCancelTimer(h), offers);
          Still(s1, s1, offers);
      }
      Chain(s, s1, CancelOne(s, id), offers);
    }
  }

  lemma {:induction false} CancelIdsTells(s: State, ids: seq<Id>, offers: iset<Firing>)
    ensures Tells(s, CancelIds(s, ids), offers)
    decreases |ids|
  {
    hide Tells;
    hide CancelOne;
    if ids == [] {
      Still(s, s, offers);
    } else {
      CancelOneTells(s, ids[0], offers);
      CancelIdsTells(CancelOne(s, ids[0]), ids[1..], offers);
      Chain(s, CancelOne(s, ids[0]), CancelIds(s, ids), offers);
    }
  }

  lemma AskingTells(s: State, m: Message, offers: iset<Firing>)
    requires m.IsCommand() && Frames.IsAsking(m.command.value)
    ensures Tells(s, HandleMessage(s, m).state, offers)
  {
    hide HandleMessage;
    Frames.AskingTalks(s, m);
    hide Tells;
    hide Call;
    hide CancelIds;
    var a := Frames.Asking(s, m);
    match m.command.value {
      case GetVersion(changeId, min, max) => CallTells(s, AskVersion(changeId, min, max), offers);
      case SideEffect =>
        var call := RecordSideEffect(m.payloads, s.env.Next().value);
        CallTells(s, call, offers);
        Still(Call(s, call), a, offers);
        Chain(s, Call(s, call), a, offers);
      case Cancel(ids) => CancelIdsTells(s, ids, offers);
    }
    Still(a, HandleMessage(s, m).state, offers);
    Chain(s, a, HandleMessage(s, m).state, offers);
  }

  lemma OtherTells(s: State, m: Message, offers: iset<Firing>)
    requires m.IsCommand() && !Delivery.IsOperation(m.command.value) && !Frames.IsAsking(m.command.value) && !AsksForChild(m)
    ensures Tells(s, HandleMessage(s, m).state, offers)
  {
    hide Tells;
    hide Call;
    hide CancelIds;
    hide Attributes.Updates;
    hide Attributes.Ends;
    Still(s, s, offers);
    match m.command.value
    case UpsertSearchAttributes(untyped) => CallTells(s, Upsert(untyped), offers);
    case UpsertTypedSearchAttributes(attributes) => CallTells(s, UpsertTyped(Attributes.Updates(s.env.conversions, attributes)), offers);
    case UpsertMemo(memo) => CallTells(s, UpsertMemos(memo), offers);
    case UpdateCompleted(id) => Still(s, DoUpdateCompleted(s, m, id).state, offers);
    case UpdateValidated(id) => Still(s, DoUpdateValidated(s, m, id).state, offers);
    case CompleteWorkflow => Still(s, DoComplete(s, m), offers);
    case ContinueAsNew(name, next) => Still(s, DoContinueAsNew(s, m, name, next), offers);
    case _ =>
  }

  lemma HandleTells(s: State, m: Message, offers: iset<Firing>)
    requires m.IsCommand() && Sound(s, offers)
    ensures var r := HandleMessage(s, m).state;
            && Sound(r, offers)
            && Listens(r.log.ops) == Listens(s.log.ops) + (if AsksForChild(m) then [(m.command.value.childId, m.id)] else [])
  {
    hide Sound;
    hide Listens;
    if AsksForChild(m) {
      ListenTells(s, m.command.value.childId, m.id, offers);
    } else {
      hide HandleMessage;
      if Delivery.IsOperation(m.command.value) {
        OperationTells(s, m, offers);
      } else if Frames.IsAsking(m.command.value) {
        AskingTells(s, m, offers);
      } else {
        OtherTells(s, m, offers);
      }
    }
  }

  /** A child that announces itself is entered, whoever listens; after that it cannot announce itself again. */
  lemma AnnouncementsCount(s: State, h: Handle, o: Outcome)
    requires h in s.env.starting
    ensures var r := Fire(s, Started(h, o));
            && r.log.ops == s.log.ops + [Registry.Push(h.id, o)] && h !in r.env.starting
            && h.id in r.children.entries && r.children.entries[h.id] == o
  {
  }

  predicate Announcing(fs: seq<Firing>, h: Handle) {
    exists i :: 0 <= i < |fs| && fs[i].Started? && fs[i].handle == h
  }

  lemma FireStarting(s: State, f: Firing, h: Handle)
    ensures h in Fire(s, f).env.starting <==> h in s.env.starting && !(f.Started? && f.handle == h)
  {
  }

  lemma {:induction false} FireAllStarting(s: State, fs: seq<Firing>, h: Handle)
    ensures h in FireAll(s, fs).env.starting <==> h in s.env.starting && !Announcing(fs, h)
    decreases |fs|
  {
    if fs != [] {
      FireStarting(s, fs[0], h);
      FireAllStarting(Fire(s, fs[0]), fs[1..], h);
      hide Fire;
      hide FireAll;
      if Announcing(fs, h) && !(fs[0].Started? && fs[0].handle == h) {
        var i :| 0 <= i < |fs| && fs[i].Started? && fs[i].handle == h;
        assert fs[1..][i - 1] == fs[i];
      }
      if Announcing(fs[1..], h) {
        var i :| 0 <= i < |fs[1..]| && fs[1..][i].Started? && fs[1..][i].handle == h;
        assert fs[i + 1] == fs[1..][i];
      }
    }
  }

  /** Once its command is handled a child can announce itself, unless it has done so inside the start call. */
  lemma ChildrenCanAnnounce(s: State, m: Message, name: string, o: ChildOptions)
    requires m.command == Some(ExecuteChildWorkflow(name, o))
    ensures var h := NextHandle(s, m.id);
            h in HandleMessage(s, m).state.env.starting <==> !Announcing(s.env.Next().fired, h)
  {
    hide ChildId;
    var s1 := if o.workflowId == "" then NameChild(s) else s;
    var id := if o.workflowId == "" then ChildId(s.env.info.runId, s1.childSeq) else o.workflowId;
    var params := o.(taskQueue := DefaultQueue(s, o.taskQueue), workflowId := id);
    var h := NextHandle(s1, m.id);
    var b := Begin(s1, m.id, true);
    FireAllStarting(b.(env := b.env.Called(StartChild(h, name, params, m.payloads, m.header))), s.env.Next().fired, h);
    hide FireAll;
    hide Announcing;
  }

  // ---- tasks and runs ----

  /** Sound, and whoever the worker had listen for a child does. */
  ghost predicate Told(s: State, offers: iset<Firing>) {
    Sound(s, offers) && Listens(s.log.ops) == ChildAsks(s.inbox.handled)
  }

  lemma TellsTold(s: State, r: State, offers: iset<Firing>)
    requires Told(s, offers) && Tells(s, r, offers) && r.inbox.handled == s.inbox.handled
    ensures Told(r, offers)
  {
    hide Sound;
  }

  /** A message taken off the pipeline that asks for no child. */
  lemma PoppedTold(s: State, offers: iset<Firing>)
    requires Told(s, offers) && s.inbox.pipeline != [] && !AsksForChild(s.inbox.pipeline[0])
    ensures Told(s.(inbox := s.inbox.Popped()), offers)
  {
    hide Sound;
    Quiet(s, s.(inbox := s.inbox.Popped()), offers);
    AsksSnoc(s.inbox.handled, s.inbox.pipeline[0]);
  }

  lemma ClearedTold(s: State, offers: iset<Firing>)
    requires Told(s, offers)
    ensures Told(s.(inbox := s.inbox.Cleared()), offers)
  {
    hide Sound;
    Quiet(s, s.(inbox := s.inbox.Cleared()), offers);
  }

  lemma HandledTold(s: State, offers: iset<Firing>)
    requires Told(s, offers) && s.inbox.pipeline != [] && s.inbox.pipeline[0].IsCommand()
    ensures Told(HandleMessage(s.(inbox := s.inbox.Popped()), s.inbox.pipeline[0]).state, offers)
  {
    hide HandleMessage;
    hide Sound;
    hide Listens;
    var m, s1 := s.inbox.pipeline[0], s.(inbox := s.inbox.Popped());
    Quiet(s, s1, offers);
    AsksSnoc(s.inbox.handled, m);
    HandleTells(s1, m, offers);
    HandleHandled(s1, m);
  }

  lemma {:induction false} PipelineTold(s: State, offers: iset<Firing>)
    requires Told(s, offers)
    ensures Told(RunPipeline(s).state, offers)
    decreases s.inbox.Work()
  {
    hide HandleMessage;
    hide Told;
    if s.inbox.pipeline != [] {
      var m := s.inbox.pipeline[0];
      var s1 := s.(inbox := s.inbox.Popped());
      if !m.IsCommand() {
        PoppedTold(s, offers);
        PipelineTold(s1, offers);
      } else if m.IsUndefinedResponse() {
        PoppedTold(s, offers);
        ClearedTold(s1, offers);
      } else {
        HandledTold(s, offers);
        var r := HandleMessage(s1, m);
        ClearedTold(r.state, offers);
        if r.exit.Normal? {
          PipelineTold(r.state, offers);
        }
      }
    }
  }

  lemma Quiet(s: State, r: State, offers: iset<Firing>)
    requires r.log == s.log && r.children == s.children && r.env == s.env
    ensures Sound(s, offers) ==> Sound(r, offers)
  {
    Still(s, r, offers);
    hide Sound;
  }

  lemma HandleHandled(s: State, m: Message)
    requires m.IsCommand()
    ensures HandleMessage(s, m).state.inbox.handled == s.inbox.handled
  {
    hide HandleMessage;
    Pipeline.HandleFlow(s, m);
  }

  lemma {:induction false} DrainCallbacksChildren(s: State, i: nat)
    requires i <= |s.callbacks|
    ensures DrainCallbacks(s, i).children == s.children
    decreases |s.callbacks| - i
  {
    if i < |s.callbacks| {
      DrainCallbacksChildren(RunCallback(s, s.callbacks[i]), i + 1);
    }
  }

  lemma {:induction false} InvokeAllChildren(s: State, qs: seq<Request>)
    ensures InvokeAll(s, qs).children == s.children
    decreases |qs|
  {
    if qs != [] {
      InvokeAllChildren(InvokeQueued(s, qs[0]), qs[1..]);
    }
  }

  lemma {:induction false} DrainNamesChildren(s: State, order: seq<string>)
    ensures var r := DrainNames(s, order);
            r.children == s.children && r.env.reactions == s.env.reactions
    decreases |order|
  {
    hide InvokeAll;
    if order != [] {
      var s1 := s.(env := s.env.Told(HandleQueuedUpdates(order[0])).(updates := Without(s.env.updates, order[0])));
      InvokeAllChildren(s1, Named(s.env.updates, order[0]));
      Pipeline.InvokeAllFrame(s1, Named(s.env.updates, order[0]));
      DrainNamesChildren(DrainName(s, order[0]), order[1..]);
    }
  }

  lemma BeforeFlushTold(s: State, order: seq<string>, offers: iset<Firing>)
    requires Told(s, offers)
    ensures Told(BeforeFlush(s, order), offers)
  {
    hide Told;
    hide DrainCallbacks;
    hide DrainNames;
    hide Tells;
    var s0 := s.(inLoop := true);
    var s1 := DrainCallbacks(s0, 0);
    Pipeline.DrainCallbacksFrame(s0, 0);
    DrainCallbacksChildren(s0, 0);
    Pipeline.DrainNamesFrame(s1, order);
    DrainNamesChildren(s1, order);
    Still(s, BeforeFlush(s, order), offers);
    TellsTold(s, BeforeFlush(s, order), offers);
  }

  lemma FlushTold(s: State, offers: iset<Firing>)
    requires Told(s, offers)
    ensures Told(Flush(s).state, offers)
  {
    hide Told;
    hide Tells;
    hide Answered;
    Still(s, Flush(s).state, offers);
    TellsTold(s, Flush(s).state, offers);
  }

  lemma TaskTold(s: State, order: seq<string>, reactions: seq<Reaction>, replies: seq<Exchange>, replaying: bool, offers: iset<Firing>)
    requires Told(s, offers) && forall f :: Among(reactions, f) ==> f in offers
    ensures Told(DoTask(s, order, reactions, replies, replaying), offers)
  {
    hide Told;
    hide Tells;
    hide BeforeFlush;
    hide Flush;
    hide RunPipeline;
    var s1 := s.(inbox := s.inbox.(replies := replies), env := s.env.(reactions := reactions, replaying := replaying));
    GivenTold(s, s1, offers);
    BeforeFlushTold(s1, order, offers);
    var f := Flush(BeforeFlush(s1, order));
    FlushTold(BeforeFlush(s1, order), offers);
    if f.exit.Normal? {
      PipelineTold(f.state, offers);
    }
    EndTold(if f.exit.Erred? then f.state else RunPipeline(f.state).state, DoTask(s, order, reactions, replies, replaying), offers);
  }

  lemma GivenTold(s: State, r: State, offers: iset<Firing>)
    requires Told(s, offers) && forall f :: Among(r.env.reactions, f) ==> f in offers
    requires r.log == s.log && r.children == s.children && r.inbox.handled == s.inbox.handled
    ensures Told(r, offers)
  {
  }

  lemma EndTold(s: State, r: State, offers: iset<Firing>)
    requires Told(s, offers)
    requires r.log.fired == s.log.fired && r.log.ops == s.log.ops && r.children == s.children && r.env == s.env && r.inbox == s.inbox
    ensures Told(r, offers)
  {
    hide Told;
    hide Tells;
    Still(s, r, offers);
    TellsTold(s, r, offers);
  }

  lemma CloseTold(s: State, order: seq<string>, offers: iset<Firing>)
    requires Told(s, offers)
    ensures Told(DoClose(s, order), offers)
  {
    hide Told;
    hide Tells;
    hide DrainNames;
    Pipeline.DrainNamesFrame(s, order);
    DrainNamesChildren(s, order);
    Still(s, DoClose(s, order), offers);
    TellsTold(s, DoClose(s, order), offers);
  }

  lemma FireTold(s: State, f: Firing, offers: iset<Firing>)
    requires Told(s, offers) && f in offers
    ensures Told(Fire(s, f), offers)
  {
    hide Told;
    hide Tells;
    hide Fire;
    FireTells(s, f, offers);
    Frames.FireApart(s, f);
    TellsTold(s, Fire(s, f), offers);
  }

  lemma NextTold(s: State, e: Event, offers: iset<Firing>)
    requires Told(s, offers) && forall f :: Offered(e, f) ==> f in offers
    ensures Told(Next(s, e), offers)
  {
    hide Told;
    hide Tells;
    hide Fire;
    hide DoTask;
    hide DoClose;
    match e
    case Fires(f) =>
      assert Offered(e, f);
      FireTold(s, f, offers);
    case Task(order, reactions, replies, replaying) =>
      assert forall f :: Among(reactions, f) ==> Offered(e, f);
      TaskTold(s, order, reactions, replies, replaying, offers);
    case Closes(order) => CloseTold(s, order, offers);
    case _ =>
      Still(s, Next(s, e), offers);
      TellsTold(s, Next(s, e), offers);
  }

  lemma {:induction false} RunTold(s: State, events: seq<Event>, offers: iset<Firing>)
    requires Told(s, offers) && Offers(events) <= offers
    ensures Told(Run(s, events), offers)
  {
    hide Told;
    hide Next;
    if events != [] {
      var before, e := events[..|events| - 1], events[|events| - 1];
      assert Offers(before) <= offers by {
        forall f | OfferedIn(before, f) ensures f in offers {
          var i :| 0 <= i < |before| && Offered(before[i], f);
          assert Offered(events[i], f);
          assert f in Offers(events);
        }
      }
      RunTold(s, before, offers);
      forall f | Offered(e, f) ensures f in offers {
        assert f in Offers(events);
      }
      NextTold(Run(s, before), e, offers);
    }
  }

  lemma RunFromExecute(x: Launch, events: seq<Event>)
    ensures Told(Run(Executed(x), events), Offers(events))
  {
    hide Run;
    hide Attributes.StartTable;
    assert Told(Executed(x), Offers(events));
    hide Executed;
    hide Told;
    RunTold(Executed(x), events, Offers(events));
  }

  /** In every run, Close included: whatever a handler answers comes from a call the environment makes, by itself or inside
      a workflow task. A result handler answers under its command's id with the outcome it is called with, a child's
      listener with the outcome the child announced. */
  lemma AnswersAreBacked(x: Launch, events: seq<Event>)
    ensures forall i :: 0 <= i < |Run(Executed(x), events).log.fired| ==> Backed(Offers(events), Run(Executed(x), events).log.fired[i])
  {
    hide Run;
    hide Executed;
    hide Backed;
    RunFromExecute(x, events);
  }

  /** In every run, and whatever the order of the child starting and the worker asking: the commands that ask for a child's
      execution listen in the order they are handled, and what they hear, each in its order, is what the history of the
      registry delivers. */
  lemma ChildrenAnswer(x: Launch, events: seq<Event>)
    ensures var r := Run(Executed(x), events);
            && Listens(r.log.ops) == ChildAsks(r.inbox.handled)
            && ListenerCalls(r.log.fired) == Registry.Deliveries(r.log.ops, |r.log.ops|)
            && forall i :: 0 <= i < |r.log.ops| && r.log.ops[i].Push? ==> Announced(Offers(events), r.log.ops[i].id, r.log.ops[i].entry)
  {
    hide Run;
    hide Executed;
    hide Announced;
    RunFromExecute(x, events);
    var ops := Run(Executed(x), events).log.ops;
    Registry.LatestWins(ops, |ops|);
    assert ops[..|ops|] == ops;
  }

  /** Hence the command of the i-th Listen of a run is answered exactly once if and only if the child had started and does
      not start again before another command asks for it, or had not and starts exactly once before then. */
  lemma ChildAnsweredOnce(x: Launch, events: seq<Event>, i: nat)
    requires var ops := Run(Executed(x), events).log.ops; i < |ops| && ops[i].Listen?
    ensures var ops := Run(Executed(x), events).log.ops;
            && (forall j :: 0 <= j < |ops| && Registry.Serves(ops, i, j) ==> |Registry.Delivery(ops, j)| == 1 && Registry.Delivery(ops, j)[0].0 == ops[i].listener)
            && (Registry.Served(ops, i, |ops|) == 1 <==>
                if Registry.LatestEntry(ops[..i], ops[i].id).Some? then forall j :: i < j < |ops| ==> !Registry.Serving(ops, i, j)
                else exists j :: i < j < |ops| && Registry.Serving(ops, i, j) && forall k :: i < k < |ops| && Registry.Serving(ops, i, k) ==> k == j)
  {
    hide Run;
    hide Executed;
    var ops := Run(Executed(x), events).log.ops;
    forall j | 0 <= j < |ops| && Registry.Serves(ops, i, j) {
      Registry.ServesDelivers(ops, i, j);
    }
    Registry.CalledOnce(ops, i);
  }
}
