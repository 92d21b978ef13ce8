/** The workflow object: the same steps as the state machine, on mutable fields.

    Every method ends in the state the state machine prescribes; `View` reads that state off the fields. */
module Workflows {
  import opened Protocol
  import opened Engine
  import Attributes
  import Cancelling
  import Delivery
  import Frames
  import Pipeline
  import Queue
  import Registry

  class Workflow {
    const mq: Queue.MessageQueue
    const canceller: Cancelling.Canceller<Cancellable>
    const ids: Registry.IDRegistry<Outcome, Id>
    var seqID: nat
    var pipeline: seq<Message>
    var callbacks: seq<Answer>
    var inLoop: bool
    var updatesQueue: set<string>
    var updateValidateCb: map<string, Token>
    var updateCompleteCb: map<string, Token>
    var header: Option<Header>
    var status: Status

    // the environment and the worker pool, by what they will answer
    var env: Env
    var replies: seq<Exchange>

    // histories
    ghost var pushed: seq<Push>
    ghost var sent: seq<seq<Message>>
    ghost var dropped: seq<Message>
    ghost var asked: seq<Message>
    ghost var received: seq<Message>
    ghost var handled: seq<Message>
    ghost var log: Log

    ghost predicate Valid() reads this, mq, mq.counter {
      mq.Valid()
    }

    ghost function Repr(): set<object> reads this, mq {
      {this, mq, mq.data, mq.counter, canceller, ids}
    }

    ghost function View(): State
      reads this, mq, mq.data, mq.counter, canceller, ids
      requires Valid()
    {
      State(Outbox(mq.Contents(), mq.counter.total, mq.counter.others, pushed, sent, dropped, asked),
            Inbox(pipeline, replies, received, handled), inLoop, callbacks, canceller.ids,
            Children(ids.entries, ids.listeners), Updates(updatesQueue, updateValidateCb, updateCompleteCb),
            seqID, header, env, log, status)
    }

    // ---- Execute ----

    /** The fields a definition is created with and Execute assigns. */
    constructor (counter: Queue.Counter, env: Env, header: Option<Header>)
      requires counter.Valid()
      ensures Valid() && fresh(Repr() - {counter}) && mq.counter == counter
      ensures View() == Blank(env, header, counter.total, counter.others)
    {
      this.header := header;
      this.env := Env(env.info, env.conversions, env.replaying, [], [], {}, {}, [], 0, [], []);
      seqID, pipeline, callbacks, inLoop, replies, status := 0, [], [], false, [], Running;
      updatesQueue, updateValidateCb, updateCompleteCb := {}, map[], map[];
      mq := new Queue.MessageQueue(counter);
      canceller := new Cancelling.Canceller<Cancellable>();
      ids := new Registry.IDRegistry<Outcome, Id>();
      pushed, sent, dropped, asked, received, handled, log := [], [], [], [], [], [], Log([], [], {}, [], []);
    }

    /** The start command, with the environment's search attributes, visited in some order, and the results of the last
        run. */
    method Execute(tsa: Attributes.Indexed, order: seq<Attributes.Key>, input: Payloads, last: Payloads)
      requires Valid()
      modifies Repr()
      ensures Valid() && fresh(Repr() - old(Repr()))
      ensures forall e, h, count, gaps :: old(View()) == Blank(e, h, count, gaps) ==>
                View() == Executed(Launch(e, tsa, order, h, input, last, count, gaps))
    {
      hide Attributes.StartTable;
      hide Wrap;
      var attributes := Attributes.BuildStartTable(env.conversions, tsa, order);
      var more := if last.Payloads? then last.items else [];
      var all := input;
      if |more| != 0 {
        all := Payloads((if input.Payloads? then input.items else []) + more);
      }
      PushCommand(StartWorkflow(env.info, |more|, attributes), all, header);
    }

    // ---- the queue ----

    method PushCommand(command: Command, payloads: Payloads, header: Option<Header>)
      requires Valid()
      modifies Repr()
      ensures Valid() && fresh(Repr() - old(Repr()))
      ensures View() == old(View()).(out := old(View()).out.Command(command, payloads, header))
    {
      mq.PushCommand(command, payloads, header);
      pushed := pushed + [Own(CommandMessage(Wrap(mq.counter.total), command, payloads, header))];
    }

    method PushResponse(id: Id, payloads: Payloads)
      requires Valid()
      modifies Repr()
      ensures Valid() && fresh(Repr() - old(Repr()))
      ensures View() == Respond(old(View()), id, payloads)
    {
      mq.PushResponse(id, payloads);
      pushed := pushed + [Own(Response(id, payloads))];
    }

    method PushError(id: Id, failure: Failure)
      requires Valid()
      modifies Repr()
      ensures Valid() && fresh(Repr() - old(Repr()))
      ensures View() == old(View()).(out := old(View()).out.Pushed(Own(ErrorResponse(id, failure))))
    {
      mq.PushError(id, failure);
      pushed := pushed + [Own(ErrorResponse(id, failure))];
    }

    // ---- result handlers ----

    /** The inner callback of a result handler. */
    method RunResult(a: Answer)
      requires Valid()
      modifies Repr()
      ensures Valid() && fresh(Repr() - old(Repr()))
      ensures View() == RunCallback(old(View()), a)
    {
      hide AnswerMessage;
      canceller.Discard(a.id);
      PushAnswer(a);
    }

    method PushAnswer(a: Answer)
      requires Valid()
      modifies Repr()
      ensures Valid() && fresh(Repr() - old(Repr()))
      ensures View() == old(View()).(out := old(View()).out.Pushed(Reply(a)))
    {
      if a.outcome.Failed? {
        mq.PushError(a.id, a.outcome.failure);
      } else {
        mq.PushResponse(a.id, a.outcome.payloads);
      }
      pushed := pushed + [Reply(a)];
    }

    /** A result handler: its callback runs at once in the loop, and is deferred outside it. */
    method HandleResult(a: Answer)
      requires Valid()
      modifies Repr()
      ensures Valid() && fresh(Repr() - old(Repr()))
      ensures View() == Deliver(old(View()), a)
    {
      log := log.(fired := log.fired + [a]);
      if inLoop {
        RunResult(a);
      } else {
        callbacks := callbacks + [a];
      }
    }

    /** A child has started: whoever listens for it is told. */
    method ChildStarted(child: Id, outcome: Outcome)
      requires Valid()
      modifies Repr()
      ensures Valid() && fresh(Repr() - old(Repr()))
      ensures View() == PushChild(old(View()), child, outcome)
    {
      var listener := ids.Push(child, outcome);
      log := log.(ops := log.ops + [Registry.Push(child, outcome)]);
      if listener.Some? {
        HandleResult(Answer(Listener(child), listener.value, outcome));
      }
    }

    method ListenChild(child: Id, id: Id)
      requires Valid()
      modifies Repr()
      ensures Valid() && fresh(Repr() - old(Repr()))
      ensures View() == Listen(old(View()), child, id)
    {
      var entry := ids.Listen(child, id);
      log := log.(ops := log.ops + [Registry.Listen(child, id)]);
      if entry.Some? {
        HandleResult(Answer(Listener(child), id, entry.value));
      }
    }

    /** The environment calls a handler it holds. */
    method Fires(f: Firing)
      requires Valid()
      modifies Repr()
      ensures Valid() && fresh(Repr() - old(Repr()))
      ensures View() == Fire(old(View()), f)
    {
      match f
      case Result(h, o) =>
        if h in env.pending {
          env := env.(pending := env.pending - {h});
          log := log.(ledger := log.ledger + [Fired(h)]);
          HandleResult(Answer(Handler(h), h.id, o));
        }
      case Started(h, o) =>
        if h in env.starting {
          env := env.(starting := env.starting - {h});
          ChildStarted(h.id, o);
        }
    }

    /** A call to the environment, with the handlers it calls before it returns. */
    method CallEnv(call: EnvCall) returns (reaction: Reaction)
      requires Valid()
      modifies Repr()
      ensures Valid() && fresh(Repr() - old(Repr()))
      ensures View() == Call(old(View()), call) && reaction == old(View()).env.Next()
    {
      reaction := env.Next();
      env := env.Called(call);
      ghost var start := View();
      var fs := reaction.fired;
      for i := 0 to |fs|
        invariant Valid() && fresh(Repr() - old(Repr()))
        invariant FireAll(View(), fs[i..]) == FireAll(start, fs)
      {
        assert fs[i..][0] == fs[i] && fs[i..][1..] == fs[i + 1..];
        Fires(fs[i]);
      }
    }

    // ---- operations ----

    method StartOperation(id: Id, child: bool, call: EnvCall) returns (reaction: Reaction)
      requires Valid()
      modifies Repr()
      ensures Valid() && fresh(Repr() - old(Repr()))
      ensures View() == Call(Begin(old(View()), id, child), call) && reaction == old(View()).env.Next()
    {
      hide Call;
      var h := Handle(|env.started|, id);
      env := env.(started := env.started + [h], pending := env.pending + {h},
                  starting := if child then env.starting + {h} else env.starting);
      reaction := CallEnv(call);
    }

    method RegisterCancel(id: Id, c: Cancellable)
      requires Valid()
      modifies Repr()
      ensures Valid() && fresh(Repr() - old(Repr()))
      ensures View() == Register(old(View()), id, c)
    {
      canceller.Register(id, c);
      log := log.(ledger := log.ledger + [Registered(c.handle)]);
    }

    method ExecuteActivity(m: Message, name: string, o: ActivityOptions)
      requires Valid()
      modifies Repr()
      ensures Valid() && fresh(Repr() - old(Repr()))
      ensures View() == DoActivity(old(View()), m, name, o)
    {
      var params := o;
      if params.taskQueue == "" {
        params := params.(taskQueue := env.info.taskQueue);
      }
      var h := Handle(|env.started|, m.id);
      var _ := StartOperation(m.id, false, StartActivity(h, name, params, m.payloads, m.header));
      RegisterCancel(m.id, CancelActivity(h));
    }

    method ExecuteLocalActivity(m: Message, name: string, o: LocalOptions)
      requires Valid()
      modifies Repr()
      ensures Valid() && fresh(Repr() - old(Repr()))
      ensures View() == DoLocalActivity(old(View()), m, name, o)
    {
      var startToClose, scheduleToClose := o.startToClose, o.scheduleToClose;
      if startToClose == 0 {
        startToClose := MINUTE;
      }
      if scheduleToClose == 0 {
        scheduleToClose := MINUTE;
      }
      var h := Handle(|env.started|, m.id);
      var _ := StartOperation(m.id, false, StartLocalActivity(h, name, LocalOptions(scheduleToClose, startToClose, o.rest), m.payloads, m.header));
      RegisterCancel(m.id, CancelLocalActivity(h));
    }

    method ExecuteChildWorkflow(m: Message, name: string, o: ChildOptions)
      requires Valid()
      modifies Repr()
      ensures Valid() && fresh(Repr() - old(Repr()))
      ensures View() == DoChild(old(View()), m, name, o)
    {
      hide Call;
      hide ChildId;
      hide Wrap;
      var params := o;
      if params.taskQueue == "" {
        params := params.(taskQueue := env.info.taskQueue);
      }
      var workflowId := NameOfChild(o.workflowId);
      params := params.(workflowId := workflowId);
      var h := Handle(|env.started|, m.id);
      var _ := StartOperation(m.id, true, StartChild(h, name, params, m.payloads, m.header));
      RegisterCancel(m.id, CancelChild(h, params.namespace, params.workflowId));
    }

    /** The id of a child: its own, or the next one of the run. */
    method NameOfChild(workflowId: string) returns (id: string)
      requires Valid()
      modifies this`seqID
      ensures Valid()
      ensures View() == if workflowId == "" then NameChild(old(View())) else old(View())
      ensures id == if workflowId == "" then ChildId(env.info.runId, seqID) else workflowId
    {
      hide ChildId;
      id := workflowId;
      if id == "" {
        seqID := Wrap(seqID + 1);
        id := ChildId(env.info.runId, seqID);
      }
    }

    method NewTimer(m: Message, ms: int, summary: string)
      requires Valid()
      modifies Repr()
      ensures Valid() && fresh(Repr() - old(Repr()))
      ensures View() == DoTimer(old(View()), m, ms, summary)
    {
      var h := Handle(|env.started|, m.id);
      var reaction := StartOperation(m.id, false, StartTimer(h, Signed(ms * 1_000_000), summary));
      RegisterCancel(m.id, CancelTimer(h, reaction.timerId));
    }

    method SignalExternalWorkflow(m: Message, c: Command)
      requires Valid() && c.SignalExternalWorkflow?
      modifies Repr()
      ensures Valid() && fresh(Repr() - old(Repr()))
      ensures View() == DoSignal(old(View()), m, c)
    {
      hide Call;
      var h := Handle(|env.started|, m.id);
      var _ := StartOperation(m.id, false,
                              SignalExternal(h, c.namespace, c.workflowId, c.runId, c.signal, m.payloads, m.header, c.childOnly));
    }

    method CancelExternalWorkflow(m: Message, c: Command)
      requires Valid() && c.CancelExternalWorkflow?
      modifies Repr()
      ensures Valid() && fresh(Repr() - old(Repr()))
      ensures View() == DoCancelExternal(old(View()), m, c)
    {
      hide Call;
      var _ := StartOperation(m.id, false, CancelExternal(Handle(|env.started|, m.id), c.namespace, c.workflowId, c.runId));
    }

    // ---- cancellation ----

    method RunCancelFunction(c: Cancellable)
      requires Valid()
      modifies Repr()
      ensures Valid() && fresh(Repr() - old(Repr()))
      ensures View() == RunCancel(old(View()), c)
    {
      match c {
        case CancelActivity(h) => var _ := CallEnv(RequestCancelActivity(h));
        case CancelLocalActivity(h) => var _ := CallEnv(RequestCancelLocalActivity(h));
        case CancelChild(h, namespace, workflowId) => var _ := CallEnv(RequestCancelChild(h, namespace, workflowId));
        case CancelTimer(h, timerId) =>
          if timerId {
            var _ := CallEnv(RequestCancelTimer(h));
          }
      }
    }

    /** The load-and-delete loop. Cancel functions may call handlers, which discard entries while the loop runs. */
    method CancelCommands(wanted: seq<Id>)
      requires Valid()
      modifies Repr()
      ensures Valid() && fresh(Repr() - old(Repr()))
      ensures View() == CancelIds(old(View()), wanted)
    {
      ghost var start := View();
      for i := 0 to |wanted|
        invariant Valid() && fresh(Repr() - old(Repr()))
        invariant CancelIds(View(), wanted[i..]) == CancelIds(start, wanted)
      {
        assert wanted[i..][0] == wanted[i] && wanted[i..][1..] == wanted[i + 1..];
        CancelCommand(wanted[i]);
      }
    }

    method CancelCommand(id: Id)
      requires Valid()
      modifies Repr()
      ensures Valid() && fresh(Repr() - old(Repr()))
      ensures View() == CancelOne(old(View()), id)
    {
      hide RunCancel;
      ghost var before := canceller.ids;
      var c := canceller.LoadAndDelete(id);
      if c.Some? {
        log := log.(ledger := log.ledger + [Cancelled(c.value.handle)]);
        RunCancelFunction(c.value);
      } else {
        assert before - {id} == before;
      }
    }

    // ---- exchanges ----

    /** Sends the queue and takes in the reply. On any failure queue and pipeline stay as they were. */
    method FlushQueue() returns (exit: Exit)
      requires Valid()
      modifies Repr()
      ensures Valid() && fresh(Repr() - old(Repr()))
      ensures Step(View(), exit) == Flush(old(View()))
    {
      hide Answered;
      hide FrameCount;
      var messages := mq.Messages();
      if messages.len == 0 {
        return Normal;
      }
      var x := NextReply();
      var incoming := Answered(x);
      if incoming.error.Some? {
        return Erred(incoming.error.value);
      }
      TakeIn(incoming.messages);
      exit := Normal;
    }

    /** The pool's answer to the batch handed to it. */
    method NextReply() returns (x: Exchange)
      requires Valid()
      modifies this`replies
      ensures Valid()
      ensures View() == old(View()).(inbox := old(View()).inbox.Consumed()) && x == old(View()).inbox.Next()
    {
      x := if replies == [] then NoResponse else replies[0];
      replies := if replies == [] then [] else replies[1..];
    }

    /** The whole queue goes, the whole reply comes. */
    method TakeIn(messages: seq<Message>)
      requires Valid()
      modifies Repr()
      ensures Valid() && fresh(Repr() - old(Repr()))
      ensures View() == old(View()).(out := old(View()).out.Sent(), inbox := old(View()).inbox.Got(messages))
    {
      sent := sent + [mq.Contents()];
      mq.Flush();
      pipeline := pipeline + messages;
      received := received + messages;
    }

    method RespondFlush(id: Id, payloads: Payloads) returns (exit: Exit)
      requires Valid()
      modifies Repr()
      ensures Valid() && fresh(Repr() - old(Repr()))
      ensures Step(View(), exit) == RespondAndFlush(old(View()), id, payloads)
    {
      PushResponse(id, payloads);
      exit := FlushQueue();
    }

    /** The single message of a reply. */
    method OneMessage(x: Exchange) returns (r: Incoming)
      ensures r == Single(x)
    {
      r := Answered(x);
      if r.error.None? && |r.messages| != 1 {
        r := Incoming([], Some("unexpected pool response"));
      }
    }

    /** A command of its own, answered by exactly one message; the queue is left alone. */
    method RunCommand(command: Command, payloads: Payloads, header: Option<Header>, x: Exchange) returns (r: Incoming)
      requires Valid()
      modifies Repr()
      ensures Valid() && fresh(Repr() - old(Repr()))
      ensures View() == Engine.RunCommand(old(View()), command, payloads, header)
      ensures r == Single(x)
    {
      hide Single;
      hide Wrap;
      var m := mq.AllocateMessage(command, payloads, header);
      asked := asked + [m];
      r := OneMessage(x);
    }

    // ---- commands ----

    method GetVersion(m: Message, changeId: string, min: int, max: int) returns (exit: Exit)
      requires Valid()
      modifies Repr()
      ensures Valid() && fresh(Repr() - old(Repr()))
      ensures Step(View(), exit) == DoVersion(old(View()), m, changeId, min, max)
    {
      var reaction := CallEnv(AskVersion(changeId, min, max));
      match reaction.value
      case Failed(e) => exit := Erred(e);
      case Succeeded(p) => exit := RespondFlush(m.id, p);
    }

    method RecordEffect(m: Message) returns (exit: Exit)
      requires Valid()
      modifies Repr()
      ensures Valid() && fresh(Repr() - old(Repr()))
      ensures Step(View(), exit) == DoSideEffect(old(View()), m)
    {
      hide Call;
      hide RespondAndFlush;
      var outcome := env.Next().value;
      var _ := CallEnv(RecordSideEffect(m.payloads, outcome));
      canceller.Discard(m.id);
      match outcome
      case Failed(e) =>
        PushError(m.id, e);
        exit := Normal;
      case Succeeded(p) =>
        exit := RespondFlush(m.id, p);
        if exit.Erred? {
          exit := Panicking(exit.error, true);
        }
    }

    method CompleteUpdateCommand(m: Message, id: string) returns (exit: Exit)
      requires Valid()
      modifies Repr()
      ensures Valid() && fresh(Repr() - old(Repr()))
      ensures Step(View(), exit) == DoUpdateCompleted(old(View()), m, id)
    {
      if id == "" {
        return Erred("update id is empty, can't complete update");
      }
      if id !in updateCompleteCb {
        return Normal;
      }
      var t := updateCompleteCb[id];
      env := env.Told(CompleteUpdate(t, OutcomeOf(m)));
      updateCompleteCb := updateCompleteCb - {id};
      log := log.(hasty := log.hasty + (if id in updateValidateCb then {t} else {}));
      exit := Normal;
    }

    method ValidateUpdateCommand(m: Message, id: string) returns (exit: Exit)
      requires Valid()
      modifies Repr()
      ensures Valid() && fresh(Repr() - old(Repr()))
      ensures Step(View(), exit) == DoUpdateValidated(old(View()), m, id)
    {
      if id == "" {
        return Erred("update id is empty, can't validate update");
      }
      if id !in updateValidateCb {
        return Normal;
      }
      var t := updateValidateCb[id];
      if !env.replaying && m.failure.Some? {
        env := env.Told(Reject(t, m.failure.value));
      } else {
        env := env.Told(Accept(t));
      }
      updateValidateCb := updateValidateCb - {id};
      if m.failure.Some? {
        updateCompleteCb := updateCompleteCb - {id};
      }
      exit := Normal;
    }

    method CompleteCommand(m: Message)
      requires Valid()
      modifies Repr()
      ensures Valid() && fresh(Repr() - old(Repr()))
      ensures View() == DoComplete(old(View()), m)
    {
      PushResponse(m.id, COMPLETED);
      if m.failure.None? {
        env := env.Told(Complete(m.payloads, None));
      } else {
        env := env.Told(Complete(NoPayloads, m.failure));
      }
    }

    method ContinueCommand(m: Message, name: string, next: ContinueOptions)
      requires Valid()
      modifies Repr()
      ensures Valid() && fresh(Repr() - old(Repr()))
      ensures View() == DoContinueAsNew(old(View()), m, name, next)
    {
      PushResponse(m.id, COMPLETED);
      env := env.Told(CompleteAsNew(name, next, m.payloads, m.header));
    }

    method TryEnv(call: EnvCall) returns (exit: Exit)
      requires Valid()
      modifies Repr()
      ensures Valid() && fresh(Repr() - old(Repr()))
      ensures Step(View(), exit) == Try(old(View()), call)
    {
      var reaction := CallEnv(call);
      exit := if reaction.value.Failed? then Erred(reaction.value.failure) else Normal;
    }

    method UpsertTypedAttributes(attributes: Protocol.Attributes) returns (exit: Exit)
      requires Valid()
      modifies Repr()
      ensures Valid() && fresh(Repr() - old(Repr()))
      ensures Step(View(), exit) == DoUpsertTyped(old(View()), attributes)
    {
      hide Try;
      hide Attributes.Updates;
      hide Attributes.Ends;
      var end, updates := Attributes.Gather(env.conversions, attributes, env.Next().visit);
      if end == Attributes.Crashes {
        return Panicking(NIL_DEREFERENCE, true);
      }
      if end == Attributes.Errs {
        return Erred(BAD_TIME);
      }
      if updates == map[] {
        return Normal;
      }
      exit := TryEnv(UpsertTyped(updates));
    }

    method CancelAndRespond(m: Message, wanted: seq<Id>) returns (exit: Exit)
      requires Valid()
      modifies Repr()
      ensures Valid() && fresh(Repr() - old(Repr()))
      ensures Step(View(), exit) == DoCancel(old(View()), m, wanted)
    {
      CancelCommands(wanted);
      exit := RespondFlush(m.id, COMPLETED);
    }

    /** The operations that can be cancelled. */
    method HandleOperation(m: Message)
      requires Valid() && m.IsCommand()
      requires m.command.value.ExecuteActivity? || m.command.value.ExecuteLocalActivity? || m.command.value.ExecuteChildWorkflow? || m.command.value.NewTimer?
      modifies Repr()
      ensures Valid() && fresh(Repr() - old(Repr()))
      ensures Step(View(), Normal) == Engine.HandleMessage(old(View()), m)
    {
      hide View;
      hide Repr;
      hide DoActivity;
      hide DoLocalActivity;
      hide DoChild;
      hide DoTimer;
      match m.command.value {
        case ExecuteActivity(name, o) => ExecuteActivity(m, name, o);
        case ExecuteLocalActivity(name, o) => ExecuteLocalActivity(m, name, o);
        case ExecuteChildWorkflow(name, o) => ExecuteChildWorkflow(m, name, o);
        case NewTimer(ms, summary) => NewTimer(m, ms, summary);
      }
    }

    /** The commands about other workflows. */
    method HandleExternal(m: Message)
      requires Valid() && m.IsCommand()
      requires m.command.value.SignalExternalWorkflow? || m.command.value.CancelExternalWorkflow?
      modifies Repr()
      ensures Valid() && fresh(Repr() - old(Repr()))
      ensures Step(View(), Normal) == Engine.HandleMessage(old(View()), m)
    {
      hide View;
      hide Repr;
      hide DoSignal;
      hide DoCancelExternal;
      hide Call;
      match m.command.value {
        case SignalExternalWorkflow(_, _, _, _, _) => SignalExternalWorkflow(m, m.command.value);
        case CancelExternalWorkflow(_, _, _) => CancelExternalWorkflow(m, m.command.value);
      }
    }

    /** The commands that talk to the worker at once. */
    method HandleAsking(m: Message) returns (exit: Exit)
      requires Valid() && m.IsCommand()
      requires m.command.value.GetVersion? || m.command.value.SideEffect? || m.command.value.Cancel?
      modifies Repr()
      ensures Valid() && fresh(Repr() - old(Repr()))
      ensures Step(View(), exit) == Engine.HandleMessage(old(View()), m)
    {
      hide View;
      hide Repr;
      hide DoVersion;
      hide DoSideEffect;
      hide DoCancel;
      match m.command.value {
        case GetVersion(changeId, min, max) => exit := GetVersion(m, changeId, min, max);
        case SideEffect => exit := RecordEffect(m);
        case Cancel(wanted) => exit := CancelAndRespond(m, wanted);
      }
    }

    /** The commands that settle an update or the workflow. */
    method HandleSettling(m: Message) returns (exit: Exit)
      requires Valid() && m.IsCommand()
      requires m.command.value.UpdateCompleted? || m.command.value.UpdateValidated? || m.command.value.CompleteWorkflow? || m.command.value.ContinueAsNew?
      modifies Repr()
      ensures Valid() && fresh(Repr() - old(Repr()))
      ensures Step(View(), exit) == Engine.HandleMessage(old(View()), m)
    {
      hide View;
      hide Repr;
      hide DoUpdateCompleted;
      hide DoUpdateValidated;
      hide DoComplete;
      hide DoContinueAsNew;
      hide Call;
      exit := Normal;
      match m.command.value {
        case UpdateCompleted(id) => exit := CompleteUpdateCommand(m, id);
        case UpdateValidated(id) => exit := ValidateUpdateCommand(m, id);
        case CompleteWorkflow => CompleteCommand(m);
        case ContinueAsNew(name, next) => ContinueCommand(m, name, next);
      }
    }

    /** The other commands, answered or refused on the spot. */
    method HandleImmediate(m: Message) returns (exit: Exit)
      requires Valid() && m.IsCommand() && Frames.IsApart(m.command.value)
      requires !Delivery.IsOperation(m.command.value)
      modifies Repr()
      ensures Valid() && fresh(Repr() - old(Repr()))
      ensures Step(View(), exit) == Engine.HandleMessage(old(View()), m)
    {
      hide View;
      hide Repr;
      hide Listen;
      hide DoUpsertTyped;
      hide Try;
      hide Call;
      exit := Normal;
      match m.command.value {
        case GetChildWorkflowExecution(child) => ListenChild(child, m.id);
        case UpsertSearchAttributes(untyped) => exit := TryEnv(Upsert(untyped));
        case UpsertTypedSearchAttributes(attributes) => exit := UpsertTypedAttributes(attributes);
        case Panic(_) =>
          if m.failure.Some? {
            exit := Erred(m.failure.value);
          }
        case UpsertMemo(memo) =>
          if memo != map[] {
            exit := TryEnv(UpsertMemos(memo));
          }
        case _ => exit := Erred("undefined command");
      }
    }

    /** One command of the worker. */
    method HandleMessage(m: Message) returns (exit: Exit)
      requires Valid() && m.IsCommand()
      modifies Repr()
      ensures Valid() && fresh(Repr() - old(Repr()))
      ensures Step(View(), exit) == Engine.HandleMessage(old(View()), m)
    {
      hide Engine.HandleMessage;
      hide View;
      hide Repr;
      var c := m.command.value;
      exit := Normal;
      if c.ExecuteActivity? || c.ExecuteLocalActivity? || c.ExecuteChildWorkflow? || c.NewTimer? {
        HandleOperation(m);
      } else if c.SignalExternalWorkflow? || c.CancelExternalWorkflow? {
        HandleExternal(m);
      } else if c.GetVersion? || c.SideEffect? || c.Cancel? {
        exit := HandleAsking(m);
      } else if c.UpdateCompleted? || c.UpdateValidated? || c.CompleteWorkflow? || c.ContinueAsNew? {
        exit := HandleSettling(m);
      } else {
        exit := HandleImmediate(m);
      }
    }

    // ---- a workflow task ----

    /** The deferred callbacks, in the order they were deferred. */
    method DrainDeferred()
      requires Valid()
      modifies Repr()
      ensures Valid() && fresh(Repr() - old(Repr()))
      ensures View() == DrainCallbacks(old(View()), 0)
    {
      hide RunCallback;
      ghost var start := View();
      var n := |callbacks|;
      for i := 0 to n
        invariant Valid() && fresh(Repr() - old(Repr()))
        invariant n == |callbacks|
        invariant DrainCallbacks(View(), i) == DrainCallbacks(start, 0)
      {
        ghost var before := View();
        var a := callbacks[i];
        RunResult(a);
        CallbacksKept(before, a);
      }
      callbacks := [];
    }

    lemma CallbacksKept(s: State, a: Answer)
      ensures RunCallback(s, a).callbacks == s.callbacks
    {
    }

    /** The callback of one queued update. */
    method InvokeUpdateCallback(q: Request)
      requires Valid()
      modifies Repr()
      ensures Valid() && fresh(Repr() - old(Repr()))
      ensures View() == InvokeQueued(old(View()), q)
    {
      var id := q.token.updateId;
      updateValidateCb := updateValidateCb[id := q.token];
      updateCompleteCb := updateCompleteCb[id := q.token];
      PushCommand(InvokeUpdate(env.info.runId, id, q.name, VALIDATE_EXECUTE), q.input, q.header);
    }

    method InvokeCallbacks(qs: seq<Request>)
      requires Valid()
      modifies Repr()
      ensures Valid() && fresh(Repr() - old(Repr()))
      ensures View() == InvokeAll(old(View()), qs)
    {
      hide InvokeQueued;
      ghost var start := View();
      for i := 0 to |qs|
        invariant Valid() && fresh(Repr() - old(Repr()))
        invariant InvokeAll(View(), qs[i..]) == InvokeAll(start, qs)
      {
        assert qs[i..][0] == qs[i] && qs[i..][1..] == qs[i + 1..];
        InvokeUpdateCallback(qs[i]);
      }
    }

    /** The environment runs every queued callback of a name, in order. */
    method HandleQueued(name: string)
      requires Valid()
      modifies Repr()
      ensures Valid() && fresh(Repr() - old(Repr()))
      ensures View() == DrainName(old(View()), name)
    {
      hide InvokeAll;
      var qs := Named(env.updates, name);
      env := env.Told(HandleQueuedUpdates(name)).(updates := Without(env.updates, name));
      InvokeCallbacks(qs);
      updatesQueue := updatesQueue - {name};
    }

    method HandleNames(order: seq<string>)
      requires Valid()
      modifies Repr()
      ensures Valid() && fresh(Repr() - old(Repr()))
      ensures View() == DrainNames(old(View()), order)
    {
      hide DrainName;
      ghost var start := View();
      for i := 0 to |order|
        invariant Valid() && fresh(Repr() - old(Repr()))
        invariant DrainNames(View(), order[i..]) == DrainNames(start, order)
      {
        assert order[i..][0] == order[i] && order[i..][1..] == order[i + 1..];
        HandleQueued(order[i]);
      }
    }

    /** Handles messages until the pipeline is empty or one of them fails; handling may add to the pipeline. */
    method DrainPipeline() returns (exit: Exit)
      requires Valid()
      modifies Repr()
      ensures Valid() && fresh(Repr() - old(Repr()))
      ensures Step(View(), exit) == RunPipeline(old(View()))
    {
      hide Engine.HandleMessage;
      ghost var start := View();
      while |pipeline| > 0
        invariant Valid() && fresh(Repr() - old(Repr()))
        invariant RunPipeline(View()) == RunPipeline(start)
        decreases View().inbox.Work()
      {
        var m := PopMessage();
        if m.IsCommand() {
          if m.IsUndefinedResponse() {
            pipeline := [];
            return Panicking("undefined response: " + m.command.value.message, false);
          }
          exit := HandleMessage(m);
          if exit.Erred? {
            pipeline := [];
            return Panicking(exit.error, false);
          } else if exit.Panicking? {
            return;
          }
        }
      }
      exit := Normal;
    }

    method PopMessage() returns (m: Message)
      requires Valid() && |pipeline| > 0
      modifies this`pipeline, this`handled
      ensures Valid()
      ensures View() == old(View()).(inbox := old(View()).inbox.Popped()) && m == old(View()).inbox.pipeline[0]
    {
      m := pipeline[0];
      pipeline := pipeline[1..];
      handled := handled + [m];
    }

    /** Up to the first flush of a task. */
    method Prepare(order: seq<string>)
      requires Valid()
      modifies Repr()
      ensures Valid() && fresh(Repr() - old(Repr()))
      ensures View() == BeforeFlush(old(View()), order)
    {
      hide DrainCallbacks;
      hide DrainNames;
      inLoop := true;
      DrainDeferred();
      HandleNames(order);
      updatesQueue := {};
    }

    method RunTask(order: seq<string>) returns (exit: Exit)
      requires Valid()
      modifies Repr()
      ensures Valid() && fresh(Repr() - old(Repr()))
      ensures Step(View(), exit) == Engine.RunTask(old(View()), order)
    {
      hide BeforeFlush;
      hide Flush;
      hide RunPipeline;
      Prepare(order);
      exit := FlushQueue();
      if exit.Erred? {
        exit := Panicking(exit.error, false);
      } else {
        exit := DrainPipeline();
      }
      inLoop := false;
    }

    method TakeTask(reactions: seq<Reaction>, worker: seq<Exchange>, replaying: bool)
      requires Valid()
      modifies this`replies, this`env
      ensures Valid()
      ensures View() == old(View()).(inbox := old(View()).inbox.(replies := worker),
                                     env := old(View()).env.(reactions := reactions, replaying := replaying))
    {
      replies := worker;
      env := env.(reactions := reactions, replaying := replaying);
    }

    /** One workflow task: `order` is the iteration order of the pending update names, the rest is what the environment
        and the worker pool will answer. A panic ends the workflow. */
    method OnWorkflowTaskStarted(order: seq<string>, reactions: seq<Reaction>, worker: seq<Exchange>, replaying: bool)
      requires Valid()
      modifies Repr()
      ensures Valid() && fresh(Repr() - old(Repr()))
      ensures View() == DoTask(old(View()), order, reactions, worker, replaying)
    {
      hide Engine.RunTask;
      TakeTask(reactions, worker, replaying);
      var exit := RunTask(order);
      if exit.Panicking? {
        status := Panicked(exit.error);
        log := log.(panics := log.panics + [exit.error]);
      }
    }

    // ---- the other events ----

    method HandleSignal(name: string, input: Payloads, header: Option<Header>)
      requires Valid()
      modifies Repr()
      ensures Valid() && fresh(Repr() - old(Repr()))
      ensures old(status) == Running ==> View() == Next(old(View()), Signalled(name, input, header))
    {
      PushCommand(InvokeSignal(env.info.runId, name), input, header);
    }

    method HandleCancel()
      requires Valid()
      modifies Repr()
      ensures Valid() && fresh(Repr() - old(Repr()))
      ensures old(status) == Running ==> View() == Next(old(View()), CancelRequested)
    {
      PushCommand(CancelWorkflow(env.info.runId), NoPayloads, header);
    }

    method HandleUpdate(name: string, id: string, input: Payloads, header: Option<Header>)
      requires Valid()
      modifies Repr()
      ensures Valid() && fresh(Repr() - old(Repr()))
      ensures View() == Engine.HandleUpdate(old(View()), name, id, input, header)
    {
      updatesQueue := updatesQueue + {name};
      env := env.(updates := env.updates + [Request(Token(env.tokens, id), name, input, header)], tokens := env.tokens + 1);
    }

    /** Blocks on the worker, outside the queue. */
    method HandleQuery(name: string, args: Payloads, header: Option<Header>, x: Exchange) returns (answer: Outcome)
      requires Valid()
      modifies Repr()
      ensures Valid() && fresh(Repr() - old(Repr()))
      ensures old(status) == Running ==> View() == Next(old(View()), Queried(name, args, header))
      ensures answer == QueryAnswer(x)
    {
      var r := RunCommand(InvokeQuery(env.info.runId, name), args, header, x);
      if r.error.Some? {
        return Failed(r.error.value);
      }
      answer := OutcomeOf(r.messages[0]);
    }

    method StackTrace(x: Exchange, read: string -> Text) returns (text: string)
      requires Valid()
      modifies Repr()
      ensures Valid() && fresh(Repr() - old(Repr()))
      ensures old(status) == Running ==> View() == Next(old(View()), StackTraced)
      ensures text == StackTraceText(x, read)
    {
      var r := RunCommand(GetStackTrace(env.info.runId), NoPayloads, header, x);
      if r.error.Some? {
        return r.error.value;
      }
      var payloads := r.messages[0].payloads;
      if payloads.NoPayloads? || |payloads.items| == 0 {
        return "";
      }
      var t := read(payloads.items[0]);
      text := if t.Read? then t.text else t.error;
    }

    /** The environment runs every update still queued, name by name. */
    method RunUnhandledUpdates(order: seq<string>)
      requires Valid()
      modifies Repr()
      ensures Valid() && fresh(Repr() - old(Repr()))
      ensures View() == DrainUnhandled(old(View()), order)
      ensures env.info == old(env.info) && header == old(header)
    {
      hide DrainNames;
      var told := env.trace + [DrainUnhandledUpdates];
      ghost var start := View();
      HandleNames(order);
      env := env.(trace := told);
      Pipeline.DrainNamesFrame(start, order);
    }

    /** `order` is the order in which the environment runs the names of unhandled updates. */
    method Close(order: seq<string>, x: Exchange)
      requires Valid()
      modifies Repr()
      ensures Valid() && fresh(Repr() - old(Repr()))
      ensures View() == DoClose(old(View()), order)
    {
      hide DrainUnhandled;
      hide Wrap;
      hide Single;
      RunUnhandledUpdates(order);
      ForgetCompletions();
      var _ := RunCommand(DestroyWorkflow(env.info.runId), NoPayloads, header, x);
      DropQueue();
    }

    /** Pending names and completions go; validations stay. */
    method ForgetCompletions()
      requires Valid()
      modifies this`updatesQueue, this`updateCompleteCb
      ensures Valid()
      ensures View() == old(View()).(updates := old(View()).updates.(names := {}, complete := map[]))
    {
      updatesQueue := {};
      updateCompleteCb := map[];
    }

    /** What is still queued is never sent. */
    method DropQueue()
      requires Valid()
      modifies Repr()
      ensures Valid() && fresh(Repr() - old(Repr()))
      ensures View() == old(View()).(out := old(View()).out.Dropped(), status := Closed)
    {
      dropped := dropped + mq.Contents();
      mq.Flush();
      status := Closed;
    }

    // ---- events ----

    /** One event, whatever it is; `x` is what the worker answers to a command of its own, if the event sends one. */
    method Happen(e: Event, x: Exchange)
      requires Valid()
      modifies Repr()
      ensures Valid() && fresh(Repr() - old(Repr()))
      ensures View() == Next(old(View()), e)
    {
      hide DoClose;
      hide DoTask;
      hide Fire;
      hide Wrap;
      hide Single;
      hide QueryAnswer;
      hide StackTraceText;
      if e.Closes? {
        if status != Closed && Attributes.Iteration(e.order, NamesOf(env.updates)) {
          Close(e.order, x);
        }
      } else if status == Running {
        match e {
          case Fires(f) => Fires(f);
          case Signalled(name, input, h) => HandleSignal(name, input, h);
          case CancelRequested => HandleCancel();
          case UpdateRequested(name, id, input, h) => HandleUpdate(name, id, input, h);
          case Queried(name, args, h) => var _ := HandleQuery(name, args, h, x);
          case StackTraced => var _ := StackTrace(x, _ => Unreadable(""));
          case Task(order, reactions, worker, replaying) =>
            if Attributes.Iteration(order, updatesQueue) {
              OnWorkflowTaskStarted(order, reactions, worker, replaying);
            }
        }
      }
    }

    /** A whole run, event by event. */
    method Drive(events: seq<Event>, answers: seq<Exchange>)
      requires Valid()
      modifies Repr()
      ensures Valid() && fresh(Repr() - old(Repr()))
      ensures View() == Run(old(View()), events)
    {
      hide Next;
      ghost var start := View();
      for i := 0 to |events|
        invariant Valid() && fresh(Repr() - old(Repr()))
        invariant View() == Run(start, events[..i])
      {
        Happen(events[i], if i < |answers| then answers[i] else NoResponse);
        assert events[..i + 1][..i] == events[..i];
      }
      assert events[..|events|] == events;
    }
  }

  /** A workflow created, executed and driven through any events is in the state the run prescribes, so what holds over
      every run holds of the object. */
  method RunWorkflow(counter: Queue.Counter, x: Launch, events: seq<Event>, answers: seq<Exchange>) returns (w: Workflow)
    requires counter.Valid() && counter.total == x.count && counter.others == x.gaps
    modifies counter
    ensures w.Valid() && w.View() == Run(Executed(x), events)
    ensures w.status != Closed ==> Delivery.Inv(w.View())
  {
    hide Run;
    hide Delivery.Inv;
    w := new Workflow(counter, x.env, x.header);
    w.Execute(x.tsa, x.order, x.input, x.last);
    assert w.View() == Executed(x) by {
      hide Executed;
      hide Blank;
    }
    w.Drive(events, answers);
    if w.status != Closed {
      Delivery.ExecutedHolds(x);
      Delivery.RunKeeps(Executed(x), events);
    }
  }
}
