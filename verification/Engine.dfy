/** The workflow engine as a state machine over values: what every handler does to the whole state.

    The SDK environment and the worker appear through their answers: an event carries, where it needs them, the
    worker's replies and the environment's reactions in the order they are consumed. `pushed`, `sent`, `dropped`,
    `asked`, `received`, `handled`, `trace`, `heard` and the `log` are histories that no step reads. */
module Engine {
  import opened Protocol
  import Attributes
  import Decimal
  import Registry

  type Error = string

  // ---- handlers and answers ----

  /** The n-th operation started in the environment, on behalf of command `id`. */
  datatype Handle = Handle(n: nat, id: Id)

  datatype Outcome = Succeeded(payloads: Payloads) | Failed(failure: Failure)

  datatype Source = Handler(handle: Handle) | Listener(child: Id)

  /** A result handler called with its outcome: the closure kept in `callbacks`. */
  datatype Answer = Answer(source: Source, id: Id, outcome: Outcome)

  function AnswerMessage(a: Answer): Message {
    match a.outcome
    case Succeeded(p) => Response(a.id, p)
    case Failed(f) => ErrorResponse(a.id, f)
  }

  /** The cancel function of an operation. */
  datatype Cancellable =
    | CancelActivity(handle: Handle)
    | CancelLocalActivity(handle: Handle)
    | CancelChild(handle: Handle, namespace: string, workflowId: string)
    | CancelTimer(handle: Handle, timerId: bool)

  /** The n-th update request of the run. */
  datatype Token = Token(n: nat, updateId: string)

  datatype Request = Request(token: Token, name: string, input: Payloads, header: Option<Header>)

  // ---- the environment ----

  /** The calls the engine makes. Handles label them with the operation they are about. */
  datatype EnvCall =
    | StartActivity(handle: Handle, name: string, activity: ActivityOptions, input: Payloads, header: Option<Header>)
    | StartLocalActivity(handle: Handle, name: string, local: LocalOptions, input: Payloads, header: Option<Header>)
    | StartChild(handle: Handle, name: string, child: ChildOptions, input: Payloads, header: Option<Header>)
    | StartTimer(handle: Handle, nanoseconds: int, summary: string)
    | SignalExternal(handle: Handle, namespace: string, workflowId: string, runId: string, signal: string,
                     input: Payloads, header: Option<Header>, childOnly: bool)
    | CancelExternal(handle: Handle, namespace: string, workflowId: string, runId: string)
    | AskVersion(changeId: string, min: int, max: int)
    | RecordSideEffect(input: Payloads, outcome: Outcome)
    | Complete(result: Payloads, failure: Option<Failure>)
    | CompleteAsNew(name: string, next: ContinueOptions, input: Payloads, header: Option<Header>)
    | Upsert(untyped: map<string, Any>)
    | UpsertTyped(updates: map<string, Attributes.Update>)
    | UpsertMemos(memo: map<string, Any>)
    | RequestCancelActivity(handle: Handle)
    | RequestCancelLocalActivity(handle: Handle)
    | RequestCancelChild(handle: Handle, namespace: string, workflowId: string)
    | RequestCancelTimer(handle: Handle)
    | HandleQueuedUpdates(name: string)
    | Accept(token: Token)
    | Reject(token: Token, reason: Failure)
    | CompleteUpdate(token: Token, outcome: Outcome)
    | DrainUnhandledUpdates

  /** A handler the environment calls: the result of an operation, or a child having started. */
  datatype Firing = Result(handle: Handle, outcome: Outcome) | Started(handle: Handle, outcome: Outcome)

  /** The answer to one environment call, and the handlers it calls before it returns; before that, the order in which the
      map the call is made of is visited, if it is made of one. */
  datatype Reaction = Reaction(fired: seq<Firing>, value: Outcome, timerId: bool, visit: seq<string>)

  /** A call that was answered, and what it was answered. */
  datatype Hearing = Hearing(call: EnvCall, value: Outcome, timerId: bool)

  datatype Env = Env(
    info: Info,
    conversions: Attributes.Conversions,
    replaying: bool,
    reactions: seq<Reaction>,
    started: seq<Handle>,
    pending: set<Handle>,
    starting: set<Handle>,
    updates: seq<Request>,
    tokens: nat,
    trace: seq<EnvCall>,
    heard: seq<Hearing>)
  {
    function Next(): Reaction {
      if reactions == [] then Reaction([], Succeeded(NoPayloads), false, []) else reactions[0]
    }

    function Called(call: EnvCall): Env {
      this.(trace := trace + [call], heard := heard + [Hearing(call, Next().value, Next().timerId)],
            reactions := if reactions == [] then [] else reactions[1..])
    }

    /** A call that has no answer. */
    function Told(call: EnvCall): Env {
      this.(trace := trace + [call])
    }
  }

  // ---- the outbound side ----

  /** A message of the engine's own, or the answer of a handler. */
  datatype Push = Own(msg: Message) | Reply(answer: Answer)

  function MessageOf(p: Push): Message {
    match p
    case Own(m) => m
    case Reply(a) => AnswerMessage(a)
  }

  /** `count` is the number of ids the process had drawn when this workflow last drew one, `gaps` how many the other
      workflows of the process draw before each of its next ones. */
  datatype Outbox = Outbox(
    queue: seq<Message>,
    count: nat,
    gaps: seq<nat>,
    pushed: seq<Push>,
    sent: seq<seq<Message>>,
    dropped: seq<Message>,
    asked: seq<Message>)
  {
    function Pushed(p: Push): Outbox {
      this.(queue := queue + [MessageOf(p)], pushed := pushed + [p])
    }

    /** One atomic draw: whatever the others drew since the last one, and one more. */
    function Drew(): Outbox {
      if gaps == [] then this.(count := count + 1) else this.(count := count + gaps[0] + 1, gaps := gaps[1..])
    }

    function Command(command: Protocol.Command, payloads: Payloads, header: Option<Header>): Outbox {
      var o := Drew();
      o.Pushed(Own(CommandMessage(Wrap(o.count), command, payloads, header)))
    }

    function Asked(command: Protocol.Command, payloads: Payloads, header: Option<Header>): Outbox {
      var o := Drew();
      o.(asked := asked + [CommandMessage(Wrap(o.count), command, payloads, header)])
    }

    function Sent(): Outbox {
      this.(queue := [], sent := sent + [queue])
    }

    function Dropped(): Outbox {
      this.(queue := [], dropped := dropped + queue)
    }
  }

  // ---- the inbound side ----

  /** A frame of a reply, as the codec's message parser answers for it. */
  datatype Frame = Parsed(message: Message) | Malformed(error: Error)

  /** What one exchange with the worker pool ends in. */
  datatype Exchange =
    | EncodeFailed(error: Error)
    | ExecFailed(error: Error)
    | WorkerFailed(error: Error)
    | Streamed
    | NoResponse
    | Garbled(error: Error)
    | Body(frames: seq<Frame>)

  datatype Incoming = Incoming(messages: seq<Message>, error: Option<Error>)

  /** Decoding stops at the first malformed frame, with the frames before it already parsed. */
  function Decoded(frames: seq<Frame>): (r: Incoming)
    ensures |r.messages| <= |frames|
  {
    if frames == [] then Incoming([], None)
    else
      var last := frames[|frames| - 1];
      var before := Decoded(frames[..|frames| - 1]);
      if before.error.Some? then before
      else if last.Malformed? then before.(error := Some(last.error))
      else before.(messages := before.messages + [last.message])
  }

  function Answered(x: Exchange): Incoming {
    match x
    case EncodeFailed(e) => Incoming([], Some(e))
    case ExecFailed(e) => Incoming([], Some(e))
    case WorkerFailed(e) => Incoming([], Some(e))
    case Streamed => Incoming([], Some("streaming is not supported"))
    case NoResponse => Incoming([], Some("worker empty response"))
    case Garbled(e) => Incoming([], Some(e))
    case Body(frames) => Decoded(frames)
  }

  function FrameCount(replies: seq<Exchange>): nat {
    if replies == [] then 0
    else (if replies[0].Body? then |replies[0].frames| else 0) + FrameCount(replies[1..])
  }

  datatype Inbox = Inbox(pipeline: seq<Message>, replies: seq<Exchange>, received: seq<Message>, handled: seq<Message>)
  {
    function Next(): Exchange {
      if replies == [] then NoResponse else replies[0]
    }

    function Consumed(): Inbox {
      this.(replies := if replies == [] then [] else replies[1..])
    }

    function Got(messages: seq<Message>): Inbox {
      this.(pipeline := pipeline + messages, received := received + messages)
    }

    function Popped(): Inbox
      requires pipeline != []
    {
      this.(pipeline := pipeline[1..], handled := handled + [pipeline[0]])
    }

    function Cleared(): Inbox {
      this.(pipeline := [])
    }

    /** What is left to handle in this task: it bounds the pipeline loop. */
    function Work(): nat {
      |pipeline| + FrameCount(replies)
    }
  }

  // ---- the whole state ----

  datatype Children = Children(entries: map<Id, Outcome>, listeners: map<Id, Id>)

  datatype Updates = Updates(names: set<string>, validate: map<string, Token>, complete: map<string, Token>)

  /** A cancel function being registered or run, and a result handler being called. */
  datatype Mark = Registered(handle: Handle) | Fired(handle: Handle) | Cancelled(handle: Handle)

  /** `fired` are the answers handlers were called with, `hasty` the requests completed before they were validated, `ops`
      what the child-id registry was asked to do, and `panics` what workflow tasks panicked with. */
  datatype Log = Log(fired: seq<Answer>, ledger: seq<Mark>, hasty: set<Token>, ops: seq<Registry.Op<Outcome, Id>>, panics: seq<Error>)

  datatype Status = Running | Panicked(error: Error) | Closed

  datatype State = State(
    out: Outbox,
    inbox: Inbox,
    inLoop: bool,
    callbacks: seq<Answer>,
    canceller: map<Id, Cancellable>,
    children: Children,
    updates: Updates,
    childSeq: nat,
    header: Option<Header>,
    env: Env,
    log: Log,
    status: Status)

  /** How a handler leaves: normally, with an error for its caller, or panicking. The pipeline loop clears the pipeline
      when it panics over an error; a panic `inside` a handler or a callback passes it by. */
  datatype Exit = Normal | Erred(error: Error) | Panicking(error: Error, inside: bool)

  datatype Step = Step(state: State, exit: Exit)

  // ---- result handlers ----

  /** The body of a result handler: forget the cancel function, queue the answer. */
  function RunCallback(s: State, a: Answer): State {
    s.(canceller := s.canceller - {a.id}, out := s.out.Pushed(Reply(a)))
  }

  /** A result handler called: at once in the loop, deferred to the next task outside it. */
  function Deliver(s: State, a: Answer): State {
    var s := s.(log := s.log.(fired := s.log.fired + [a]));
    if s.inLoop then RunCallback(s, a) else s.(callbacks := s.callbacks + [a])
  }

  function EntryStored(s: State, child: Id, outcome: Outcome): State {
    s.(children := s.children.(entries := s.children.entries[child := outcome]),
       log := s.log.(ops := s.log.ops + [Registry.Push(child, outcome)]))
  }

  function PushChild(s: State, child: Id, outcome: Outcome): State {
    var s1 := EntryStored(s, child, outcome);
    if child in s.children.listeners
    then Deliver(s1, Answer(Listener(child), s.children.listeners[child], outcome))
    else s1
  }

  function ListenerStored(s: State, child: Id, id: Id): State {
    s.(children := s.children.(listeners := s.children.listeners[child := id]),
       log := s.log.(ops := s.log.ops + [Registry.Listen(child, id)]))
  }

  function Listen(s: State, child: Id, id: Id): State {
    var s1 := ListenerStored(s, child, id);
    if child in s.children.entries
    then Deliver(s1, Answer(Listener(child), id, s.children.entries[child]))
    else s1
  }

  /** The environment calls a handler it holds, and gives it up. Other handlers cannot be called. */
  function Fire(s: State, f: Firing): State {
    match f
    case Result(h, o) =>
      if h !in s.env.pending then s
      else
        var s1 := s.(env := s.env.(pending := s.env.pending - {h}),
                     log := s.log.(ledger := s.log.ledger + [Fired(h)]));
        Deliver(s1, Answer(Handler(h), h.id, o))
    case Started(h, o) =>
      if h !in s.env.starting then s
      else PushChild(s.(env := s.env.(starting := s.env.starting - {h})), h.id, o)
  }

  function FireAll(s: State, fs: seq<Firing>): (r: State)
    ensures r.inbox == s.inbox
    decreases |fs|
  {
    if fs == [] then s else FireAll(Fire(s, fs[0]), fs[1..])
  }

  // ---- operations of the environment ----

  /** A call whose reaction may call handlers. */
  function Call(s: State, call: EnvCall): (r: State)
    ensures r.inbox == s.inbox
  {
    FireAll(s.(env := s.env.Called(call)), s.env.Next().fired)
  }

  function NextHandle(s: State, id: Id): Handle {
    Handle(|s.env.started|, id)
  }

  /** The environment takes over an operation and its handlers, before it answers the call. */
  function Begin(s: State, id: Id, child: bool): State {
    var h := NextHandle(s, id);
    s.(env := s.env.(started := s.env.started + [h],
                     pending := s.env.pending + {h},
                     starting := if child then s.env.starting + {h} else s.env.starting))
  }

  /** Registering happens after the call, whatever the call did. */
  function Register(s: State, id: Id, c: Cancellable): State {
    s.(canceller := s.canceller[id := c], log := s.log.(ledger := s.log.ledger + [Registered(c.handle)]))
  }

  function DefaultQueue(s: State, taskQueue: string): string {
    if taskQueue == "" then s.env.info.taskQueue else taskQueue
  }

  const MINUTE: int := 60_000_000_000

  function DefaultTimeout(t: int): int {
    if t == 0 then MINUTE else t
  }

  function DoActivity(s: State, m: Message, name: string, o: ActivityOptions): (r: State)
    ensures r.inbox == s.inbox
  {
    var h := NextHandle(s, m.id);
    var params := o.(taskQueue := DefaultQueue(s, o.taskQueue));
    Register(Call(Begin(s, m.id, false), StartActivity(h, name, params, m.payloads, m.header)), m.id, CancelActivity(h))
  }

  function DoLocalActivity(s: State, m: Message, name: string, o: LocalOptions): (r: State)
    ensures r.inbox == s.inbox
  {
    var h := NextHandle(s, m.id);
    var params := LocalOptions(DefaultTimeout(o.scheduleToClose), DefaultTimeout(o.startToClose), o.rest);
    Register(Call(Begin(s, m.id, false), StartLocalActivity(h, name, params, m.payloads, m.header)), m.id, CancelLocalActivity(h))
  }

  function ChildId(runId: string, n: nat): string {
    runId + "_" + Decimal.Itoa(Signed(n))
  }

  /** The k-th child without an id of its own gets one derived from the run. */
  function NameChild(s: State): State {
    s.(childSeq := Wrap(s.childSeq + 1))
  }

  function DoChild(s: State, m: Message, name: string, o: ChildOptions): (r: State)
    ensures r.inbox == s.inbox
  {
    var s1 := if o.workflowId == "" then NameChild(s) else s;
    var id := if o.workflowId == "" then ChildId(s.env.info.runId, s1.childSeq) else o.workflowId;
    var h := NextHandle(s1, m.id);
    var params := o.(taskQueue := DefaultQueue(s, o.taskQueue), workflowId := id);
    Register(Call(Begin(s1, m.id, true), StartChild(h, name, params, m.payloads, m.header)), m.id, CancelChild(h, o.namespace, id))
  }

  function DoTimer(s: State, m: Message, ms: int, summary: string): (r: State)
    ensures r.inbox == s.inbox
  {
    var h := NextHandle(s, m.id);
    Register(Call(Begin(s, m.id, false), StartTimer(h, Signed(ms * 1_000_000), summary)), m.id, CancelTimer(h, s.env.Next().timerId))
  }

  function DoSignal(s: State, m: Message, c: Command): (r: State)
    requires c.SignalExternalWorkflow?
    ensures r.inbox == s.inbox
  {
    var h := NextHandle(s, m.id);
    Call(Begin(s, m.id, false),
         SignalExternal(h, c.namespace, c.workflowId, c.runId, c.signal, m.payloads, m.header, c.childOnly))
  }

  function DoCancelExternal(s: State, m: Message, c: Command): (r: State)
    requires c.CancelExternalWorkflow?
    ensures r.inbox == s.inbox
  {
    Call(Begin(s, m.id, false), CancelExternal(NextHandle(s, m.id), c.namespace, c.workflowId, c.runId))
  }

  // ---- cancellation ----

  /** A timer the environment gave no id to has nothing to cancel. */
  function RunCancel(s: State, c: Cancellable): (r: State)
    ensures r.inbox == s.inbox
  {
    match c
    case CancelActivity(h) => Call(s, RequestCancelActivity(h))
    case CancelLocalActivity(h) => Call(s, RequestCancelLocalActivity(h))
    case CancelChild(h, namespace, workflowId) => Call(s, RequestCancelChild(h, namespace, workflowId))
    case CancelTimer(h, timerId) => if timerId then Call(s, RequestCancelTimer(h)) else s
  }

  function CancelOne(s: State, id: Id): (r: State)
    ensures r.inbox == s.inbox
  {
    if id !in s.canceller then s
    else
      var c := s.canceller[id];
      RunCancel(s.(canceller := s.canceller - {id}, log := s.log.(ledger := s.log.ledger + [Cancelled(c.handle)])), c)
  }

  function CancelIds(s: State, ids: seq<Id>): (r: State)
    ensures r.inbox == s.inbox
    decreases |ids|
  {
    if ids == [] then s else CancelIds(CancelOne(s, ids[0]), ids[1..])
  }

  // ---- exchanges with the worker ----

  const COMPLETED := Payloads(["completed"])

  function Respond(s: State, id: Id, payloads: Payloads): State {
    s.(out := s.out.Pushed(Own(Response(id, payloads))))
  }

  /** Send the queue and take in the whole reply, or change nothing but the worker's next answer. */
  function Flush(s: State): (r: Step)
    ensures r.state.inbox.Work() <= s.inbox.Work()
    ensures !r.exit.Panicking?
  {
    if s.out.queue == [] then Step(s, Normal)
    else
      var incoming := Answered(s.inbox.Next());
      var s1 := s.(inbox := s.inbox.Consumed());
      if incoming.error.Some? then Step(s1, Erred(incoming.error.value))
      else Step(s1.(out := s1.out.Sent(), inbox := s1.inbox.Got(incoming.messages)), Normal)
  }

  function RespondAndFlush(s: State, id: Id, payloads: Payloads): (r: Step)
    ensures r.state.inbox.Work() <= s.inbox.Work()
  {
    Flush(Respond(s, id, payloads))
  }

  function DoVersion(s: State, m: Message, changeId: string, min: int, max: int): (r: Step)
    ensures r.state.inbox.Work() <= s.inbox.Work()
  {
    var version := s.env.Next().value;
    var s1 := Call(s, AskVersion(changeId, min, max));
    match version
    case Failed(e) => Step(s1, Erred(e))
    case Succeeded(p) => RespondAndFlush(s1, m.id, p)
  }

  /** The side-effect callback runs inside the call; a failed flush there panics. */
  function DoSideEffect(s: State, m: Message): (r: Step)
    ensures r.state.inbox.Work() <= s.inbox.Work()
  {
    var outcome := s.env.Next().value;
    var s1 := Call(s, RecordSideEffect(m.payloads, outcome));
    var s2 := s1.(canceller := s1.canceller - {m.id});
    match outcome
    case Failed(e) => Step(s2.(out := s2.out.Pushed(Own(ErrorResponse(m.id, e)))), Normal)
    case Succeeded(p) =>
      var r := RespondAndFlush(s2, m.id, p);
      if r.exit.Erred? then r.(exit := Panicking(r.exit.error, true)) else r
  }

  function DoCancel(s: State, m: Message, ids: seq<Id>): (r: Step)
    ensures r.state.inbox.Work() <= s.inbox.Work()
  {
    RespondAndFlush(CancelIds(s, ids), m.id, COMPLETED)
  }

  // ---- updates ----

  function OutcomeOf(m: Message): Outcome {
    if m.failure.Some? then Failed(m.failure.value) else Succeeded(m.payloads)
  }

  function DoUpdateCompleted(s: State, m: Message, id: string): Step {
    if id == "" then Step(s, Erred("update id is empty, can't complete update"))
    else if id !in s.updates.complete then Step(s, Normal)
    else
      var t := s.updates.complete[id];
      Step(s.(env := s.env.Told(CompleteUpdate(t, OutcomeOf(m))),
              updates := s.updates.(complete := s.updates.complete - {id}),
              log := s.log.(hasty := s.log.hasty + (if id in s.updates.validate then {t} else {}))), Normal)
  }

  function DoUpdateValidated(s: State, m: Message, id: string): Step {
    if id == "" then Step(s, Erred("update id is empty, can't validate update"))
    else if id !in s.updates.validate then Step(s, Normal)
    else
      var t := s.updates.validate[id];
      var verdict := if !s.env.replaying && m.failure.Some? then Reject(t, m.failure.value) else Accept(t);
      Step(s.(env := s.env.Told(verdict),
              updates := s.updates.(validate := s.updates.validate - {id},
                                    complete := if m.failure.Some? then s.updates.complete - {id} else s.updates.complete)), Normal)
  }

  const VALIDATE_EXECUTE := "validate_execute"

  /** The callback the environment keeps for a queued update. */
  function InvokeQueued(s: State, q: Request): State {
    var id := q.token.updateId;
    s.(updates := s.updates.(validate := s.updates.validate[id := q.token], complete := s.updates.complete[id := q.token]),
       out := s.out.Command(InvokeUpdate(s.env.info.runId, id, q.name, VALIDATE_EXECUTE), q.input, q.header))
  }

  function InvokeAll(s: State, qs: seq<Request>): State
    decreases |qs|
  {
    if qs == [] then s else InvokeAll(InvokeQueued(s, qs[0]), qs[1..])
  }

  function Named(qs: seq<Request>, name: string): seq<Request> {
    if qs == [] then []
    else Named(qs[..|qs| - 1], name) + (if qs[|qs| - 1].name == name then [qs[|qs| - 1]] else [])
  }

  function Without(qs: seq<Request>, name: string): seq<Request> {
    if qs == [] then []
    else Without(qs[..|qs| - 1], name) + (if qs[|qs| - 1].name == name then [] else [qs[|qs| - 1]])
  }

  /** HandleQueuedUpdates(name), and the name struck off. */
  function DrainName(s: State, name: string): State {
    var qs := Named(s.env.updates, name);
    var s1 := s.(env := s.env.Told(HandleQueuedUpdates(name)).(updates := Without(s.env.updates, name)));
    var s2 := InvokeAll(s1, qs);
    s2.(updates := s2.updates.(names := s2.updates.names - {name}))
  }

  function DrainNames(s: State, order: seq<string>): State
    decreases |order|
  {
    if order == [] then s else DrainNames(DrainName(s, order[0]), order[1..])
  }

  function DrainUpdates(s: State, order: seq<string>): State {
    var s1 := DrainNames(s, order);
    s1.(updates := s1.updates.(names := {}))
  }

  // ---- the other commands ----

  function DoComplete(s: State, m: Message): State {
    var s1 := Respond(s, m.id, COMPLETED);
    s1.(env := s1.env.Told(if m.failure.None? then Complete(m.payloads, None) else Complete(NoPayloads, m.failure)))
  }

  function DoContinueAsNew(s: State, m: Message, name: string, next: ContinueOptions): State {
    var s1 := Respond(s, m.id, COMPLETED);
    s1.(env := s1.env.Told(CompleteAsNew(name, next, m.payloads, m.header)))
  }

  /** A call that may fail. */
  function Try(s: State, call: EnvCall): (r: Step)
    ensures r.state.inbox == s.inbox
  {
    var value := s.env.Next().value;
    Step(Call(s, call), if value.Failed? then Erred(value.failure) else Normal)
  }

  const BAD_TIME: Error := "failed to parse time into RFC3339"
  const NIL_DEREFERENCE: Error := "nil pointer dereference"

  /** The loop over the attributes, then the call. A null attribute is dereferenced. */
  function DoUpsertTyped(s: State, attributes: Protocol.Attributes): (r: Step)
    ensures r.state.inbox == s.inbox
  {
    match Attributes.Ends(s.env.conversions, attributes, s.env.Next().visit)
    case Crashes => Step(s, Panicking(NIL_DEREFERENCE, true))
    case Errs => Step(s, Erred(BAD_TIME))
    case Finishes =>
      var updates := Attributes.Updates(s.env.conversions, attributes);
      if updates == map[] then Step(s, Normal) else Try(s, UpsertTyped(updates))
  }

  function HandleMessage(s: State, m: Message): (r: Step)
    requires m.IsCommand()
    ensures r.state.inbox.Work() <= s.inbox.Work()
  {
    match m.command.value
    case ExecuteActivity(name, o) => Step(DoActivity(s, m, name, o), Normal)
    case ExecuteLocalActivity(name, o) => Step(DoLocalActivity(s, m, name, o), Normal)
    case ExecuteChildWorkflow(name, o) => Step(DoChild(s, m, name, o), Normal)
    case GetChildWorkflowExecution(child) => Step(Listen(s, child, m.id), Normal)
    case NewTimer(ms, summary) => Step(DoTimer(s, m, ms, summary), Normal)
    case GetVersion(changeId, min, max) => DoVersion(s, m, changeId, min, max)
    case SideEffect => DoSideEffect(s, m)
    case UpdateCompleted(id) => DoUpdateCompleted(s, m, id)
    case UpdateValidated(id) => DoUpdateValidated(s, m, id)
    case CompleteWorkflow => Step(DoComplete(s, m), Normal)
    case ContinueAsNew(name, next) => Step(DoContinueAsNew(s, m, name, next), Normal)
    case UpsertSearchAttributes(untyped) => Try(s, Upsert(untyped))
    case UpsertTypedSearchAttributes(attributes) => DoUpsertTyped(s, attributes)
    case SignalExternalWorkflow(_, _, _, _, _) => Step(DoSignal(s, m, m.command.value), Normal)
    case CancelExternalWorkflow(_, _, _) => Step(DoCancelExternal(s, m, m.command.value), Normal)
    case Cancel(ids) => DoCancel(s, m, ids)
    case Panic(_) => Step(s, if m.failure.Some? then Erred(m.failure.value) else Normal)
    case UpsertMemo(memo) => if memo == map[] then Step(s, Normal) else Try(s, UpsertMemos(memo))
    case _ => Step(s, Erred("undefined command"))
  }

  // ---- a workflow task ----

  function DrainCallbacks(s: State, i: nat): (r: State)
    requires i <= |s.callbacks|
    ensures r.inbox == s.inbox && r.updates == s.updates && r.env == s.env && r.callbacks == [] && r.inLoop == s.inLoop
    decreases |s.callbacks| - i
  {
    if i == |s.callbacks| then s.(callbacks := [])
    else DrainCallbacks(RunCallback(s, s.callbacks[i]), i + 1)
  }

  function RunPipeline(s: State): (r: Step)
    ensures !r.exit.Erred?
    decreases s.inbox.Work()
  {
    if s.inbox.pipeline == [] then Step(s, Normal)
    else
      var m := s.inbox.pipeline[0];
      var s1 := s.(inbox := s.inbox.Popped());
      if !m.IsCommand() then RunPipeline(s1)
      else if m.IsUndefinedResponse() then
        Step(s1.(inbox := s1.inbox.Cleared()), Panicking("undefined response: " + m.command.value.message, false))
      else
        var r := HandleMessage(s1, m);
        match r.exit
        case Normal => RunPipeline(r.state)
        case Erred(e) => Step(r.state.(inbox := r.state.inbox.Cleared()), Panicking(e, false))
        case Panicking(_, _) => r
  }

  /** The state in which a task first talks to the worker. */
  function BeforeFlush(s: State, order: seq<string>): State {
    DrainUpdates(DrainCallbacks(s.(inLoop := true), 0), order)
  }

  function RunTask(s: State, order: seq<string>): (r: Step)
    ensures !r.exit.Erred?
  {
    var f := Flush(BeforeFlush(s, order));
    var r := if f.exit.Erred? then f.(exit := Panicking(f.exit.error, false)) else RunPipeline(f.state);
    r.(state := r.state.(inLoop := false))
  }

  // ---- single commands ----

  /** The one message a single command must be answered with. */
  function Single(x: Exchange): Incoming {
    var r := Answered(x);
    if r.error.Some? then r
    else if |r.messages| != 1 then Incoming([], Some("unexpected pool response"))
    else r
  }

  function RunCommand(s: State, c: Command, payloads: Payloads, header: Option<Header>): State {
    s.(out := s.out.Asked(c, payloads, header))
  }

  /** What the data converter makes of a payload item. */
  datatype Text = Read(text: string) | Unreadable(error: Error)

  /** What a stack trace request returns to its caller. */
  function StackTraceText(x: Exchange, read: string -> Text): string {
    var r := Single(x);
    if r.error.Some? then r.error.value
    else if |r.messages| != 1 || r.messages[0].payloads.NoPayloads? || r.messages[0].payloads.items == [] then ""
    else match read(r.messages[0].payloads.items[0])
      case Read(text) => text
      case Unreadable(e) => e
  }

  /** What a query returns to its caller. */
  function QueryAnswer(x: Exchange): Outcome {
    var r := Single(x);
    if r.error.Some? then Failed(r.error.value) else if |r.messages| != 1 then Failed("") else OutcomeOf(r.messages[0])
  }

  // ---- events ----

  datatype Event =
    | Fires(firing: Firing)
    | Signalled(name: string, input: Payloads, header: Option<Header>)
    | CancelRequested
    | UpdateRequested(name: string, id: string, input: Payloads, header: Option<Header>)
    | Queried(name: string, args: Payloads, header: Option<Header>)
    | StackTraced
    | Task(order: seq<string>, reactions: seq<Reaction>, replies: seq<Exchange>, replaying: bool)
    | Closes(order: seq<string>)

  function HandleUpdate(s: State, name: string, id: string, input: Payloads, header: Option<Header>): State {
    var q := Request(Token(s.env.tokens, id), name, input, header);
    s.(updates := s.updates.(names := s.updates.names + {name}),
       env := s.env.(updates := s.env.updates + [q], tokens := s.env.tokens + 1))
  }

  function NamesOf(qs: seq<Request>): set<string> {
    set i | 0 <= i < |qs| :: qs[i].name
  }

  /** The environment runs every queued update itself, in one call. */
  function DrainUnhandled(s: State, order: seq<string>): State {
    var s1 := DrainNames(s, order);
    s1.(env := s1.env.(trace := s.env.trace + [DrainUnhandledUpdates]))
  }

  /** Queued updates are run into the queue, their completions forgotten, and the queue is dropped unsent. */
  function DoClose(s: State, order: seq<string>): State {
    var s1 := DrainUnhandled(s, order);
    var s2 := s1.(updates := s1.updates.(names := {}, complete := map[]));
    var s3 := RunCommand(s2, DestroyWorkflow(s.env.info.runId), NoPayloads, s.header);
    s3.(out := s3.out.Dropped(), status := Closed)
  }

  function Failing(s: State, e: Error): State {
    s.(status := Panicked(e), log := s.log.(panics := s.log.panics + [e]))
  }

  function DoTask(s: State, order: seq<string>, reactions: seq<Reaction>, replies: seq<Exchange>, replaying: bool): State {
    var s1 := s.(inbox := s.inbox.(replies := replies), env := s.env.(reactions := reactions, replaying := replaying));
    var r := RunTask(s1, order);
    match r.exit
    case Normal => r.state
    case Erred(e) => Failing(r.state, e)
    case Panicking(e, _) => Failing(r.state, e)
  }

  /** One event. What cannot happen (a map iteration that is none, an event after a panic) changes nothing. */
  ghost function Next(s: State, e: Event): State {
    match e
    case Closes(order) =>
      if s.status == Closed || !Attributes.Iteration(order, NamesOf(s.env.updates)) then s else DoClose(s, order)
    case _ =>
      if s.status != Running then s
      else match e
        case Fires(f) => Fire(s, f)
        case Signalled(name, input, header) =>
          s.(out := s.out.Command(InvokeSignal(s.env.info.runId, name), input, header))
        case CancelRequested =>
          s.(out := s.out.Command(CancelWorkflow(s.env.info.runId), NoPayloads, s.header))
        case UpdateRequested(name, id, input, header) => HandleUpdate(s, name, id, input, header)
        case Queried(name, args, header) => RunCommand(s, InvokeQuery(s.env.info.runId, name), args, header)
        case StackTraced => RunCommand(s, GetStackTrace(s.env.info.runId), NoPayloads, s.header)
        case Task(order, reactions, replies, replaying) =>
          if !Attributes.Iteration(order, s.updates.names) then s
          else DoTask(s, order, reactions, replies, replaying)
  }

  ghost function Run(s: State, events: seq<Event>): State {
    if events == [] then s else Next(Run(s, events[..|events| - 1]), events[|events| - 1])
  }

  /** A workflow before its first command. */
  function Blank(env: Env, header: Option<Header>, count: nat, gaps: seq<nat>): State {
    State(Outbox([], count, gaps, [], [], [], []), Inbox([], [], [], []), false, [], map[], Children(map[], map[]),
          Updates({}, map[], map[]), 0, header,
          Env(env.info, env.conversions, env.replaying, [], [], {}, {}, [], 0, [], []),
          Log([], [], {}, [], []), Running)
  }

  /** The results of the last run of a cron follow the input. */
  function StartInput(input: Payloads, last: Payloads): Payloads {
    var more := if last.Payloads? then last.items else [];
    if more == [] then input else Payloads((if input.Payloads? then input.items else []) + more)
  }

  function StartCommand(env: Env, tsa: Attributes.Indexed, order: seq<Attributes.Key>, last: Payloads): Command {
    StartWorkflow(env.info, if last.Payloads? then |last.items| else 0, Attributes.StartTable(env.conversions, tsa, order))
  }

  /** What a workflow is started with: its environment, its search attributes and the order they are visited in, header
      and input, the results of the last run, and the ids the process draws beside it. */
  datatype Launch = Launch(env: Env, tsa: Attributes.Indexed, order: seq<Attributes.Key>, header: Option<Header>,
                           input: Payloads, last: Payloads, count: nat, gaps: seq<nat>)

  /** The state Execute leaves: everything empty but the start command. */
  function Executed(x: Launch): State {
    var s := Blank(x.env, x.header, x.count, x.gaps);
    s.(out := s.out.Command(StartCommand(x.env, x.tsa, x.order, x.last), StartInput(x.input, x.last), x.header))
  }
}
