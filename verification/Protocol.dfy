/** The messages exchanged with a worker and the commands they carry. */
module Protocol {

  datatype Option<+T> = None | Some(value: T)

  /** Command, response and error ids are unsigned 64-bit numbers. */
  type Id = nat

  const UINT64: int := 0x1_0000_0000_0000_0000
  const INT64: int := 0x8000_0000_0000_0000

  /** Reading an unbounded number as an unsigned 64-bit one. */
  function Wrap(n: nat): (r: nat)
    ensures r < UINT64
    ensures n < UINT64 ==> r == n
  {
    n % UINT64
  }

  /** Reinterpreting an integer as a signed 64-bit one. */
  function Signed(n: int): (r: int)
    ensures -INT64 <= r < INT64
    ensures -INT64 <= n < INT64 ==> r == n
  {
    var w := n % UINT64;
    if w < INT64 then w else w - UINT64
  }

  /** Payloads, failures and headers are data the engine only passes on. */
  datatype Payloads = NoPayloads | Payloads(items: seq<string>)
  type Failure = string
  type Header = string

  // ---- search attributes ----

  datatype AttributeType =
    | BoolType | FloatType | IntType | KeywordType | KeywordListType | StringType | DatetimeType
    | OtherType(name: string)

  /** A dynamically typed value. `Int` stands for every signed Go integer type, `NilStrs` is a string slice that is nil. */
  datatype Any =
    | Nil
    | Bool(b: bool)
    | Float(r: real)
    | Int(i: int)
    | Str(s: string)
    | Strs(strs: seq<string>)
    | NilStrs
    | List(items: seq<Any>)
    | Instant(t: int)
    | Other

  datatype Attribute = Attribute(kind: AttributeType, operation: string, value: Any)

  /** An attribute map as JSON writes it: a key may hold null. */
  type Attributes = map<string, Option<Attribute>>

  // ---- command options ----

  datatype ActivityOptions = ActivityOptions(taskQueue: string, rest: string)
  datatype LocalOptions = LocalOptions(scheduleToClose: int, startToClose: int, rest: string)
  datatype ChildOptions = ChildOptions(namespace: string, workflowId: string, taskQueue: string, rest: string)
  datatype ContinueOptions = ContinueOptions(taskQueue: string, runTimeout: int, taskTimeout: int)
  datatype Info = Info(runId: string, taskQueue: string)

  datatype Command =
    // sent to the worker
    | GetWorkerInfo(version: string)
    | InvokeActivity(name: string)
    | InvokeLocalActivity(name: string)
    | StartWorkflow(info: Info, lastCompletion: nat, attributes: Attributes)
    | InvokeSignal(runId: string, name: string)
    | InvokeQuery(runId: string, name: string)
    | InvokeUpdate(runId: string, updateId: string, name: string, mode: string)
    | DestroyWorkflow(runId: string)
    | CancelWorkflow(runId: string)
    | GetStackTrace(runId: string)
    // received from the worker
    | ExecuteActivity(name: string, activity: ActivityOptions)
    | ExecuteLocalActivity(name: string, local: LocalOptions)
    | ExecuteChildWorkflow(name: string, child: ChildOptions)
    | GetChildWorkflowExecution(childId: Id)
    | NewTimer(ms: int, summary: string)
    | SideEffect
    | GetVersion(changeId: string, min: int, max: int)
    | CompleteWorkflow
    | UpdateCompleted(updateId: string)
    | UpdateValidated(updateId: string)
    | ContinueAsNew(name: string, next: ContinueOptions)
    | UpsertSearchAttributes(untyped: map<string, Any>)
    | UpsertTypedSearchAttributes(attributes: Attributes)
    | UpsertMemo(memo: map<string, Any>)
    | SignalExternalWorkflow(namespace: string, workflowId: string, runId: string, signal: string, childOnly: bool)
    | CancelExternalWorkflow(namespace: string, workflowId: string, runId: string)
    | UndefinedResponse(message: string)
    | Cancel(ids: seq<Id>)
    | Panic(message: string)

  datatype Message = Message(id: Id, command: Option<Command>, failure: Option<Failure>, payloads: Payloads, header: Option<Header>)
  {
    predicate IsCommand() { command.Some? }
    predicate IsUndefinedResponse() { command.Some? && command.value.UndefinedResponse? }
  }

  function Response(id: Id, payloads: Payloads): Message {
    Message(id, None, None, payloads, None)
  }

  function ErrorResponse(id: Id, failure: Failure): Message {
    Message(id, None, Some(failure), NoPayloads, None)
  }

  function CommandMessage(id: Id, command: Command, payloads: Payloads, header: Option<Header>): Message {
    Message(id, Some(command), None, payloads, header)
  }
}
