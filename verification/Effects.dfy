/** What the handled messages amount to: the calls made for them, the answers they get, the verdicts they pass, and that
    cancelling cancels what was started. Everything wanted is computed from the messages, not from the handlers. */
module Effects {
  import opened Protocol
  import opened Engine
  import Attributes
  import Delivery
  import Frames
  import Pipeline

  // ---- reading the histories ----

  /** The calls a message asks for that start no operation. */
  predicate IsAsked(c: EnvCall) {
    c.AskVersion? || c.RecordSideEffect? || c.Complete? || c.CompleteAsNew? || c.Upsert? || c.UpsertTyped? || c.UpsertMemos?
  }

  /** A call as the message determines it: what a side effect is answered is the environment's. */
  function Plain(c: EnvCall): EnvCall {
    match c
    case RecordSideEffect(input, _) => RecordSideEffect(input, Succeeded(NoPayloads))
    case _ => c
  }

  function AskedCalls(trace: seq<EnvCall>): seq<EnvCall> {
    if trace == [] then []
    else AskedCalls(trace[..|trace| - 1]) + (if IsAsked(trace[|trace| - 1]) then [Plain(trace[|trace| - 1])] else [])
  }

  function VerdictCalls(trace: seq<EnvCall>): seq<EnvCall> {
    if trace == [] then []
    else VerdictCalls(trace[..|trace| - 1]) + (if Frames.IsVerdict(trace[|trace| - 1]) then [trace[|trace| - 1]] else [])
  }

  /** The calls that have an answer. */
  predicate IsAnswered(c: EnvCall) {
    && !Frames.IsVerdict(c) && !c.Complete? && !c.CompleteAsNew? && !c.HandleQueuedUpdates? && !c.DrainUnhandledUpdates?
  }

  function AnsweredCalls(trace: seq<EnvCall>): seq<EnvCall> {
    if trace == [] then []
    else AnsweredCalls(trace[..|trace| - 1]) + (if IsAnswered(trace[|trace| - 1]) then [trace[|trace| - 1]] else [])
  }

  function HeardCalls(heard: seq<Hearing>): seq<EnvCall> {
    seq(|heard|, i requires 0 <= i < |heard| => heard[i].call)
  }

  /** What versions and side effects were answered, in order. */
  function Values(heard: seq<Hearing>): seq<Outcome> {
    if heard == [] then []
    else
      var h := heard[|heard| - 1];
      Values(heard[..|heard| - 1]) + (if h.call.AskVersion? || h.call.RecordSideEffect? then [h.value] else [])
  }

  /** The responses and errors the engine pushes on its own account, and its commands. */
  function OwnAnswers(ps: seq<Push>): seq<Message> {
    if ps == [] then []
    else
      var p := ps[|ps| - 1];
      OwnAnswers(ps[..|ps| - 1]) + (if p.Own? && p.msg.command.None? then [p.msg] else [])
  }

  function OwnCommands(ps: seq<Push>): seq<Message> {
    if ps == [] then []
    else
      var p := ps[|ps| - 1];
      OwnCommands(ps[..|ps| - 1]) + (if p.Own? && p.msg.command.Some? then [p.msg] else [])
  }

  lemma TraceSnoc(trace: seq<EnvCall>, c: EnvCall)
    ensures AskedCalls(trace + [c]) == AskedCalls(trace) + (if IsAsked(c) then [Plain(c)] else [])
    ensures VerdictCalls(trace + [c]) == VerdictCalls(trace) + (if Frames.IsVerdict(c) then [c] else [])
    ensures AnsweredCalls(trace + [c]) == AnsweredCalls(trace) + (if IsAnswered(c) then [c] else [])
  {
    assert (trace + [c])[..|trace|] == trace;
  }

  lemma HeardSnoc(heard: seq<Hearing>, h: Hearing)
    ensures Values(heard + [h]) == Values(heard) + (if h.call.AskVersion? || h.call.RecordSideEffect? then [h.value] else [])
    ensures HeardCalls(heard + [h]) == HeardCalls(heard) + [h.call]
  {
    assert (heard + [h])[..|heard|] == heard;
  }

  lemma PushSnoc(ps: seq<Push>, p: Push)
    ensures OwnAnswers(ps + [p]) == OwnAnswers(ps) + (if p.Own? && p.msg.command.None? then [p.msg] else [])
    ensures OwnCommands(ps + [p]) == OwnCommands(ps) + (if p.Own? && p.msg.command.Some? then [p.msg] else [])
  {
    assert (ps + [p])[..|ps|] == ps;
  }

  // ---- what messages want ----

  /** The calls one message asks for. */
  function CallsFor(c: Attributes.Conversions, m: Message): seq<EnvCall> {
    if m.command.None? then []
    else match m.command.value
      case GetVersion(changeId, min, max) => [AskVersion(changeId, min, max)]
      case SideEffect => [RecordSideEffect(m.payloads, Succeeded(NoPayloads))]
      case CompleteWorkflow => [if m.failure == None then Complete(m.payloads, None) else Complete(NoPayloads, m.failure)]
      case ContinueAsNew(name, next) => [CompleteAsNew(name, next, m.payloads, m.header)]
      case UpsertSearchAttributes(untyped) => [Upsert(untyped)]
      case UpsertMemo(memo) => if memo == map[] then [] else [UpsertMemos(memo)]
      case UpsertTypedSearchAttributes(attributes) =>
        if Attributes.HasNull(attributes) || Attributes.Unparsable(c, attributes) || Attributes.Updates(c, attributes) == map[] then []
        else [UpsertTyped(Attributes.Updates(c, attributes))]
      case _ => []
  }

  function WantedCalls(c: Attributes.Conversions, ms: seq<Message>): seq<EnvCall> {
    if ms == [] then [] else WantedCalls(c, ms[..|ms| - 1]) + CallsFor(c, ms[|ms| - 1])
  }

  /** The messages answered with a value of the environment's. */
  predicate IsValued(m: Message) {
    m.command.Some? && (m.command.value.GetVersion? || m.command.value.SideEffect?)
  }

  function ValuedIn(ms: seq<Message>): nat {
    if ms == [] then 0 else ValuedIn(ms[..|ms| - 1]) + (if IsValued(ms[|ms| - 1]) then 1 else 0)
  }

  /** The answer one message gets, given the environment's value if it wants one. A version without a value gets none: it
      fails the task. */
  function AnswersFor(m: Message, value: Outcome): seq<Message> {
    if m.command.None? then []
    else match m.command.value
      case GetVersion(_, _, _) => (match value case Succeeded(p) => [Message(m.id, None, None, p, None)] case Failed(_) => [])
      case SideEffect =>
        (match value
         case Succeeded(p) => [Message(m.id, None, None, p, None)]
         case Failed(f) => [Message(m.id, None, Some(f), NoPayloads, None)])
      case Cancel(_) => [Message(m.id, None, None, Payloads(["completed"]), None)]
      case CompleteWorkflow => [Message(m.id, None, None, Payloads(["completed"]), None)]
      case ContinueAsNew(_, _) => [Message(m.id, None, None, Payloads(["completed"]), None)]
      case _ => []
  }

  /** The answers some messages get, the environment's values being handed out in order. */
  function Owed(ms: seq<Message>, values: seq<Outcome>): seq<Message> {
    if ms == [] then []
    else
      var m := ms[|ms| - 1];
      if !IsValued(m) then Owed(ms[..|ms| - 1], values) + AnswersFor(m, Succeeded(NoPayloads))
      else if values == [] then []
      else Owed(ms[..|ms| - 1], values[..|values| - 1]) + AnswersFor(m, values[|values| - 1])
  }

  lemma MessagesSnoc(c: Attributes.Conversions, ms: seq<Message>, m: Message, values: seq<Outcome>, v: Outcome)
    ensures WantedCalls(c, ms + [m]) == WantedCalls(c, ms) + CallsFor(c, m)
    ensures ValuedIn(ms + [m]) == ValuedIn(ms) + (if IsValued(m) then 1 else 0)
    ensures IsValued(m) ==> Owed(ms + [m], values + [v]) == Owed(ms, values) + AnswersFor(m, v)
    ensures !IsValued(m) ==> Owed(ms + [m], values) == Owed(ms, values) + AnswersFor(m, Succeeded(NoPayloads))
  {
    hide CallsFor;
    hide AnswersFor;
    assert (ms + [m])[..|ms|] == ms && (values + [v])[..|values|] == values;
  }

  /** What a message that settles an update tells the request it names. */
  predicate Explains(c: EnvCall, m: Message) {
    match c
    case CompleteUpdate(t, o) =>
      && m.command == Some(UpdateCompleted(t.updateId))
      && (match m.failure case Some(f) => o == Failed(f) case None => o == Succeeded(m.payloads))
    case Reject(t, reason) => m.command == Some(UpdateValidated(t.updateId)) && m.failure == Some(reason)
    case Accept(t) => m.command == Some(UpdateValidated(t.updateId))
    case _ => false
  }

  predicate Explained(c: EnvCall, ms: seq<Message>) {
    exists i :: 0 <= i < |ms| && Explains(c, ms[i])
  }

  /** The verdict one message passes: one if its request waits for it, and none otherwise. */
  function VerdictsFor(s: State, m: Message): seq<EnvCall> {
    if m.command.None? then []
    else match m.command.value
      case UpdateCompleted(id) =>
        if id == "" || id !in s.updates.complete then []
        else [CompleteUpdate(s.updates.complete[id], match m.failure case Some(f) => Failed(f) case None => Succeeded(m.payloads))]
      case UpdateValidated(id) =>
        if id == "" || id !in s.updates.validate then []
        else if m.failure.Some? && !s.env.replaying then [Reject(s.updates.validate[id], m.failure.value)]
        else [Accept(s.updates.validate[id])]
      case _ => []
  }

  // ---- the environment's answers, and cancelling ----

  /** The k-th answer of the environment from here on. */
  function Reacts(reactions: seq<Reaction>, k: nat): Reaction {
    if k < |reactions| then reactions[k] else Reaction([], Succeeded(NoPayloads), false, [])
  }

  function Drop(reactions: seq<Reaction>, k: nat): seq<Reaction> {
    if k <= |reactions| then reactions[k..] else []
  }

  predicate Reflects(h: Hearing, r: Reaction) {
    h.value == r.value && h.timerId == r.timerId
  }

  /** Every call on the way got the next answer, in order, and no answer was passed over. */
  ghost predicate Heeds(e: Env, r: Env) {
    && |e.heard| <= |r.heard| && r.heard[..|e.heard|] == e.heard
    && (forall i :: |e.heard| <= i < |r.heard| ==> Reflects(r.heard[i], Reacts(e.reactions, i - |e.heard|)))
    && r.reactions == Drop(e.reactions, |r.heard| - |e.heard|)
  }

  /** The answered calls are those in the trace, and a side effect is recorded with its answer. */
  ghost predicate Paired(e: Env) {
    && AnsweredCalls(e.trace) == HeardCalls(e.heard)
    && (forall i :: 0 <= i < |e.heard| && e.heard[i].call.RecordSideEffect? ==> e.heard[i].call.outcome == e.heard[i].value)
  }

  /** A cancel function is for the operation that was started under its handle, as it was started. */
  predicate Fits(c: Cancellable, h: Hearing) {
    match c
    case CancelActivity(g) => h.call.StartActivity? && h.call.handle == g
    case CancelLocalActivity(g) => h.call.StartLocalActivity? && h.call.handle == g
    case CancelChild(g, namespace, workflowId) =>
      h.call.StartChild? && h.call.handle == g && h.call.child.namespace == namespace && h.call.child.workflowId == workflowId
    case CancelTimer(g, timerId) => h.call.StartTimer? && h.call.handle == g && h.timerId == timerId
  }

  predicate Fitting(c: Cancellable, heard: seq<Hearing>) {
    exists i :: 0 <= i < |heard| && Fits(c, heard[i])
  }

  /** A request to cancel names the operation as it was started; a timer that got no id is never asked for. */
  predicate Names(c: EnvCall, h: Hearing) {
    match c
    case RequestCancelActivity(g) => h.call.StartActivity? && h.call.handle == g
    case RequestCancelLocalActivity(g) => h.call.StartLocalActivity? && h.call.handle == g
    case RequestCancelChild(g, namespace, workflowId) =>
      h.call.StartChild? && h.call.handle == g && h.call.child.namespace == namespace && h.call.child.workflowId == workflowId
    case RequestCancelTimer(g) => h.call.StartTimer? && h.call.handle == g && h.timerId
    case _ => true
  }

  predicate Sought(c: EnvCall, heard: seq<Hearing>) {
    IsRequest(c) ==> exists i :: 0 <= i < |heard| && Names(c, heard[i])
  }

  predicate IsRequest(c: EnvCall) {
    c.RequestCancelActivity? || c.RequestCancelLocalActivity? || c.RequestCancelChild? || c.RequestCancelTimer?
  }

  ghost predicate Matched(s: State) {
    && (forall id :: id in s.canceller ==> Fitting(s.canceller[id], s.env.heard))
    && (forall i :: 0 <= i < |s.env.trace| ==> Sought(s.env.trace[i], s.env.heard))
  }

  /** Callbacks are kept under the id of their request. */
  predicate Keyed(u: Updates) {
    && (forall id :: id in u.validate ==> u.validate[id].updateId == id)
    && (forall id :: id in u.complete ==> u.complete[id].updateId == id)
  }

  // ---- one step ----

  datatype Book = Book(calls: seq<EnvCall>, verdicts: seq<EnvCall>, values: seq<Outcome>, answers: seq<Message>, commands: seq<Message>)

  const NOTHING := Book([], [], [], [], [])

  ghost function BookOf(s: State): Book {
    Book(AskedCalls(s.env.trace), VerdictCalls(s.env.trace), Values(s.env.heard), OwnAnswers(s.out.pushed), OwnCommands(s.out.pushed))
  }

  function Sum(a: Book, b: Book): Book {
    Book(a.calls + b.calls, a.verdicts + b.verdicts, a.values + b.values, a.answers + b.answers, a.commands + b.commands)
  }

  /** What no step but those about requests and single commands touches. */
  ghost predicate Aloof(s: State, r: State) {
    && r.out.asked == s.out.asked && r.env.updates == s.env.updates && r.env.tokens == s.env.tokens
    && r.env.info == s.env.info && r.env.conversions == s.env.conversions && r.env.replaying == s.env.replaying
    && r.header == s.header
  }

  ghost predicate Sane(s: State) {
    Paired(s.env) && Matched(s) && Keyed(s.updates)
  }

  ghost predicate Keeps(s: State, r: State, e: Book) {
    BookOf(r) == Sum(BookOf(s), e) && Aloof(s, r) && Heeds(s.env, r.env)
  }

  /** A step that adds `e` to the books. */
  ghost predicate Does(s: State, r: State, e: Book) {
    Keeps(s, r, e) && Sane(r)
  }

  lemma Drops(reactions: seq<Reaction>, a: nat, b: nat)
    ensures Drop(Drop(reactions, a), b) == Drop(reactions, a + b)
  {
  }

  lemma DropReacts(reactions: seq<Reaction>, a: nat, k: nat)
    ensures Reacts(Drop(reactions, a), k) == Reacts(reactions, a + k)
  {
  }

  lemma HeedsChain(d: Env, e: Env, r: Env)
    requires Heeds(d, e) && Heeds(e, r)
    ensures Heeds(d, r)
  {
    hide Reacts;
    hide Drop;
    hide Reflects;
    var a := |e.heard| - |d.heard|;
    Drops(d.reactions, a, |r.heard| - |e.heard|);
    assert r.heard[..|d.heard|] == r.heard[..|e.heard|][..|d.heard|];
    forall i | |d.heard| <= i < |r.heard| ensures Reflects(r.heard[i], Reacts(d.reactions, i - |d.heard|)) {
      if i < |e.heard| {
        assert r.heard[..|e.heard|][i] == e.heard[i];
      } else {
        DropReacts(d.reactions, a, i - |e.heard|);
      }
    }
  }

  lemma AloofChain(s: State, r: State, t: State)
    requires Aloof(s, r) && Aloof(r, t)
    ensures Aloof(s, t)
  {
  }

  lemma Chain(s: State, r: State, t: State, e: Book, f: Book)
    requires Does(s, r, e) && Does(r, t, f)
    ensures Does(s, t, Sum(e, f))
  {
    hide Heeds;
    hide Sane;
    hide BookOf;
    hide Aloof;
    AloofChain(s, r, t);
    HeedsChain(s.env, r.env, t.env);
    var b := BookOf(s);
    assert Sum(Sum(b, e), f) == Sum(b, Sum(e, f));
  }

  lemma SumNothing(e: Book)
    ensures Sum(NOTHING, e) == e && Sum(e, NOTHING) == e
  {
  }

  lemma Then(s: State, r: State, t: State, e: Book)
    requires Does(s, r, NOTHING) && Does(r, t, e)
    ensures Does(s, t, e)
  {
    hide Keeps;
    hide Sane;
    hide Sum;
    Chain(s, r, t, NOTHING, e);
    SumNothing(e);
  }

  lemma ThenNothing(s: State, r: State, t: State, e: Book)
    requires Does(s, r, e) && Does(r, t, NOTHING)
    ensures Does(s, t, e)
  {
    hide Keeps;
    hide Sane;
    hide Sum;
    Chain(s, r, t, e, NOTHING);
    SumNothing(e);
  }

  lemma HeedsNothing(e: Env, r: Env)
    requires r.heard == e.heard && r.reactions == e.reactions
    ensures Heeds(e, r)
  {
    assert e.reactions[0..] == e.reactions && r.heard[..|e.heard|] == e.heard;
  }

  predicate Fewer(a: map<Id, Cancellable>, b: map<Id, Cancellable>) {
    forall id :: id in b ==> id in a && a[id] == b[id]
  }

  /** Nothing this module looks at happened, but that cancel functions may have gone. */
  lemma Still(s: State, r: State)
    requires Sane(s)
    requires r.env.trace == s.env.trace && r.env.heard == s.env.heard && r.env.reactions == s.env.reactions
    requires r.out.pushed == s.out.pushed && Aloof(s, r) && r.updates == s.updates && Fewer(s.canceller, r.canceller)
    ensures Does(s, r, NOTHING)
  {
    hide AskedCalls;
    hide VerdictCalls;
    hide AnsweredCalls;
    hide Values;
    hide OwnAnswers;
    hide OwnCommands;
    hide Heeds;
    hide Fitting;
    hide Sought;
    HeedsNothing(s.env, r.env);
  }

  lemma PushDoes(s: State, r: State, p: Push)
    requires Sane(s)
    requires r.out.pushed == s.out.pushed + [p] && r.env == s.env && Aloof(s, r) && r.updates == s.updates && Fewer(s.canceller, r.canceller)
    requires p.Own? ==> p.msg.command.None?
    ensures Does(s, r, NOTHING.(answers := if p.Own? then [p.msg] else []))
  {
    hide AskedCalls;
    hide VerdictCalls;
    hide AnsweredCalls;
    hide Values;
    hide OwnAnswers;
    hide OwnCommands;
    hide Heeds;
    hide Fitting;
    hide Sought;
    PushSnoc(s.out.pushed, p);
    HeedsNothing(s.env, r.env);
  }

  lemma DeliverDoes(s: State, a: Answer)
    requires Sane(s)
    ensures Does(s, Deliver(s, a), NOTHING)
  {
    hide Keeps;
    hide Sane;
    if s.inLoop {
      PushDoes(s, Deliver(s, a), Reply(a));
    } else {
      Still(s, Deliver(s, a));
    }
  }

  lemma FireDoes(s: State, f: Firing)
    requires Sane(s)
    ensures Does(s, Fire(s, f), NOTHING)
  {
    hide Keeps;
    hide Sane;
    hide Deliver;
    Still(s, s);
    match f
    case Result(h, o) =>
      if h in s.env.pending {
        var s1 := Delivery.Surrendered(s, h);
        Still(s, s1);
        DeliverDoes(s1, Answer(Handler(h), h.id, o));
        Then(s, s1, Fire(s, f), NOTHING);
      }
    case Started(h, o) =>
      if h in s.env.starting {
        var s1 := EntryStored(s.(env := s.env.(starting := s.env.starting - {h})), h.id, o);
        Still(s, s1);
        if h.id in s.children.listeners {
          DeliverDoes(s1, Answer(Listener(h.id), s.children.listeners[h.id], o));
          Then(s, s1, Fire(s, f), NOTHING);
        }
      }
  }

  lemma {:induction false} FireAllDoes(s: State, fs: seq<Firing>)
    requires Sane(s)
    ensures Does(s, FireAll(s, fs), NOTHING)
    decreases |fs|
  {
    hide Keeps;
    hide Sane;
    hide Fire;
    if fs == [] {
      Still(s, s);
    } else {
      FireDoes(s, fs[0]);
      FireAllDoes(Fire(s, fs[0]), fs[1..]);
      Then(s, Fire(s, fs[0]), FireAll(s, fs), NOTHING);
    }
  }

  /** What a call adds to the books. */
  function CallBook(call: EnvCall, value: Outcome): Book {
    NOTHING.(calls := if IsAsked(call) then [Plain(call)] else [],
             values := if call.AskVersion? || call.RecordSideEffect? then [value] else [])
  }

  /** A call that may be made: one that has an answer, and a request only for an operation that was started so. */
  ghost predicate Callable(s: State, call: EnvCall) {
    IsAnswered(call) && (call.RecordSideEffect? ==> call.outcome == s.env.Next().value) && Sought(call, s.env.heard)
  }

  lemma Longer(heard: seq<Hearing>, h: Hearing)
    ensures forall c :: Fitting(c, heard) ==> Fitting(c, heard + [h])
    ensures forall c :: Sought(c, heard) ==> Sought(c, heard + [h])
  {
    forall i | 0 <= i < |heard| ensures (heard + [h])[i] == heard[i] {
    }
    forall c | Fitting(c, heard) ensures Fitting(c, heard + [h]) {
      var i :| 0 <= i < |heard| && Fits(c, heard[i]);
      assert Fits(c, (heard + [h])[i]);
    }
    forall c | Sought(c, heard) && IsRequest(c) ensures Sought(c, heard + [h]) {
      var i :| 0 <= i < |heard| && Names(c, heard[i]);
      assert Names(c, (heard + [h])[i]);
    }
  }

  lemma CalledPaired(e: Env, call: EnvCall)
    requires Paired(e) && IsAnswered(call) && (call.RecordSideEffect? ==> call.outcome == e.Next().value)
    ensures Paired(e.Called(call))
  {
    hide AnsweredCalls;
    TraceSnoc(e.trace, call);
    HeardSnoc(e.heard, Hearing(call, e.Next().value, e.Next().timerId));
    hide HeardCalls;
  }

  lemma CalledMatched(s: State, r: State, call: EnvCall)
    requires Matched(s) && Sought(call, s.env.heard) && r == s.(env := s.env.Called(call))
    ensures Matched(r)
  {
    hide Fitting;
    hide Sought;
    Longer(s.env.heard, Hearing(call, s.env.Next().value, s.env.Next().timerId));
  }

  lemma CalledSane(s: State, r: State, call: EnvCall)
    requires Sane(s) && Callable(s, call) && r == s.(env := s.env.Called(call))
    ensures Sane(r)
  {
    hide Paired;
    hide Matched;
    hide Sought;
    hide Keyed;
    CalledPaired(s.env, call);
    CalledMatched(s, r, call);
  }

  lemma CalledHeeds(e: Env, call: EnvCall)
    ensures Heeds(e, e.Called(call))
  {
    var r := e.Called(call);
    assert r.heard[..|e.heard|] == e.heard;
    assert Reacts(e.reactions, 0) == e.Next();
    assert r.reactions == Drop(e.reactions, 1);
  }

  lemma CalledBook(s: State, call: EnvCall)
    requires IsAnswered(call)
    ensures BookOf(s.(env := s.env.Called(call))) == Sum(BookOf(s), CallBook(call, s.env.Next().value))
  {
    hide AskedCalls;
    hide VerdictCalls;
    hide Values;
    hide OwnAnswers;
    hide OwnCommands;
    hide Plain;
    TraceSnoc(s.env.trace, call);
    HeardSnoc(s.env.heard, Hearing(call, s.env.Next().value, s.env.Next().timerId));
  }

  lemma CalledDoes(s: State, call: EnvCall)
    requires Sane(s)
    requires Callable(s, call)
    ensures Does(s, s.(env := s.env.Called(call)), CallBook(call, s.env.Next().value))
  {
    hide BookOf;
    hide CallBook;
    hide Heeds;
    hide Sane;
    hide Sought;
    CalledBook(s, call);
    CalledHeeds(s.env, call);
    CalledSane(s, s.(env := s.env.Called(call)), call);
  }

  lemma CallDoes(s: State, call: EnvCall)
    requires Sane(s)
    requires Callable(s, call)
    ensures Does(s, Call(s, call), CallBook(call, s.env.Next().value))
  {
    hide Keeps;
    hide Sane;
    hide FireAll;
    var s1 := s.(env := s.env.Called(call));
    CalledDoes(s, call);
    FireAllDoes(s1, s.env.Next().fired);
    ThenNothing(s, s1, Call(s, call), CallBook(call, s.env.Next().value));
  }

  /** The calls that are no request. */
  lemma Simply(s: State, call: EnvCall)
    requires IsAnswered(call) && !IsRequest(call) && !call.RecordSideEffect?
    ensures Callable(s, call)
  {
  }

  /** Telling the environment what has no answer. */
  lemma ToldDoes(s: State, r: State, call: EnvCall)
    requires Sane(s)
    requires !IsAnswered(call) && r.env == s.env.Told(call) && r.out == s.out && r.header == s.header && r.canceller == s.canceller
    requires Keyed(r.updates)
    ensures Does(s, r, NOTHING.(calls := if IsAsked(call) then [Plain(call)] else [], verdicts := if Frames.IsVerdict(call) then [call] else []))
  {
    hide AskedCalls;
    hide VerdictCalls;
    hide AnsweredCalls;
    hide Values;
    hide OwnAnswers;
    hide OwnCommands;
    hide Heeds;
    hide Fitting;
    hide Keyed;
    TraceSnoc(s.env.trace, call);
    HeedsNothing(s.env, r.env);
  }

  // ---- commands ----

  /** A cancel function registered after the call that started its operation. */
  lemma RegisterDoes(s: State, id: Id, c: Cancellable)
    requires Sane(s)
    requires Fitting(c, s.env.heard)
    ensures Does(s, Register(s, id, c), NOTHING)
  {
    hide AskedCalls;
    hide VerdictCalls;
    hide Values;
    hide OwnAnswers;
    hide OwnCommands;
    hide Heeds;
    hide Sane;
    HeedsNothing(s.env, Register(s, id, c).env);
    RegisterSane(s, id, c);
  }

  lemma RegisterSane(s: State, id: Id, c: Cancellable)
    requires Sane(s) && Fitting(c, s.env.heard)
    ensures Sane(Register(s, id, c))
  {
    hide Paired;
    hide Fitting;
    hide Sought;
    hide Keyed;
  }

  lemma StartDoes(s: State, id: Id, child: bool, call: EnvCall)
    requires Sane(s)
    requires IsAnswered(call) && !IsRequest(call) && !IsAsked(call)
    ensures Does(s, Call(Begin(s, id, child), call), NOTHING)
    ensures Hearing(call, s.env.Next().value, s.env.Next().timerId) in Call(Begin(s, id, child), call).env.heard
  {
    hide Keeps;
    hide Sane;
    var b := Begin(s, id, child);
    Still(s, b);
    Simply(b, call);
    CallDoes(b, call);
    Then(s, b, Call(b, call), NOTHING);
    var s1 := b.(env := b.env.Called(call));
    FireAllHeard(s1, s.env.Next().fired);
    hide FireAll;
    assert s1.env.heard[|s.env.heard|] == Hearing(call, s.env.Next().value, s.env.Next().timerId);
  }

  lemma {:induction false} FireAllHeard(s: State, fs: seq<Firing>)
    ensures FireAll(s, fs).env.heard == s.env.heard
    decreases |fs|
  {
    if fs != [] {
      FireHeard(s, fs[0]);
      FireAllHeard(Fire(s, fs[0]), fs[1..]);
    }
  }

  lemma FireHeard(s: State, f: Firing)
    ensures Fire(s, f).env.heard == s.env.heard
  {
  }

  lemma StartRegisterDoes(s: State, id: Id, child: bool, call: EnvCall, c: Cancellable)
    requires Sane(s)
    requires IsAnswered(call) && !IsRequest(call) && !IsAsked(call)
    requires Fits(c, Hearing(call, s.env.Next().value, s.env.Next().timerId))
    ensures Does(s, Register(Call(Begin(s, id, child), call), id, c), NOTHING)
  {
    hide Keeps;
    hide Sane;
    hide Call;
    hide Fits;
    var r := Call(Begin(s, id, child), call);
    StartDoes(s, id, child, call);
    var i :| 0 <= i < |r.env.heard| && r.env.heard[i] == Hearing(call, s.env.Next().value, s.env.Next().timerId);
    assert Fits(c, r.env.heard[i]);
    RegisterDoes(r, id, c);
    Then(s, r, Register(r, id, c), NOTHING);
  }

  lemma ChildDoes(s: State, m: Message, name: string, o: ChildOptions)
    requires Sane(s)
    ensures Does(s, DoChild(s, m, name, o), NOTHING)
  {
    hide Keeps;
    hide Sane;
    hide Call;
    hide Register;
    hide Begin;
    hide ChildId;
    var s1 := if o.workflowId == "" then NameChild(s) else s;
    var id := if o.workflowId == "" then ChildId(s.env.info.runId, s1.childSeq) else o.workflowId;
    var params := o.(taskQueue := DefaultQueue(s, o.taskQueue), workflowId := id);
    var h := NextHandle(s1, m.id);
    Still(s, s1);
    StartRegisterDoes(s1, m.id, true, StartChild(h, name, params, m.payloads, m.header), CancelChild(h, o.namespace, id));
    Then(s, s1, DoChild(s, m, name, o), NOTHING);
  }

  predicate IsExternal(c: Command) {
    c.SignalExternalWorkflow? || c.CancelExternalWorkflow?
  }

  lemma ExternalDoes(s: State, m: Message)
    requires Sane(s)
    requires m.IsCommand() && IsExternal(m.command.value)
    ensures Does(s, HandleMessage(s, m).state, NOTHING)
  {
    hide Keeps;
    hide Sane;
    hide Call;
    hide Begin;
    var h := NextHandle(s, m.id);
    match m.command.value
    case SignalExternalWorkflow(ns, wid, rid, signal, childOnly) =>
      StartDoes(s, m.id, false, SignalExternal(h, ns, wid, rid, signal, m.payloads, m.header, childOnly));
    case CancelExternalWorkflow(ns, wid, rid) => StartDoes(s, m.id, false, CancelExternal(h, ns, wid, rid));
  }

  lemma OperationDoes(s: State, m: Message)
    requires Sane(s)
    requires m.IsCommand() && Delivery.IsOperation(m.command.value) && !IsExternal(m.command.value)
    ensures Does(s, HandleMessage(s, m).state, NOTHING)
  {
    hide Keeps;
    hide Sane;
    hide Call;
    hide Register;
    hide Begin;
    hide DoChild;
    hide Signed;
    var h := NextHandle(s, m.id);
    match m.command.value
    case ExecuteActivity(name, o) =>
      StartRegisterDoes(s, m.id, false, StartActivity(h, name, o.(taskQueue := DefaultQueue(s, o.taskQueue)), m.payloads, m.header), CancelActivity(h));
    case ExecuteLocalActivity(name, o) =>
      var params := LocalOptions(DefaultTimeout(o.scheduleToClose), DefaultTimeout(o.startToClose), o.rest);
      StartRegisterDoes(s, m.id, false, StartLocalActivity(h, name, params, m.payloads, m.header), CancelLocalActivity(h));
    case ExecuteChildWorkflow(name, o) => ChildDoes(s, m, name, o);
    case NewTimer(ms, summary) =>
      StartRegisterDoes(s, m.id, false, StartTimer(h, Signed(ms * 1_000_000), summary), CancelTimer(h, s.env.Next().timerId));
  }

  /** The request of a cancel function fits what the function fits. */
  lemma RequestFits(s: State, c: Cancellable, call: EnvCall)
    requires Fitting(c, s.env.heard)
    requires match c
             case CancelActivity(h) => call == RequestCancelActivity(h)
             case CancelLocalActivity(h) => call == RequestCancelLocalActivity(h)
             case CancelChild(h, ns, wid) => call == RequestCancelChild(h, ns, wid)
             case CancelTimer(h, timerId) => timerId && call == RequestCancelTimer(h)
    ensures Callable(s, call) && CallBook(call, s.env.Next().value) == NOTHING
  {
    var i :| 0 <= i < |s.env.heard| && Fits(c, s.env.heard[i]);
    assert Names(call, s.env.heard[i]);
  }

  lemma EntryFits(s: State, id: Id)
    requires Sane(s) && id in s.canceller
    ensures Fitting(s.canceller[id], s.env.heard)
  {
  }

  lemma CancelOneDoes(s: State, id: Id)
    requires Sane(s)
    ensures Does(s, CancelOne(s, id), NOTHING)
  {
    hide Keeps;
    hide Sane;
    hide Call;
    hide Callable;
    hide Fitting;
    hide CallBook;
    Still(s, s);
    if id in s.canceller {
      var c, s1 := s.canceller[id], Delivery.Taken(s, id);
      Still(s, s1);
      EntryFits(s, id);
      match c {
        case CancelActivity(h) =>
          RequestFits(s1, c, RequestCancelActivity(h));
          CallDoes(s1, RequestCancelActivity(h));
        case CancelLocalActivity(h) =>
          RequestFits(s1, c, RequestCancelLocalActivity(h));
          CallDoes(s1, RequestCancelLocalActivity(h));
        case CancelChild(h, namespace, workflowId) =>
          RequestFits(s1, c, RequestCancelChild(h, namespace, workflowId));
          CallDoes(s1, RequestCancelChild(h, namespace, workflowId));
        case CancelTimer(h, timerId) =>
          if timerId {
            RequestFits(s1, c, RequestCancelTimer(h));
            CallDoes(s1, RequestCancelTimer(h));
          } else {
            Still(s1, s1);
          }
      }
      Then(s, s1, CancelOne(s, id), NOTHING);
    }
  }

  lemma {:induction false} CancelIdsDoes(s: State, ids: seq<Id>)
    requires Sane(s)
    ensures Does(s, CancelIds(s, ids), NOTHING)
    decreases |ids|
  {
    hide Keeps;
    hide Sane;
    hide CancelOne;
    if ids == [] {
      Still(s, s);
    } else {
      CancelOneDoes(s, ids[0]);
      CancelIdsDoes(CancelOne(s, ids[0]), ids[1..]);
      Then(s, CancelOne(s, ids[0]), CancelIds(s, ids), NOTHING);
    }
  }

  /** What one message adds to the books. */
  function BookFor(s: State, m: Message): Book {
    Book(CallsFor(s.env.conversions, m), VerdictsFor(s, m), if IsValued(m) then [s.env.Next().value] else [],
         AnswersFor(m, s.env.Next().value), [])
  }

  lemma FlushDoes(s: State)
    requires Sane(s)
    ensures Does(s, Flush(s).state, NOTHING)
  {
    hide Keeps;
    hide Sane;
    hide Answered;
    Still(s, Flush(s).state);
  }

  lemma RespondDoes(s: State, id: Id, payloads: Payloads)
    requires Sane(s)
    ensures Does(s, Respond(s, id, payloads), NOTHING.(answers := [Message(id, None, None, payloads, None)]))
  {
    hide Keeps;
    hide Sane;
    PushDoes(s, Respond(s, id, payloads), Own(Response(id, payloads)));
  }

  lemma RespondFlushDoes(s: State, id: Id, payloads: Payloads)
    requires Sane(s)
    ensures Does(s, RespondAndFlush(s, id, payloads).state, NOTHING.(answers := [Message(id, None, None, payloads, None)]))
  {
    hide Keeps;
    hide Sane;
    hide Flush;
    var r := Respond(s, id, payloads);
    RespondDoes(s, id, payloads);
    FlushDoes(r);
    ThenNothing(s, r, Flush(r).state, NOTHING.(answers := [Message(id, None, None, payloads, None)]));
  }

  lemma VersionDoes(s: State, m: Message, changeId: string, min: int, max: int)
    requires Sane(s) && m.command == Some(GetVersion(changeId, min, max))
    ensures Does(s, DoVersion(s, m, changeId, min, max).state, BookFor(s, m))
  {
    hide Keeps;
    hide Sane;
    hide Call;
    hide RespondAndFlush;
    var call, v := AskVersion(changeId, min, max), s.env.Next().value;
    var s1 := Call(s, call);
    Simply(s, call);
    CallDoes(s, call);
    if v.Succeeded? {
      var e := NOTHING.(answers := [Message(m.id, None, None, v.payloads, None)]);
      RespondFlushDoes(s1, m.id, v.payloads);
      Chain(s, s1, DoVersion(s, m, changeId, min, max).state, CallBook(call, v), e);
      assert Sum(CallBook(call, v), e) == BookFor(s, m);
    } else {
      assert CallBook(call, v) == BookFor(s, m);
    }
  }

  lemma EffectDoes(s: State, m: Message)
    requires Sane(s) && m.command == Some(SideEffect)
    ensures Does(s, DoSideEffect(s, m).state, BookFor(s, m))
  {
    hide Keeps;
    hide Sane;
    hide Call;
    hide RespondAndFlush;
    var v := s.env.Next().value;
    var call := RecordSideEffect(m.payloads, v);
    var s1 := Call(s, call);
    var s2 := s1.(canceller := s1.canceller - {m.id});
    CallDoes(s, call);
    Still(s1, s2);
    ThenNothing(s, s1, s2, CallBook(call, v));
    var e := NOTHING.(answers := AnswersFor(m, v));
    match v {
      case Succeeded(p) => RespondFlushDoes(s2, m.id, p);
      case Failed(f) => ErrorDoes(s2, m.id, f);
    }
    Chain(s, s2, DoSideEffect(s, m).state, CallBook(call, v), e);
    EffectBook(s, m);
  }

  lemma ErrorDoes(s: State, id: Id, f: Failure)
    requires Sane(s)
    ensures Does(s, s.(out := s.out.Pushed(Own(ErrorResponse(id, f)))), NOTHING.(answers := [Message(id, None, Some(f), NoPayloads, None)]))
  {
    hide Keeps;
    hide Sane;
    PushDoes(s, s.(out := s.out.Pushed(Own(ErrorResponse(id, f)))), Own(ErrorResponse(id, f)));
  }

  lemma EffectBook(s: State, m: Message)
    requires m.command == Some(SideEffect)
    ensures var v := s.env.Next().value;
            Sum(CallBook(RecordSideEffect(m.payloads, v), v), NOTHING.(answers := AnswersFor(m, v))) == BookFor(s, m)
  {
  }

  lemma CancelDoes(s: State, m: Message, ids: seq<Id>)
    requires Sane(s) && m.command == Some(Cancel(ids))
    ensures Does(s, DoCancel(s, m, ids).state, BookFor(s, m))
  {
    hide Keeps;
    hide Sane;
    hide CancelIds;
    hide RespondAndFlush;
    var s1 := CancelIds(s, ids);
    CancelIdsDoes(s, ids);
    RespondFlushDoes(s1, m.id, COMPLETED);
    Then(s, s1, DoCancel(s, m, ids).state, BookFor(s, m));
  }

  lemma UpdateCompletedDoes(s: State, m: Message, id: string)
    requires Sane(s) && m.command == Some(UpdateCompleted(id))
    ensures Does(s, DoUpdateCompleted(s, m, id).state, BookFor(s, m))
  {
    hide Keeps;
    hide Keyed;
    hide Sane;
    SaneKeyed(s);
    Forgets(s.updates, id);
    if id != "" && id in s.updates.complete {
      ToldDoes(s, DoUpdateCompleted(s, m, id).state, CompleteUpdate(s.updates.complete[id], OutcomeOf(m)));
    } else {
      Still(s, s);
    }
  }

  lemma UpdateValidatedDoes(s: State, m: Message, id: string)
    requires Sane(s) && m.command == Some(UpdateValidated(id))
    ensures Does(s, DoUpdateValidated(s, m, id).state, BookFor(s, m))
  {
    hide Keeps;
    hide Keyed;
    hide Sane;
    SaneKeyed(s);
    Forgets(s.updates, id);
    if id != "" && id in s.updates.validate {
      var t := s.updates.validate[id];
      ToldDoes(s, DoUpdateValidated(s, m, id).state, if !s.env.replaying && m.failure.Some? then Reject(t, m.failure.value) else Accept(t));
    } else {
      Still(s, s);
    }
  }

  lemma SaneKeyed(s: State)
    requires Sane(s)
    ensures Keyed(s.updates)
  {
  }

  lemma Forgets(u: Updates, id: string)
    requires Keyed(u)
    ensures Keyed(u.(complete := u.complete - {id})) && Keyed(u.(validate := u.validate - {id}))
    ensures Keyed(u.(validate := u.validate - {id}, complete := u.complete - {id}))
  {
  }

  lemma EndDoes(s: State, m: Message, call: EnvCall)
    requires Sane(s) && !IsAnswered(call) && !Frames.IsVerdict(call) && IsAsked(call)
    ensures var s1 := Respond(s, m.id, COMPLETED);
            Does(s, s1.(env := s1.env.Told(call)), NOTHING.(calls := [Plain(call)], answers := [Message(m.id, None, None, Payloads(["completed"]), None)]))
  {
    var s1 := Respond(s, m.id, COMPLETED);
    var r := s1.(env := s1.env.Told(call));
    RespondDoes(s, m.id, COMPLETED);
    ToldDoes(s1, r, call);
    hide Keeps;
    hide Sane;
    var e := NOTHING.(answers := [Message(m.id, None, None, Payloads(["completed"]), None)]);
    var f := NOTHING.(calls := [Plain(call)]);
    Chain(s, s1, r, e, f);
    assert Sum(e, f) == NOTHING.(calls := [Plain(call)], answers := e.answers);
  }

  lemma CompleteDoes(s: State, m: Message)
    requires Sane(s) && m.command == Some(CompleteWorkflow)
    ensures Does(s, DoComplete(s, m), BookFor(s, m))
  {
    hide Keeps;
    hide Sane;
    EndDoes(s, m, if m.failure.None? then Complete(m.payloads, None) else Complete(NoPayloads, m.failure));
  }

  lemma ContinueDoes(s: State, m: Message, name: string, next: ContinueOptions)
    requires Sane(s) && m.command == Some(ContinueAsNew(name, next))
    ensures Does(s, DoContinueAsNew(s, m, name, next), BookFor(s, m))
  {
    hide Keeps;
    hide Sane;
    EndDoes(s, m, CompleteAsNew(name, next, m.payloads, m.header));
  }

  lemma TryDoes(s: State, call: EnvCall)
    requires Sane(s) && IsAnswered(call) && !IsRequest(call) && IsAsked(call) && !call.AskVersion? && !call.RecordSideEffect?
    ensures Does(s, Try(s, call).state, NOTHING.(calls := [call]))
  {
    hide Keeps;
    hide Sane;
    hide Call;
    Simply(s, call);
    CallDoes(s, call);
  }

  lemma UpsertDoes(s: State, m: Message, attributes: Protocol.Attributes)
    requires Sane(s) && m.command == Some(UpsertTypedSearchAttributes(attributes))
    ensures Does(s, DoUpsertTyped(s, attributes).state, BookFor(s, m))
  {
    hide Keeps;
    hide Sane;
    hide Try;
    hide Attributes.Ends;
    hide Attributes.Updates;
    hide Attributes.HasNull;
    hide Attributes.Unparsable;
    var c := s.env.conversions;
    Still(s, s);
    Attributes.EndsAs(c, attributes, s.env.Next().visit);
    TryDoes(s, UpsertTyped(Attributes.Updates(c, attributes)));
  }

  lemma ListenDoes(s: State, child: Id, id: Id)
    requires Sane(s)
    ensures Does(s, Listen(s, child, id), NOTHING)
  {
    hide Keeps;
    hide Sane;
    hide Deliver;
    var s1 := ListenerStored(s, child, id);
    Still(s, s1);
    if child in s.children.entries {
      DeliverDoes(s1, Answer(Listener(child), id, s.children.entries[child]));
      Then(s, s1, Listen(s, child, id), NOTHING);
    }
  }

  lemma OtherDoes(s: State, m: Message)
    requires Sane(s) && m.IsCommand() && !Delivery.IsOperation(m.command.value)
    ensures Does(s, HandleMessage(s, m).state, BookFor(s, m))
  {
    hide Keeps;
    hide Sane;
    hide Call;
    hide Listen;
    hide DoVersion;
    hide DoSideEffect;
    hide DoCancel;
    hide DoUpdateCompleted;
    hide DoUpdateValidated;
    hide DoComplete;
    hide DoContinueAsNew;
    hide DoUpsertTyped;
    hide Try;
    Still(s, s);
    match m.command.value
    case GetChildWorkflowExecution(child) => ListenDoes(s, child, m.id);
    case GetVersion(changeId, min, max) => VersionDoes(s, m, changeId, min, max);
    case SideEffect => EffectDoes(s, m);
    case UpdateCompleted(id) => UpdateCompletedDoes(s, m, id);
    case UpdateValidated(id) => UpdateValidatedDoes(s, m, id);
    case CompleteWorkflow => CompleteDoes(s, m);
    case ContinueAsNew(name, next) => ContinueDoes(s, m, name, next);
    case UpsertSearchAttributes(untyped) => TryDoes(s, Upsert(untyped));
    case UpsertTypedSearchAttributes(attributes) => UpsertDoes(s, m, attributes);
    case UpsertMemo(memo) => TryDoes(s, UpsertMemos(memo));
    case Cancel(ids) => CancelDoes(s, m, ids);
    case _ =>
  }

  /** Handling one command makes the calls, passes the verdicts and pushes the answers the message calls for, and no more. */
  lemma HandleDoes(s: State, m: Message)
    requires Sane(s) && m.IsCommand()
    ensures Does(s, HandleMessage(s, m).state, BookFor(s, m))
  {
    hide HandleMessage;
    hide Keeps;
    hide Sane;
    if IsExternal(m.command.value) {
      ExternalDoes(s, m);
    } else if Delivery.IsOperation(m.command.value) {
      OperationDoes(s, m);
    } else {
      OtherDoes(s, m);
    }
  }

  /** The error one message ends the task with, if it does: the environment's, the worker pool's, or the message's own. */
  function ExitFor(s: State, m: Message): Exit {
    var reply, value := Answered(s.inbox.Next()).error, s.env.Next().value;
    if m.command.None? then Normal
    else match m.command.value
      case GetVersion(_, _, _) =>
        if value.Failed? then Erred(value.failure) else if reply.Some? then Erred(reply.value) else Normal
      case SideEffect => if value.Succeeded? && reply.Some? then Panicking(reply.value, true) else Normal
      case Cancel(_) => if reply.Some? then Erred(reply.value) else Normal
      case UpdateCompleted(id) => if id == "" then Erred("update id is empty, can't complete update") else Normal
      case UpdateValidated(id) => if id == "" then Erred("update id is empty, can't validate update") else Normal
      case UpsertSearchAttributes(_) => if value.Failed? then Erred(value.failure) else Normal
      case UpsertMemo(memo) => if memo != map[] && value.Failed? then Erred(value.failure) else Normal
      case UpsertTypedSearchAttributes(attributes) => (
        match Attributes.Ends(s.env.conversions, attributes, s.env.Next().visit)
        case Crashes => Panicking(NIL_DEREFERENCE, true)
        case Errs => Erred(BAD_TIME)
        case Finishes => if CallsFor(s.env.conversions, m) != [] && value.Failed? then Erred(value.failure) else Normal)
      case Panic(_) => if m.failure.Some? then Erred(m.failure.value) else Normal
      case c =>
        if Delivery.IsOperation(c) || c.GetChildWorkflowExecution? || c.CompleteWorkflow? || c.ContinueAsNew? then Normal
        else Erred("undefined command")
  }

  lemma UpsertExits(s: State, m: Message, attributes: Protocol.Attributes)
    requires m.command == Some(UpsertTypedSearchAttributes(attributes))
    ensures DoUpsertTyped(s, attributes).exit == ExitFor(s, m)
  {
    hide Attributes.Ends;
    hide Attributes.Updates;
    hide Attributes.HasNull;
    hide Attributes.Unparsable;
    hide Call;
    hide Answered;
    Attributes.EndsAs(s.env.conversions, attributes, s.env.Next().visit);
  }

  /** A command fails exactly for these reasons, and with these errors. */
  lemma ExitIs(s: State, m: Message)
    requires m.IsCommand()
    ensures HandleMessage(s, m).exit == ExitFor(s, m)
  {
    hide Call;
    hide CancelIds;
    hide Answered;
    if m.command.value.UpsertTypedSearchAttributes? {
      UpsertExits(s, m, m.command.value.attributes);
      hide ExitFor;
      hide DoUpsertTyped;
    } else if Frames.IsAsking(m.command.value) {
      AskingExits(s, m);
      hide HandleMessage;
      hide ExitFor;
    }
  }

  lemma AskingExits(s: State, m: Message)
    requires m.IsCommand() && Frames.IsAsking(m.command.value)
    ensures HandleMessage(s, m).exit == ExitFor(s, m)
  {
    hide Call;
    hide CancelIds;
    hide Answered;
  }

  // ---- tasks ----

  /** The books are as the handled messages want them. */
  ghost predicate Dutiful(s: State) {
    && Sane(s)
    && AskedCalls(s.env.trace) == WantedCalls(s.env.conversions, s.inbox.handled)
    && |Values(s.env.heard)| == ValuedIn(s.inbox.handled)
    && OwnAnswers(s.out.pushed) == Owed(s.inbox.handled, Values(s.env.heard))
    && forall i :: 0 <= i < |VerdictCalls(s.env.trace)| ==> Explained(VerdictCalls(s.env.trace)[i], s.inbox.handled)
  }

  lemma StillExplained(c: EnvCall, ms: seq<Message>, m: Message)
    ensures Explained(c, ms) || Explains(c, m) ==> Explained(c, ms + [m])
  {
    if Explained(c, ms) {
      var i :| 0 <= i < |ms| && Explains(c, ms[i]);
      assert Explains(c, (ms + [m])[i]);
    }
    assert (ms + [m])[|ms|] == m;
  }

  lemma VerdictsExplained(s: State, m: Message)
    requires Keyed(s.updates)
    ensures forall i :: 0 <= i < |VerdictsFor(s, m)| ==> Explains(VerdictsFor(s, m)[i], m)
  {
  }

  /** The answers and values of one more message. */
  lemma OwedStep(c: Attributes.Conversions, ms: seq<Message>, m: Message, calls: seq<EnvCall>, values: seq<Outcome>, answers: seq<Message>, v: Outcome)
    requires calls == WantedCalls(c, ms) && |values| == ValuedIn(ms) && answers == Owed(ms, values)
    ensures calls + CallsFor(c, m) == WantedCalls(c, ms + [m])
    ensures var later := values + (if IsValued(m) then [v] else []);
            |later| == ValuedIn(ms + [m]) && answers + AnswersFor(m, v) == Owed(ms + [m], later)
  {
    hide CallsFor;
    hide AnswersFor;
    hide WantedCalls;
    hide Owed;
    hide ValuedIn;
    hide IsValued;
    MessagesSnoc(c, ms, m, values, v);
    SameAnswers(m, v);
    assert values + [] == values;
  }

  lemma VerdictsStep(ms: seq<Message>, m: Message, verdicts: seq<EnvCall>, more: seq<EnvCall>)
    requires forall i :: 0 <= i < |verdicts| ==> Explained(verdicts[i], ms)
    requires forall i :: 0 <= i < |more| ==> Explains(more[i], m)
    ensures forall i :: 0 <= i < |verdicts + more| ==> Explained((verdicts + more)[i], ms + [m])
  {
    hide Explains;
    hide Explained;
    forall i | 0 <= i < |verdicts + more| ensures Explained((verdicts + more)[i], ms + [m]) {
      StillExplained((verdicts + more)[i], ms, m);
    }
  }

  lemma StepDutiful(s: State, m: Message, s1: State, r: State)
    requires Dutiful(s) && s1 == s.(inbox := s1.inbox) && s1.inbox.handled == s.inbox.handled + [m]
    requires Does(s1, r, BookFor(s1, m)) && r.inbox.handled == s1.inbox.handled
    ensures Dutiful(r)
  {
    hide AskedCalls;
    hide VerdictCalls;
    hide Values;
    hide OwnAnswers;
    hide OwnCommands;
    hide Paired;
    hide Matched;
    hide Keyed;
    hide Heeds;
    hide CallsFor;
    hide AnswersFor;
    hide VerdictsFor;
    hide WantedCalls;
    hide Owed;
    hide ValuedIn;
    hide Explains;
    hide Explained;
    hide IsValued;
    VerdictsExplained(s1, m);
    OwedStep(s.env.conversions, s.inbox.handled, m, AskedCalls(s.env.trace), Values(s.env.heard), OwnAnswers(s.out.pushed), s.env.Next().value);
    VerdictsStep(s.inbox.handled, m, VerdictCalls(s.env.trace), VerdictsFor(s1, m));
  }

  /** A message that wants no value is answered whatever it is. */
  lemma SameAnswers(m: Message, v: Outcome)
    ensures !IsValued(m) ==> AnswersFor(m, v) == AnswersFor(m, Succeeded(NoPayloads))
  {
  }

  lemma PoppedSane(s: State)
    requires Sane(s) && s.inbox.pipeline != []
    ensures Sane(s.(inbox := s.inbox.Popped()))
  {
  }

  /** A message the loop does not handle wants nothing. */
  lemma PoppedDutiful(s: State)
    requires Dutiful(s) && s.inbox.pipeline != [] && (!s.inbox.pipeline[0].IsCommand() || s.inbox.pipeline[0].IsUndefinedResponse())
    ensures Dutiful(s.(inbox := s.inbox.Popped()))
  {
    hide Dutiful;
    var m, s1 := s.inbox.pipeline[0], s.(inbox := s.inbox.Popped());
    assert Sane(s1) by { DutifulSane(s); PoppedSane(s); }
    Still(s1, s1);
    assert BookFor(s1, m) == NOTHING;
    StepDutiful(s, m, s1, s1);
  }

  lemma DutifulSane(s: State)
    requires Dutiful(s)
    ensures Sane(s)
  {
  }

  lemma HandledDutiful(s: State)
    requires Dutiful(s) && s.inbox.pipeline != [] && s.inbox.pipeline[0].IsCommand()
    ensures Dutiful(HandleMessage(s.(inbox := s.inbox.Popped()), s.inbox.pipeline[0]).state)
  {
    hide Dutiful;
    hide HandleMessage;
    hide Sane;
    hide Keeps;
    hide BookFor;
    var m, s1 := s.inbox.pipeline[0], s.(inbox := s.inbox.Popped());
    DutifulSane(s);
    PoppedSane(s);
    HandleDoes(s1, m);
    Pipeline.HandleFlow(s1, m);
    StepDutiful(s, m, s1, HandleMessage(s1, m).state);
  }

  /** The histories, the requests' callbacks and the cancel functions are all these predicates read. */
  lemma SameDutiful(s: State, r: State)
    requires Dutiful(s) && r.env == s.env && r.out.pushed == s.out.pushed && r.inbox.handled == s.inbox.handled
    requires r.updates == s.updates && r.canceller == s.canceller
    ensures Dutiful(r)
  {
  }

  lemma {:induction false} PipelineDutiful(s: State)
    requires Dutiful(s)
    ensures Dutiful(RunPipeline(s).state)
    decreases s.inbox.Work()
  {
    hide HandleMessage;
    hide Dutiful;
    if s.inbox.pipeline != [] {
      var m := s.inbox.pipeline[0];
      var s1 := s.(inbox := s.inbox.Popped());
      if !m.IsCommand() {
        PoppedDutiful(s);
        PipelineDutiful(s1);
      } else if m.IsUndefinedResponse() {
        PoppedDutiful(s);
        SameDutiful(s1, s1.(inbox := s1.inbox.Cleared()));
      } else {
        HandledDutiful(s);
        var r := HandleMessage(s1, m);
        SameDutiful(r.state, r.state.(inbox := r.state.inbox.Cleared()));
        if r.exit.Normal? {
          PipelineDutiful(r.state);
        }
      }
    }
  }

  /** The whole loop leaves alone what its commands do. */
  ghost predicate Loyal(s: State, r: State) {
    Aloof(s, r) && Heeds(s.env, r.env) && OwnCommands(r.out.pushed) == OwnCommands(s.out.pushed) && Sane(r)
  }

  lemma LoyalChain(s: State, r: State, t: State)
    requires Loyal(s, r) && Loyal(r, t)
    ensures Loyal(s, t)
  {
    hide Heeds;
    hide Sane;
    hide OwnCommands;
    HeedsChain(s.env, r.env, t.env);
  }

  lemma DoesLoyal(s: State, r: State, e: Book)
    requires Does(s, r, e) && e.commands == []
    ensures Loyal(s, r)
  {
    hide Heeds;
    hide Sane;
    hide OwnCommands;
  }

  lemma StillLoyal(s: State, r: State)
    requires Sane(s) && r.env == s.env && r.out == s.out && r.updates == s.updates && r.canceller == s.canceller && r.header == s.header
    ensures Loyal(s, r)
  {
    Still(s, r);
    DoesLoyal(s, r, NOTHING);
    hide Loyal;
  }

  lemma {:induction false} PipelineLoyal(s: State)
    requires Sane(s)
    ensures Loyal(s, RunPipeline(s).state)
    decreases s.inbox.Work()
  {
    hide HandleMessage;
    hide Loyal;
    hide Sane;
    hide Keeps;
    if s.inbox.pipeline == [] {
      StillLoyal(s, s);
    } else {
      var m := s.inbox.pipeline[0];
      var s1 := s.(inbox := s.inbox.Popped());
      StillLoyal(s, s1);
      PoppedSane(s);
      if !m.IsCommand() {
        PipelineLoyal(s1);
      } else if m.IsUndefinedResponse() {
        StillLoyal(s1, RunPipeline(s).state);
      } else {
        HandleDoes(s1, m);
        var r := HandleMessage(s1, m);
        DoesLoyal(s1, r.state, BookFor(s1, m));
        if r.exit.Normal? {
          PipelineLoyal(r.state);
        } else {
          StillLoyal(r.state, RunPipeline(s).state);
        }
        LoyalChain(s1, r.state, RunPipeline(s).state);
      }
      LoyalChain(s, s1, RunPipeline(s).state);
    }
  }
}
