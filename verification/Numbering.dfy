/** Ids the engine gives its own commands: one counter for every workflow of the process. */
module Numbering {
  import opened Protocol
  import opened Engine
  import opened Frames
  import Attributes

  /** The ids of the commands that skipped the queue. */
  function AskIds(asked: seq<Message>): seq<Id> {
    seq(|asked|, i requires 0 <= i < |asked| => asked[i].id)
  }

  predicate Rising(ids: seq<Id>, hi: nat) {
    && (forall i, j :: 0 <= i < j < |ids| ==> ids[i] < ids[j])
    && (forall i :: 0 <= i < |ids| ==> 0 < ids[i] <= hi)
  }

  ghost predicate Apiece(a: seq<Id>, b: seq<Id>) {
    forall x :: x in a ==> x !in b
  }

  /** Until the counter wraps: ids rise in the order commands are queued, and in the order single commands are asked;
      none is 0 and none is used twice. */
  ghost predicate Numbered(o: Outbox) {
    o.count < UINT64 ==>
      && Rising(CommandIds(o.pushed), o.count)
      && Rising(AskIds(o.asked), o.count)
      && Apiece(CommandIds(o.pushed), AskIds(o.asked))
  }

  ghost function Issued(o: Outbox): set<Id> {
    (set x | x in CommandIds(o.pushed)) + (set x | x in AskIds(o.asked))
  }

  /** The numbers the next `n` draws get. */
  function Numbers(count: nat, gaps: seq<nat>, n: nat): (r: seq<nat>)
    ensures |r| == n
    decreases n
  {
    if n == 0 then []
    else if gaps == [] then [count + 1] + Numbers(count + 1, [], n - 1)
    else [count + gaps[0] + 1] + Numbers(count + gaps[0] + 1, gaps[1..], n - 1)
  }

  lemma NumbersFirst(o: Outbox, n: nat)
    ensures Numbers(o.count, o.gaps, n + 1) == [o.Drew().count] + Numbers(o.Drew().count, o.Drew().gaps, n)
  {
  }

  /** Where the counter and the others stand after them. */
  function After(count: nat, gaps: seq<nat>, n: nat): (nat, seq<nat>)
    decreases n
  {
    if n == 0 then (count, gaps)
    else if gaps == [] then After(count + 1, [], n - 1)
    else After(count + gaps[0] + 1, gaps[1..], n - 1)
  }

  lemma {:induction false} NumbersConcat(count: nat, gaps: seq<nat>, a: nat, b: nat)
    ensures var mid := After(count, gaps, a);
            && Numbers(count, gaps, a + b) == Numbers(count, gaps, a) + Numbers(mid.0, mid.1, b)
            && After(count, gaps, a + b) == After(mid.0, mid.1, b)
    decreases a
  {
    if a > 0 {
      NumbersConcat(if gaps == [] then count + 1 else count + gaps[0] + 1, if gaps == [] then [] else gaps[1..], a - 1, b);
    }
  }

  predicate Above(numbers: seq<nat>, lo: nat) {
    && (forall i :: 0 <= i < |numbers| ==> lo < numbers[i])
    && (forall i, j :: 0 <= i < j < |numbers| ==> numbers[i] < numbers[j])
  }

  lemma {:induction false} NumbersRise(count: nat, gaps: seq<nat>, n: nat)
    ensures Above(Numbers(count, gaps, n), count)
    decreases n
  {
    if n > 0 {
      NumbersRise(if gaps == [] then count + 1 else count + gaps[0] + 1, if gaps == [] then [] else gaps[1..], n - 1);
    }
  }

  // ---- one counter, many workflows ----

  /** How many others draw before each turn of `w`, when the draws of the process come in the order of `schedule`. */
  function Gaps(schedule: seq<nat>, w: nat): seq<nat> {
    if schedule == [] then []
    else
      var later := Gaps(schedule[1..], w);
      if schedule[0] == w then [0] + later else if later == [] then [] else [later[0] + 1] + later[1..]
  }

  lemma {:induction false} FirstTurn(schedule: seq<nat>, w: nat)
    requires Gaps(schedule, w) != []
    ensures var g := Gaps(schedule, w)[0];
            g < |schedule| && schedule[g] == w && Gaps(schedule, w)[1..] == Gaps(schedule[g + 1..], w)
  {
    var g := Gaps(schedule, w)[0];
    if schedule[0] != w {
      FirstTurn(schedule[1..], w);
      assert schedule[1..][g..] == schedule[g + 1..];
    }
  }

  /** A workflow gets as many turns as the schedule gives it. */
  lemma {:induction false} TurnsCounted(schedule: seq<nat>, w: nat)
    ensures |Gaps(schedule, w)| == multiset(schedule)[w]
  {
    if schedule != [] {
      TurnsCounted(schedule[1..], w);
      assert schedule == [schedule[0]] + schedule[1..];
    }
  }

  function DrawsOf(o: Outbox): nat {
    |CommandIds(o.pushed)| + |o.asked|
  }

  /** Every id issued so far was drawn at a turn of `w`. */
  ghost predicate OwnTurns(o: Outbox, start: nat, schedule: seq<nat>, w: nat) {
    && start <= o.count <= start + |schedule|
    && o.gaps == Gaps(schedule[o.count - start..], w)
    && DrawsOf(o) + |o.gaps| == |Gaps(schedule, w)|
    && forall x :: x in Issued(o) ==> AtTurn(x, start, schedule, o.count, w)
  }

  predicate AtTurn(x: Id, start: nat, schedule: seq<nat>, hi: nat, w: nat) {
    exists i :: 0 <= i < |schedule| && start + i < hi && schedule[i] == w && x == Wrap(start + i + 1)
  }

  /** As long as the schedule has turns left for it. */
  ghost predicate Tallied(o: Outbox, start: nat, schedule: seq<nat>, w: nat) {
    DrawsOf(o) <= |Gaps(schedule, w)| ==> OwnTurns(o, start, schedule, w)
  }

  // ---- what is sent ----

  /** The codec can name it and read it back. */
  predicate Sendable(c: Command) {
    !c.UndefinedResponse? && !c.InvokeLocalActivity?
  }

  predicate Fine(ms: seq<Message>) {
    forall i :: 0 <= i < |ms| && ms[i].command.Some? ==> Sendable(ms[i].command.value)
  }

  predicate FineOut(o: Outbox) {
    Fine(o.queue) && Fine(o.asked) && forall i :: 0 <= i < |o.sent| ==> Fine(o.sent[i])
  }

  /** The queue got answers only, or went as a whole. */
  predicate Tidy(o: Outbox, r: Outbox) {
    || (OnlyAnswers(o.queue, r.queue) && r.sent == o.sent)
    || (r.queue == [] && (r.sent == o.sent || r.sent == o.sent + [o.queue]))
  }

  ghost predicate Steps(s: State, r: State) {
    && (FineOut(s.out) ==> FineOut(r.out))
    && (Numbered(s.out) ==> Numbered(r.out))
    && (forall start, schedule, w :: Tallied(s.out, start, schedule, w) ==> Tallied(r.out, start, schedule, w))
  }

  lemma Chain(s: State, r: State, t: State)
    requires Steps(s, r) && Steps(r, t)
    ensures Steps(s, t)
  {
    hide Numbered;
    hide Tallied;
    hide FineOut;
  }

  lemma TidyFine(o: Outbox, r: Outbox)
    requires FineOut(o) && Tidy(o, r) && r.asked == o.asked
    ensures FineOut(r)
  {
  }

  lemma SameIds(s: State, r: State)
    requires r.out.count == s.out.count && r.out.gaps == s.out.gaps
    requires CommandIds(r.out.pushed) == CommandIds(s.out.pushed) && r.out.asked == s.out.asked && Tidy(s.out, r.out)
    ensures Steps(s, r)
  {
    hide CommandIds;
    hide FineOut;
    if FineOut(s.out) {
      TidyFine(s.out, r.out);
    }
    forall start, schedule, w | Tallied(s.out, start, schedule, w) ensures Tallied(r.out, start, schedule, w) {
      assert Issued(r.out) == Issued(s.out);
    }
  }

  /** One draw at the next turn. */
  lemma TurnTaken(o: Outbox, r: Outbox, start: nat, schedule: seq<nat>, w: nat)
    requires Tallied(o, start, schedule, w)
    requires r.count == o.Drew().count && r.gaps == o.Drew().gaps
    requires DrawsOf(r) == DrawsOf(o) + 1 && forall x :: x in Issued(r) ==> x in Issued(o) || x == Wrap(r.count)
    ensures Tallied(r, start, schedule, w)
  {
    hide Issued;
    hide CommandIds;
    if DrawsOf(r) <= |Gaps(schedule, w)| {
      var k := o.count - start;
      FirstTurn(schedule[k..], w);
      var g := o.gaps[0];
      assert schedule[k..][g + 1..] == schedule[k + g + 1..];
      assert schedule[k + g] == w && r.count == start + (k + g) + 1;
      forall x | x in Issued(r) ensures AtTurn(x, start, schedule, r.count, w) {
        if x in Issued(o) {
          assert AtTurn(x, start, schedule, o.count, w);
        }
      }
    }
  }

  lemma CommandNumbered(o: Outbox, c: Command, payloads: Payloads, header: Option<Header>)
    ensures var r := o.Command(c, payloads, header);
            && CommandIds(r.pushed) == CommandIds(o.pushed) + [Wrap(r.count)] && r.asked == o.asked
            && (Numbered(o) ==> Numbered(r))
            && (forall x :: x in Issued(r) <==> x in Issued(o) || x == Wrap(r.count))
  {
    var r := o.Command(c, payloads, header);
    var id := Wrap(r.count);
    IdsSnoc(o.pushed, Own(CommandMessage(id, c, payloads, header)));
    hide CommandIds;
    var ids := CommandIds(o.pushed);
    assert forall x :: x in ids + [id] <==> x in ids || x == id;
    if r.count < UINT64 && Numbered(o) {
      assert id == r.count > o.count;
      assert id !in AskIds(o.asked);
    }
  }

  lemma CommandSteps(s: State, r: State, c: Command, payloads: Payloads, header: Option<Header>)
    requires r.out == s.out.Command(c, payloads, header) && Sendable(c)
    ensures Steps(s, r)
  {
    CommandNumbered(s.out, c, payloads, header);
    hide Numbered;
    hide Issued;
    hide CommandIds;
    hide Tallied;
    forall start, schedule, w | Tallied(s.out, start, schedule, w) ensures Tallied(r.out, start, schedule, w) {
      TurnTaken(s.out, r.out, start, schedule, w);
    }
  }

  lemma AskNumbered(o: Outbox, c: Command, payloads: Payloads, header: Option<Header>)
    ensures var r := o.Asked(c, payloads, header);
            && CommandIds(r.pushed) == CommandIds(o.pushed) && |r.asked| == |o.asked| + 1
            && (Numbered(o) ==> Numbered(r))
            && (forall x :: x in Issued(r) <==> x in Issued(o) || x == Wrap(r.count))
  {
    hide CommandIds;
    var r := o.Asked(c, payloads, header);
    var id := Wrap(r.count);
    var ids := AskIds(o.asked);
    assert AskIds(r.asked) == ids + [id];
    assert forall x :: x in ids + [id] <==> x in ids || x == id;
    if r.count < UINT64 && Numbered(o) {
      assert id == r.count > o.count;
      assert id !in CommandIds(o.pushed);
    }
  }

  lemma AskSteps(s: State, r: State, c: Command, payloads: Payloads, header: Option<Header>)
    requires r.out == s.out.Asked(c, payloads, header) && Sendable(c)
    ensures Steps(s, r)
  {
    AskNumbered(s.out, c, payloads, header);
    hide Numbered;
    hide Issued;
    hide CommandIds;
    hide Tallied;
    forall start, schedule, w | Tallied(s.out, start, schedule, w) ensures Tallied(r.out, start, schedule, w) {
      TurnTaken(s.out, r.out, start, schedule, w);
    }
  }

  lemma RespondSteps(s: State, m: Message)
    requires !m.IsCommand()
    ensures Steps(s, s.(out := s.out.Pushed(Own(m))))
  {
    IdsSnoc(s.out.pushed, Own(m));
    SameIds(s, s.(out := s.out.Pushed(Own(m))));
  }

  lemma {:induction false} DrainCallbacksSteps(s: State, i: nat)
    requires i <= |s.callbacks|
    ensures Steps(s, DrainCallbacks(s, i))
    decreases |s.callbacks| - i
  {
    hide Steps;
    if i < |s.callbacks| {
      var s1 := RunCallback(s, s.callbacks[i]);
      IdsSnoc(s.out.pushed, Reply(s.callbacks[i]));
      SameIds(s, s1);
      DrainCallbacksSteps(s1, i + 1);
      Chain(s, s1, DrainCallbacks(s1, i + 1));
    } else {
      SameIds(s, DrainCallbacks(s, i));
    }
  }

  lemma {:induction false} InvokeAllSteps(s: State, qs: seq<Request>)
    ensures Steps(s, InvokeAll(s, qs))
    decreases |qs|
  {
    hide Steps;
    if qs == [] {
      SameIds(s, s);
    } else {
      var q := qs[0];
      CommandSteps(s, InvokeQueued(s, q), InvokeUpdate(s.env.info.runId, q.token.updateId, q.name, VALIDATE_EXECUTE), q.input, q.header);
      InvokeAllSteps(InvokeQueued(s, q), qs[1..]);
      Chain(s, InvokeQueued(s, q), InvokeAll(s, qs));
    }
  }

  lemma DrainNameSteps(s: State, name: string)
    ensures Steps(s, DrainName(s, name))
  {
    hide Steps;
    var s1 := s.(env := s.env.Told(HandleQueuedUpdates(name)).(updates := Without(s.env.updates, name)));
    SameIds(s, s1);
    InvokeAllSteps(s1, Named(s.env.updates, name));
    var s2 := InvokeAll(s1, Named(s.env.updates, name));
    Chain(s, s1, s2);
    SameIds(s2, DrainName(s, name));
    Chain(s, s2, DrainName(s, name));
  }

  lemma {:induction false} DrainNamesSteps(s: State, order: seq<string>)
    ensures Steps(s, DrainNames(s, order))
    decreases |order|
  {
    hide Steps;
    if order == [] {
      SameIds(s, s);
    } else {
      DrainNameSteps(s, order[0]);
      DrainNamesSteps(DrainName(s, order[0]), order[1..]);
      Chain(s, DrainName(s, order[0]), DrainNames(s, order));
    }
  }

  lemma FlushSteps(s: State)
    ensures Steps(s, Flush(s).state)
  {
    SameIds(s, Flush(s).state);
  }

  lemma AskingSame(s: State, m: Message)
    requires m.IsCommand() && IsAsking(m.command.value)
    ensures Steps(s, Asking(s, m))
  {
    hide Asking;
    hide Steps;
    hide StoryOf;
    hide FailedEffects;
    AskingApart(s, m);
    SameIds(s, Asking(s, m));
  }

  /** Whatever an asking command pushes after its calls, if anything, is a response. */
  lemma AskingSteps(s: State, m: Message)
    requires m.IsCommand() && IsAsking(m.command.value)
    ensures Steps(s, HandleMessage(s, m).state)
  {
    hide Call;
    hide CancelIds;
    hide Flush;
    hide Steps;
    AskingSame(s, m);
    var a := Asking(s, m);
    var p := if m.command.value.Cancel? then COMPLETED else match s.env.Next().value case Succeeded(p) => p case Failed(_) => NoPayloads;
    var e := if s.env.Next().value.Failed? then s.env.Next().value.failure else "";
    RespondSteps(a, Response(m.id, p));
    RespondSteps(a, ErrorResponse(m.id, e));
    FlushSteps(Respond(a, m.id, p));
    Chain(a, Respond(a, m.id, p), Flush(Respond(a, m.id, p)).state);
    Chain(s, a, RespondAndFlush(a, m.id, p).state);
    Chain(s, a, a.(out := a.out.Pushed(Own(ErrorResponse(m.id, e)))));
  }

  lemma TellSteps(s: State, m: Message, name: string, next: ContinueOptions)
    ensures Steps(s, DoComplete(s, m)) && Steps(s, DoContinueAsNew(s, m, name, next))
  {
    TellApart(s, m, if m.failure.None? then Complete(m.payloads, None) else Complete(NoPayloads, m.failure));
    TellApart(s, m, CompleteAsNew(name, next, m.payloads, m.header));
    SameIds(s, DoComplete(s, m));
    SameIds(s, DoContinueAsNew(s, m, name, next));
  }

  lemma HandleSteps(s: State, m: Message)
    requires m.IsCommand()
    ensures Steps(s, HandleMessage(s, m).state)
  {
    hide Steps;
    hide HandleMessage;
    if IsAsking(m.command.value) {
      AskingSteps(s, m);
    } else if IsApart(m.command.value) {
      HandleApart(s, m);
      SameIds(s, HandleMessage(s, m).state);
    } else {
      SettlingSteps(s, m);
    }
  }

  lemma UpdateSteps(s: State, m: Message, id: string)
    ensures Steps(s, DoUpdateCompleted(s, m, id).state) && Steps(s, DoUpdateValidated(s, m, id).state)
  {
    hide Steps;
    SameOut(s, DoUpdateCompleted(s, m, id).state);
    SameOut(s, DoUpdateValidated(s, m, id).state);
  }

  lemma SameOut(s: State, r: State)
    requires r.out == s.out
    ensures Steps(s, r)
  {
    SameIds(s, r);
  }

  lemma SettlingSteps(s: State, m: Message)
    requires m.IsCommand() && !IsApart(m.command.value) && !IsAsking(m.command.value)
    ensures Steps(s, HandleMessage(s, m).state)
  {
    hide Steps;
    hide DoUpdateCompleted;
    hide DoUpdateValidated;
    hide DoComplete;
    hide DoContinueAsNew;
    hide Call;
    hide CancelIds;
    match m.command.value
    case UpdateCompleted(id) => UpdateSteps(s, m, id);
    case UpdateValidated(id) => UpdateSteps(s, m, id);
    case CompleteWorkflow => TellSteps(s, m, "", ContinueOptions("", 0, 0));
    case ContinueAsNew(name, next) => TellSteps(s, m, name, next);
  }

  lemma {:induction false} PipelineSteps(s: State)
    ensures Steps(s, RunPipeline(s).state)
    decreases s.inbox.Work()
  {
    hide Steps;
    hide HandleMessage;
    SameIds(s, s);
    if s.inbox.pipeline != [] {
      var m := s.inbox.pipeline[0];
      var s1 := s.(inbox := s.inbox.Popped());
      SameIds(s, s1);
      if !m.IsCommand() {
        PipelineSteps(s1);
        Chain(s, s1, RunPipeline(s1).state);
      } else if m.IsUndefinedResponse() {
        SameIds(s, RunPipeline(s).state);
      } else {
        HandleSteps(s1, m);
        var t := HandleMessage(s1, m).state;
        Chain(s, s1, t);
        if HandleMessage(s1, m).exit.Normal? {
          PipelineSteps(t);
        } else {
          SameIds(t, RunPipeline(s).state);
        }
        Chain(s, t, RunPipeline(s).state);
      }
    }
  }

  lemma TaskSteps(s: State, order: seq<string>)
    ensures Steps(s, RunTask(s, order).state)
  {
    hide Steps;
    hide DrainCallbacks;
    hide DrainNames;
    hide Flush;
    hide RunPipeline;
    var s0 := s.(inLoop := true);
    SameIds(s, s0);
    DrainCallbacksSteps(s0, 0);
    var s1 := DrainCallbacks(s0, 0);
    Chain(s, s0, s1);
    DrainNamesSteps(s1, order);
    Chain(s, s1, DrainNames(s1, order));
    var b := BeforeFlush(s, order);
    SameIds(DrainNames(s1, order), b);
    Chain(s, DrainNames(s1, order), b);
    FlushSteps(b);
    var f := Flush(b);
    Chain(s, b, f.state);
    PipelineSteps(f.state);
    Chain(s, f.state, RunPipeline(f.state).state);
    var last := if f.exit.Erred? then f.state else RunPipeline(f.state).state;
    SameIds(last, RunTask(s, order).state);
    Chain(s, last, RunTask(s, order).state);
  }

  lemma CloseSteps(s: State, order: seq<string>)
    ensures Steps(s, DoClose(s, order))
  {
    hide Steps;
    hide DrainNames;
    DrainNamesSteps(s, order);
    var s1 := DrainNames(s, order);
    var s2 := DrainUnhandled(s, order);
    SameIds(s1, s2);
    Chain(s, s1, s2);
    var s3 := RunCommand(s2, DestroyWorkflow(s.env.info.runId), NoPayloads, s.header);
    AskSteps(s2, s3, DestroyWorkflow(s.env.info.runId), NoPayloads, s.header);
    Chain(s, s2, s3);
    SameIds(s3, DoClose(s, order));
    Chain(s, s3, DoClose(s, order));
  }

  lemma FireSteps(s: State, f: Firing)
    ensures Steps(s, Fire(s, f))
  {
    FireApart(s, f);
    hide Fire;
    SameIds(s, Fire(s, f));
  }

  lemma NextSteps(s: State, e: Event)
    ensures Steps(s, Next(s, e))
  {
    hide Steps;
    hide Fire;
    hide RunTask;
    hide DoClose;
    SameIds(s, s);
    match e
    case Fires(f) => FireSteps(s, f);
    case Signalled(name, input, header) => CommandSteps(s, s.(out := s.out.Command(InvokeSignal(s.env.info.runId, name), input, header)), InvokeSignal(s.env.info.runId, name), input, header);
    case CancelRequested => CommandSteps(s, s.(out := s.out.Command(CancelWorkflow(s.env.info.runId), NoPayloads, s.header)), CancelWorkflow(s.env.info.runId), NoPayloads, s.header);
    case UpdateRequested(name, id, input, header) => SameIds(s, HandleUpdate(s, name, id, input, header));
    case Queried(name, args, header) => AskSteps(s, RunCommand(s, InvokeQuery(s.env.info.runId, name), args, header), InvokeQuery(s.env.info.runId, name), args, header);
    case StackTraced => AskSteps(s, RunCommand(s, GetStackTrace(s.env.info.runId), NoPayloads, s.header), GetStackTrace(s.env.info.runId), NoPayloads, s.header);
    case Task(order, reactions, replies, replaying) =>
      var s1 := s.(inbox := s.inbox.(replies := replies), env := s.env.(reactions := reactions, replaying := replaying));
      var r := DoTask(s, order, reactions, replies, replaying);
      SameIds(s, s1);
      TaskSteps(s1, order);
      Chain(s, s1, RunTask(s1, order).state);
      SameIds(RunTask(s1, order).state, r);
      Chain(s, RunTask(s1, order).state, r);
    case Closes(order) => CloseSteps(s, order);
  }

  lemma {:induction false} RunSteps(s: State, events: seq<Event>)
    ensures Steps(s, Run(s, events))
  {
    hide Steps;
    hide Next;
    if events == [] {
      SameIds(s, s);
    } else {
      var before := Run(s, events[..|events| - 1]);
      RunSteps(s, events[..|events| - 1]);
      NextSteps(before, events[|events| - 1]);
      Chain(s, before, Run(s, events));
    }
  }

  lemma BlankNumbered(x: Launch)
    ensures var o := Blank(x.env, x.header, x.count, x.gaps).out;
            && Numbered(o) && FineOut(o)
            && (forall schedule, w :: x.gaps == Gaps(schedule, w) ==> Tallied(o, x.count, schedule, w))
  {
    var o := Blank(x.env, x.header, x.count, x.gaps).out;
    hide Gaps;
    forall schedule, w | x.gaps == Gaps(schedule, w) ensures Tallied(o, x.count, schedule, w) {
      assert schedule[0..] == schedule;
    }
  }

  lemma ExecutedNumbered(x: Launch)
    ensures Numbered(Executed(x).out) && FineOut(Executed(x).out)
    ensures forall schedule, w :: x.gaps == Gaps(schedule, w) ==> Tallied(Executed(x).out, x.count, schedule, w)
  {
    hide Attributes.StartTable;
    hide Gaps;
    hide Tallied;
    hide Numbered;
    hide FineOut;
    BlankNumbered(x);
    CommandSteps(Blank(x.env, x.header, x.count, x.gaps), Executed(x),
                 StartCommand(x.env, x.tsa, x.order, x.last), StartInput(x.input, x.last), x.header);
  }

  // ---- the process ----

  /** A workflow of the process, and what happens to it. */
  datatype Flow = Flow(launch: Launch, events: seq<Event>)

  /** Workflow `w`, in a process that had drawn `start` ids and draws the next ones in the order of `schedule`. The
      workflows share nothing else, so the schedule is all their steps can interleave by. */
  ghost function Flowing(start: nat, schedule: seq<nat>, w: nat, f: Flow): State {
    Run(Executed(f.launch.(count := start, gaps := Gaps(schedule, w))), f.events)
  }

  /** Queued commands carry rising ids, position by position. */
  lemma {:induction false} RisingAt(ps: seq<Push>, a: nat, b: nat, hi: nat)
    requires Rising(CommandIds(ps), hi) && a < b < |ps|
    requires ps[a].Own? && ps[a].msg.IsCommand() && ps[b].Own? && ps[b].msg.IsCommand()
    ensures ps[a].msg.id < ps[b].msg.id
  {
    var before := ps[..|ps| - 1];
    assert forall i :: 0 <= i < |CommandIds(before)| ==> CommandIds(before)[i] == CommandIds(ps)[i];
    if b < |before| {
      RisingAt(before, a, b, hi);
    } else {
      IdAt(before, a);
      assert CommandIds(ps)[|CommandIds(before)|] == ps[b].msg.id;
    }
  }

  lemma {:induction false} IdAt(ps: seq<Push>, a: nat)
    requires a < |ps| && ps[a].Own? && ps[a].msg.IsCommand()
    ensures ps[a].msg.id in CommandIds(ps)
  {
    if a < |ps| - 1 {
      IdAt(ps[..|ps| - 1], a);
    }
  }

  /** The ids of one workflow rise in the order its commands are queued, and in the order its single commands are asked;
      each was drawn at a turn of this workflow, so none is 0. */
  ghost predicate InTurn(r: State, start: nat, schedule: seq<nat>, w: nat) {
    && Rising(CommandIds(r.out.pushed), start + |schedule|) && Rising(AskIds(r.out.asked), start + |schedule|)
    && Apiece(CommandIds(r.out.pushed), AskIds(r.out.asked))
    && forall x :: x in Issued(r.out) ==> start < x <= start + |schedule| && schedule[x - start - 1] == w
  }

  lemma FlowsInTurn(start: nat, schedule: seq<nat>, w: nat, f: Flow)
    requires start + |schedule| < UINT64 && DrawsOf(Flowing(start, schedule, w, f).out) <= multiset(schedule)[w]
    ensures InTurn(Flowing(start, schedule, w, f), start, schedule, w)
  {
    hide Run;
    hide Executed;
    hide CommandIds;
    hide Issued;
    hide Gaps;
    TurnsCounted(schedule, w);
    var x := f.launch.(count := start, gaps := Gaps(schedule, w));
    ExecutedNumbered(x);
    RunSteps(Executed(x), f.events);
    var r := Flowing(start, schedule, w, f);
    assert OwnTurns(r.out, start, schedule, w);
    forall x | x in Issued(r.out) ensures start < x <= start + |schedule| && schedule[x - start - 1] == w {
      assert AtTurn(x, start, schedule, r.out.count, w);
    }
  }

  /** However the draws of the workflows of a process interleave, until the counter wraps: the ids of each workflow come
      in order from its own turns, and no two commands share one, be they of the same workflow or of different ones. */
  lemma DistinctIds(start: nat, schedule: seq<nat>, flows: map<nat, Flow>)
    requires start + |schedule| < UINT64
    requires forall w :: w in flows ==> DrawsOf(Flowing(start, schedule, w, flows[w]).out) <= multiset(schedule)[w]
    ensures forall w :: w in flows ==> InTurn(Flowing(start, schedule, w, flows[w]), start, schedule, w)
    ensures forall v, w :: v in flows && w in flows && v != w ==>
              Issued(Flowing(start, schedule, v, flows[v]).out) !! Issued(Flowing(start, schedule, w, flows[w]).out)
  {
    hide Flowing;
    hide Issued;
    hide CommandIds;
    forall w | w in flows ensures InTurn(Flowing(start, schedule, w, flows[w]), start, schedule, w) {
      FlowsInTurn(start, schedule, w, flows[w]);
    }
  }
}
