/** Whole runs: what the environment hears and answers for the handled messages, and what the worker is sent for the events. */
module Dispatch {
  import opened Protocol
  import opened Engine
  import opened Effects
  import Attributes
  import Frames
  import Pipeline
  import UpdateRequests

  // ---- commands without their ids ----

  function Unnumbered(ms: seq<Message>): seq<Message> {
    seq(|ms|, i requires 0 <= i < |ms| => ms[i].(id := 0))
  }

  function Sent(c: Command, payloads: Payloads, header: Option<Header>): Message {
    Message(0, Some(c), None, payloads, header)
  }

  /** One InvokeUpdate per request: its id, name, input and header. */
  function Invites(runId: string, qs: seq<Request>): seq<Message> {
    seq(|qs|, i requires 0 <= i < |qs| =>
      Sent(InvokeUpdate(runId, qs[i].token.updateId, qs[i].name, "validate_execute"), qs[i].input, qs[i].header))
  }

  // ---- the part of a task before the first flush ----

  /** A step that adds own commands, and nothing else of this. */
  ghost predicate Prepares(s: State, r: State, cmds: seq<Message>) {
    && AskedCalls(r.env.trace) == AskedCalls(s.env.trace) && VerdictCalls(r.env.trace) == VerdictCalls(s.env.trace)
    && r.env.heard == s.env.heard && r.env.reactions == s.env.reactions
    && OwnAnswers(r.out.pushed) == OwnAnswers(s.out.pushed)
    && Unnumbered(OwnCommands(r.out.pushed)) == Unnumbered(OwnCommands(s.out.pushed)) + cmds
    && r.out.asked == s.out.asked && r.inbox == s.inbox && r.header == s.header
    && r.env.info == s.env.info && r.env.conversions == s.env.conversions && r.env.tokens == s.env.tokens
    && Sane(r)
  }

  lemma Both(s: State, r: State, t: State, a: seq<Message>, b: seq<Message>)
    requires Prepares(s, r, a) && Prepares(r, t, b)
    ensures Prepares(s, t, a + b)
  {
    hide AskedCalls;
    hide VerdictCalls;
    hide OwnAnswers;
    hide OwnCommands;
    hide Unnumbered;
    hide Sane;
  }

  lemma QuietPrepares(s: State, r: State)
    requires Does(s, r, NOTHING) && r.env.heard == s.env.heard && r.env.reactions == s.env.reactions && r.inbox == s.inbox
    ensures Prepares(s, r, [])
  {
    hide AskedCalls;
    hide VerdictCalls;
    hide Values;
    hide OwnAnswers;
    hide OwnCommands;
    hide Sane;
    hide Heeds;
  }

  lemma StillPrepares(s: State, r: State)
    requires Sane(s) && r.env == s.env && r.out == s.out && r.inbox == s.inbox && r.header == s.header && r.updates == s.updates && r.canceller == s.canceller
    ensures Prepares(s, r, [])
  {
    hide Keeps;
    hide Sane;
    Still(s, r);
    QuietPrepares(s, r);
  }

  lemma CommandSane(s: State, r: State)
    requires Sane(s) && r.env == s.env && r.canceller == s.canceller && Keyed(r.updates)
    ensures Sane(r)
  {
  }

  lemma UnnumberedSnoc(ms: seq<Message>, m: Message)
    ensures Unnumbered(ms + [m]) == Unnumbered(ms) + [m.(id := 0)]
  {
  }

  lemma CommandPrepares(s: State, r: State, c: Command, payloads: Payloads, header: Option<Header>)
    requires Sane(s) && Keyed(r.updates) && r == s.(out := s.out.Command(c, payloads, header), updates := r.updates)
    ensures Prepares(s, r, [Sent(c, payloads, header)])
  {
    CommandSane(s, r);
    hide AskedCalls;
    hide VerdictCalls;
    hide OwnAnswers;
    hide OwnCommands;
    hide Sane;
    hide Wrap;
    hide Unnumbered;
    var m := CommandMessage(Wrap(s.out.Drew().count), c, payloads, header);
    PushSnoc(s.out.pushed, Own(m));
    UnnumberedSnoc(OwnCommands(s.out.pushed), m);
  }

  lemma {:induction false} DrainCallbacksPrepares(s: State, i: nat)
    requires Sane(s) && i <= |s.callbacks|
    ensures Prepares(s, DrainCallbacks(s, i), [])
    decreases |s.callbacks| - i
  {
    hide Prepares;
    hide Keeps;
    hide Sane;
    if i < |s.callbacks| {
      var s1 := RunCallback(s, s.callbacks[i]);
      PushDoes(s, s1, Reply(s.callbacks[i]));
      QuietPrepares(s, s1);
      DrainCallbacksPrepares(s1, i + 1);
      var none: seq<Message> := [];
      Both(s, s1, DrainCallbacks(s, i), none, none);
      assert none + none == none;
    } else {
      StillPrepares(s, DrainCallbacks(s, i));
    }
  }

  lemma PreparesSane(s: State, r: State, cmds: seq<Message>)
    requires Prepares(s, r, cmds)
    ensures Sane(r) && r.env.info == s.env.info
  {
  }

  lemma KeyedRequest(u: Updates, t: Token)
    requires Keyed(u)
    ensures Keyed(u.(validate := u.validate[t.updateId := t], complete := u.complete[t.updateId := t]))
  {
  }

  lemma {:induction false} InvokeAllPrepares(s: State, qs: seq<Request>)
    requires Sane(s)
    ensures Prepares(s, InvokeAll(s, qs), Invites(s.env.info.runId, qs))
    decreases |qs|
  {
    hide Prepares;
    hide Sane;
    hide Keyed;
    if qs == [] {
      StillPrepares(s, s);
      assert Invites(s.env.info.runId, qs) == [];
    } else {
      var q, s1 := qs[0], InvokeQueued(s, qs[0]);
      var runId := s.env.info.runId;
      SaneKeyed(s);
      KeyedRequest(s.updates, q.token);
      CommandPrepares(s, s1, InvokeUpdate(runId, q.token.updateId, q.name, VALIDATE_EXECUTE), q.input, q.header);
      PreparesSane(s, s1, [Sent(InvokeUpdate(runId, q.token.updateId, q.name, VALIDATE_EXECUTE), q.input, q.header)]);
      InvokeAllPrepares(s1, qs[1..]);
      Both(s, s1, InvokeAll(s, qs), [Sent(InvokeUpdate(runId, q.token.updateId, q.name, VALIDATE_EXECUTE), q.input, q.header)], Invites(runId, qs[1..]));
      InvitesFirst(runId, qs);
    }
  }

  lemma InvitesFirst(runId: string, qs: seq<Request>)
    requires qs != []
    ensures Invites(runId, qs) ==
            [Sent(InvokeUpdate(runId, qs[0].token.updateId, qs[0].name, VALIDATE_EXECUTE), qs[0].input, qs[0].header)] + Invites(runId, qs[1..])
  {
  }

  lemma InvitesConcat(runId: string, a: seq<Request>, b: seq<Request>)
    ensures Invites(runId, a + b) == Invites(runId, a) + Invites(runId, b)
  {
  }

  /** The environment is told to run the requests of a name. */
  lemma HandingPrepares(s: State, r: State, call: EnvCall)
    requires Sane(s) && (call.HandleQueuedUpdates? || call.DrainUnhandledUpdates?)
    requires r == s.(env := s.env.Told(call).(updates := r.env.updates))
    ensures Prepares(s, r, [])
  {
    hide AskedCalls;
    hide VerdictCalls;
    hide AnsweredCalls;
    hide HeardCalls;
    hide OwnAnswers;
    hide OwnCommands;
    hide Fitting;
    hide Unnumbered;
    TraceSnoc(s.env.trace, call);
  }

  lemma DrainNamePrepares(s: State, name: string)
    requires Sane(s)
    ensures Prepares(s, DrainName(s, name), Invites(s.env.info.runId, Named(s.env.updates, name)))
  {
    hide Prepares;
    hide Sane;
    hide InvokeAll;
    hide Invites;
    var qs := Named(s.env.updates, name);
    var s1 := s.(env := s.env.Told(HandleQueuedUpdates(name)).(updates := Without(s.env.updates, name)));
    HandingPrepares(s, s1, HandleQueuedUpdates(name));
    PreparesSane(s, s1, []);
    InvokeAllPrepares(s1, qs);
    var s2 := InvokeAll(s1, qs);
    PreparesSane(s1, s2, Invites(s.env.info.runId, qs));
    NamesPrepare(s2, DrainName(s, name));
    Both(s, s1, s2, [], Invites(s.env.info.runId, qs));
    Both(s, s2, DrainName(s, name), [] + Invites(s.env.info.runId, qs), []);
    assert [] + Invites(s.env.info.runId, qs) + [] == Invites(s.env.info.runId, qs);
  }

  /** Which names are noted does not matter here. */
  lemma NamesPrepare(s: State, r: State)
    requires Sane(s) && r == s.(updates := s.updates.(names := r.updates.names))
    ensures Prepares(s, r, [])
  {
    hide AskedCalls;
    hide VerdictCalls;
    hide AnsweredCalls;
    hide HeardCalls;
    hide OwnAnswers;
    hide OwnCommands;
    hide Fitting;
    hide Effects.Sought;
    assert Unnumbered(OwnCommands(s.out.pushed)) + [] == Unnumbered(OwnCommands(s.out.pushed));
  }

  lemma {:induction false} DrainNamesPrepares(s: State, order: seq<string>)
    requires Sane(s)
    ensures Prepares(s, DrainNames(s, order), Invites(s.env.info.runId, UpdateRequests.Grouped(s.env.updates, order)))
    decreases |order|
  {
    hide Prepares;
    hide Sane;
    hide Invites;
    hide InvokeAll;
    var runId := s.env.info.runId;
    if order == [] {
      StillPrepares(s, s);
      NoInvites(runId);
    } else {
      var name, rest := order[0], Without(s.env.updates, order[0]);
      var s1 := DrainName(s, name);
      DrainNamePrepares(s, name);
      PreparesSane(s, s1, Invites(runId, Named(s.env.updates, name)));
      Pipeline.InvokeAllFrame(s.(env := s.env.Told(HandleQueuedUpdates(name)).(updates := rest)), Named(s.env.updates, name));
      DrainNamesPrepares(s1, order[1..]);
      Both(s, s1, DrainNames(s, order), Invites(runId, Named(s.env.updates, name)), Invites(runId, UpdateRequests.Grouped(rest, order[1..])));
      InvitesConcat(runId, Named(s.env.updates, name), UpdateRequests.Grouped(rest, order[1..]));
    }
  }

  lemma NoInvites(runId: string)
    ensures Invites(runId, []) == []
  {
  }

  lemma BeforeFlushPrepares(s: State, order: seq<string>)
    requires Sane(s)
    ensures Prepares(s, BeforeFlush(s, order), Invites(s.env.info.runId, UpdateRequests.Grouped(s.env.updates, order)))
  {
    hide Prepares;
    hide Sane;
    hide Invites;
    hide UpdateRequests.Grouped;
    hide DrainCallbacks;
    hide DrainNames;
    var s0 := s.(inLoop := true);
    var s1 := DrainCallbacks(s0, 0);
    var s2 := DrainNames(s1, order);
    var qs := Invites(s.env.info.runId, UpdateRequests.Grouped(s.env.updates, order));
    StillPrepares(s, s0);
    PreparesSane(s, s0, []);
    DrainCallbacksPrepares(s0, 0);
    PreparesSane(s0, s1, []);
    Both(s, s0, s1, [], []);
    DrainNamesPrepares(s1, order);
    PreparesSane(s1, s2, qs);
    Both(s, s1, s2, [] + [], qs);
    NamesPrepare(s2, BeforeFlush(s, order));
    Both(s, s2, BeforeFlush(s, order), [] + [] + qs, []);
    assert [] + [] + qs + [] == qs;
  }

  // ---- keeping the books over a run ----

  lemma PreparesDutiful(s: State, r: State, cmds: seq<Message>)
    requires Dutiful(s) && Prepares(s, r, cmds)
    ensures Dutiful(r)
  {
    hide AskedCalls;
    hide VerdictCalls;
    hide Values;
    hide OwnAnswers;
    hide OwnCommands;
    hide WantedCalls;
    hide Owed;
    hide ValuedIn;
    hide Explained;
    hide Sane;
  }

  lemma GivenDutiful(s: State, r: State)
    requires Dutiful(s) && r == s.(inbox := s.inbox.(replies := r.inbox.replies), env := s.env.(reactions := r.env.reactions, replaying := r.env.replaying))
    ensures Dutiful(r)
  {
    hide AskedCalls;
    hide VerdictCalls;
    hide Values;
    hide OwnAnswers;
    hide WantedCalls;
    hide Owed;
    hide Explained;
    hide AnsweredCalls;
    hide Fitting;
    hide Effects.Sought;
  }

  lemma FlushDutiful(s: State)
    requires Dutiful(s)
    ensures Dutiful(Flush(s).state)
  {
    hide Dutiful;
    hide Answered;
    SameDutiful(s, Flush(s).state);
  }

  lemma TaskDutiful(s: State, order: seq<string>, reactions: seq<Reaction>, replies: seq<Exchange>, replaying: bool)
    requires Dutiful(s)
    ensures Dutiful(DoTask(s, order, reactions, replies, replaying))
  {
    hide Dutiful;
    hide BeforeFlush;
    hide Flush;
    hide RunPipeline;
    hide Prepares;
    var s1 := s.(inbox := s.inbox.(replies := replies), env := s.env.(reactions := reactions, replaying := replaying));
    GivenDutiful(s, s1);
    DutifulSane(s1);
    BeforeFlushPrepares(s1, order);
    var b := BeforeFlush(s1, order);
    PreparesDutiful(s1, b, Invites(s1.env.info.runId, UpdateRequests.Grouped(s1.env.updates, order)));
    FlushDutiful(b);
    var f := Flush(b);
    if f.exit.Normal? {
      PipelineDutiful(f.state);
    }
    SameDutiful(if f.exit.Erred? then f.state else RunPipeline(f.state).state, DoTask(s, order, reactions, replies, replaying));
  }

  lemma FireDutiful(s: State, f: Firing)
    requires Dutiful(s)
    ensures Dutiful(Fire(s, f))
  {
    hide Dutiful;
    hide Fire;
    hide Keeps;
    hide Sane;
    DutifulSane(s);
    FireDoes(s, f);
    FireSame(s, f);
    QuietPrepares(s, Fire(s, f));
    PreparesDutiful(s, Fire(s, f), []);
  }

  lemma FireSame(s: State, f: Firing)
    ensures var r := Fire(s, f);
            r.env.heard == s.env.heard && r.env.reactions == s.env.reactions && r.inbox == s.inbox
  {
  }

  lemma RetracedSane(s: State, r: State, q: State)
    requires Sane(s) && Sane(r) && r.env.heard == s.env.heard
    requires q == r.(env := r.env.(trace := s.env.trace + [DrainUnhandledUpdates]))
    ensures Sane(q)
  {
    hide AnsweredCalls;
    hide HeardCalls;
    hide Fitting;
    hide Keyed;
    TraceSnoc(s.env.trace, DrainUnhandledUpdates);
    forall i | 0 <= i < |q.env.trace| ensures Effects.Sought(q.env.trace[i], q.env.heard) {
      if i < |s.env.trace| {
        assert q.env.trace[i] == s.env.trace[i];
      }
    }
  }

  /** The same steps told in one call. */
  lemma Retraced(s: State, r: State, q: State, cmds: seq<Message>)
    requires Sane(s) && Prepares(s, r, cmds) && q == r.(env := r.env.(trace := s.env.trace + [DrainUnhandledUpdates]))
    ensures Prepares(s, q, cmds)
  {
    hide AskedCalls;
    hide VerdictCalls;
    hide OwnAnswers;
    hide OwnCommands;
    hide Unnumbered;
    hide Sane;
    TraceSnoc(s.env.trace, DrainUnhandledUpdates);
    RetracedSane(s, r, q);
  }

  /** Close: the environment runs the requests still queued. */
  lemma ClosePrepares(s: State, order: seq<string>)
    requires Sane(s)
    ensures Prepares(s, DrainUnhandled(s, order), Invites(s.env.info.runId, UpdateRequests.Grouped(s.env.updates, order)))
  {
    hide Invites;
    hide UpdateRequests.Grouped;
    hide DrainNames;
    hide Prepares;
    hide Sane;
    DrainNamesPrepares(s, order);
    Retraced(s, DrainNames(s, order), DrainUnhandled(s, order), Invites(s.env.info.runId, UpdateRequests.Grouped(s.env.updates, order)));
  }

  lemma CloseDutiful(s: State, order: seq<string>)
    requires Dutiful(s)
    ensures Dutiful(DoClose(s, order))
  {
    hide Prepares;
    hide DrainUnhandled;
    hide Dutiful;
    DutifulSane(s);
    ClosePrepares(s, order);
    var r := DrainUnhandled(s, order);
    PreparesDutiful(s, r, Invites(s.env.info.runId, UpdateRequests.Grouped(s.env.updates, order)));
    ForgottenDutiful(r, DoClose(s, order));
  }

  lemma ForgottenDutiful(s: State, r: State)
    requires Dutiful(s) && r.env == s.env && r.out.pushed == s.out.pushed && r.inbox.handled == s.inbox.handled && r.canceller == s.canceller
    requires r.updates.validate == s.updates.validate && r.updates.complete == map[]
    ensures Dutiful(r)
  {
  }

  lemma CommandDutiful(s: State, c: Command, payloads: Payloads, header: Option<Header>)
    requires Dutiful(s)
    ensures Dutiful(s.(out := s.out.Command(c, payloads, header)))
  {
    DutifulSane(s);
    SaneKeyed(s);
    CommandPrepares(s, s.(out := s.out.Command(c, payloads, header)), c, payloads, header);
    hide Dutiful;
    hide Prepares;
    PreparesDutiful(s, s.(out := s.out.Command(c, payloads, header)), [Sent(c, payloads, header)]);
  }

  lemma RequestDutiful(s: State, name: string, id: string, input: Payloads, header: Option<Header>)
    requires Dutiful(s)
    ensures Dutiful(HandleUpdate(s, name, id, input, header))
  {
    hide AskedCalls;
    hide VerdictCalls;
    hide Values;
    hide OwnAnswers;
    hide WantedCalls;
    hide Owed;
    hide Explained;
    hide AnsweredCalls;
    hide Fitting;
    hide Effects.Sought;
  }

  lemma NextDutiful(s: State, e: Event)
    requires Dutiful(s)
    ensures Dutiful(Next(s, e))
  {
    hide Dutiful;
    hide DoTask;
    hide DoClose;
    hide Fire;
    match e
    case Fires(f) => FireDutiful(s, f);
    case Signalled(name, input, header) => CommandDutiful(s, InvokeSignal(s.env.info.runId, name), input, header);
    case CancelRequested => CommandDutiful(s, CancelWorkflow(s.env.info.runId), NoPayloads, s.header);
    case UpdateRequested(name, id, input, header) => RequestDutiful(s, name, id, input, header);
    case Task(order, reactions, replies, replaying) => TaskDutiful(s, order, reactions, replies, replaying);
    case Closes(order) => CloseDutiful(s, order);
    case _ => SameDutiful(s, Next(s, e));
  }

  lemma ExecutedDutiful(x: Launch)
    ensures Dutiful(Executed(x))
  {
    hide Attributes.StartTable;
    var s := Blank(x.env, x.header, x.count, x.gaps);
    assert Dutiful(s);
    CommandDutiful(s, StartCommand(x.env, x.tsa, x.order, x.last), StartInput(x.input, x.last), x.header);
  }

  lemma {:induction false} RunDutiful(x: Launch, events: seq<Event>)
    ensures Dutiful(Run(Executed(x), events))
  {
    hide Dutiful;
    hide Next;
    hide Executed;
    if events == [] {
      ExecutedDutiful(x);
    } else {
      RunDutiful(x, events[..|events| - 1]);
      NextDutiful(Run(Executed(x), events[..|events| - 1]), events[|events| - 1]);
    }
  }

  // ---- what the environment and the worker hear ----

  /** In every run the calls made to the environment for versions, side effects, completion, continuation, search attributes
      and memos are exactly those the handled messages ask for, in order, with their payloads, failure, header and options.
      And the answers the engine gives on its own account are, in order, one per handled message that is owed one, under the
      message's id: versions and side effects get the value the environment answered the call with, or its error, and
      cancellations and completions get "completed". */
  lemma MessagesAreServed(x: Launch, events: seq<Event>)
    ensures var r := Run(Executed(x), events);
            && AskedCalls(r.env.trace) == WantedCalls(r.env.conversions, r.inbox.handled)
            && OwnAnswers(r.out.pushed) == Owed(r.inbox.handled, Values(r.env.heard))
            && |Values(r.env.heard)| == ValuedIn(r.inbox.handled)
            && Paired(r.env)
  {
    hide Run;
    hide Executed;
    hide WantedCalls;
    hide Owed;
    RunDutiful(x, events);
  }

  /** In every run every verdict on an update request comes from a handled message about it: it completes with the message's
      failure if there is one and with its payloads otherwise, it is rejected with the message's failure. */
  lemma VerdictsComeFromMessages(x: Launch, events: seq<Event>)
    ensures var r := Run(Executed(x), events);
            forall i :: 0 <= i < |r.env.trace| && Frames.IsVerdict(r.env.trace[i]) ==> Explained(r.env.trace[i], r.inbox.handled)
  {
    hide Run;
    hide Executed;
    hide Explained;
    RunDutiful(x, events);
    var r := Run(Executed(x), events);
    forall i | 0 <= i < |r.env.trace| && Frames.IsVerdict(r.env.trace[i]) ensures Explained(r.env.trace[i], r.inbox.handled) {
      VerdictListed(r.env.trace, i);
    }
  }

  lemma {:induction false} VerdictListed(trace: seq<EnvCall>, i: nat)
    requires i < |trace| && Frames.IsVerdict(trace[i])
    ensures trace[i] in VerdictCalls(trace)
  {
    if i < |trace| - 1 {
      VerdictListed(trace[..|trace| - 1], i);
    }
  }

  /** In every run every request to cancel is for an operation that was started, and names it as it was started: a child by
      the namespace and the workflow id of its start call, a timer only if the environment gave it an id. */
  lemma CancelsWhatWasStarted(x: Launch, events: seq<Event>)
    ensures var r := Run(Executed(x), events);
            && HeardCalls(r.env.heard) == AnsweredCalls(r.env.trace)
            && (forall i :: 0 <= i < |r.env.trace| && IsRequest(r.env.trace[i]) ==> exists k :: 0 <= k < |r.env.heard| && Names(r.env.trace[i], r.env.heard[k]))
            && (forall id :: id in r.canceller ==> Fitting(r.canceller[id], r.env.heard))
  {
    hide Run;
    hide Executed;
    hide Names;
    RunDutiful(x, events);
    var r := Run(Executed(x), events);
    forall i | 0 <= i < |r.env.trace| ensures Effects.Sought(r.env.trace[i], r.env.heard) {
    }
  }

  lemma FlushHeeds(s: State)
    ensures Heeds(s.env, Flush(s).state.env)
  {
    hide Answered;
    HeedsNothing(s.env, Flush(s).state.env);
  }

  lemma TaskHeeds(s: State, order: seq<string>, reactions: seq<Reaction>, replies: seq<Exchange>, replaying: bool)
    requires Sane(s)
    ensures Heeds(s.env.(reactions := reactions), DoTask(s, order, reactions, replies, replaying).env)
  {
    hide BeforeFlush;
    hide Flush;
    hide RunPipeline;
    hide Heeds;
    hide Sane;
    var s1 := s.(inbox := s.inbox.(replies := replies), env := s.env.(reactions := reactions, replaying := replaying));
    GivenSane(s, s1);
    BeforeFlushPrepares(s1, order);
    var b := BeforeFlush(s1, order);
    PreparesHeeds(s1, b, Invites(s1.env.info.runId, UpdateRequests.Grouped(s1.env.updates, order)));
    FlushHeeds(b);
    var f := Flush(b);
    HeedsChain(s1.env, b.env, f.state.env);
    if f.exit.Normal? {
      FlushSane(b);
      PipelineLoyal(f.state);
      LoyalHeeds(f.state, RunPipeline(f.state).state);
      HeedsChain(s1.env, f.state.env, RunPipeline(f.state).state.env);
    }
    SameHeeds(s1.env, s.env.(reactions := reactions), if f.exit.Normal? then RunPipeline(f.state).state.env else f.state.env);
  }

  lemma GivenSane(s: State, r: State)
    requires Sane(s) && r == s.(inbox := r.inbox, env := s.env.(reactions := r.env.reactions, replaying := r.env.replaying))
    ensures Sane(r)
  {
  }

  lemma PreparesHeeds(s: State, r: State, cmds: seq<Message>)
    requires Prepares(s, r, cmds)
    ensures Heeds(s.env, r.env) && Sane(r)
  {
    HeedsNothing(s.env, r.env);
  }

  lemma FlushSane(s: State)
    requires Sane(s)
    ensures Sane(Flush(s).state)
  {
    FlushDoes(s);
    hide Keeps;
  }

  lemma LoyalHeeds(s: State, r: State)
    requires Loyal(s, r)
    ensures Heeds(s.env, r.env)
  {
  }

  lemma SameHeeds(e: Env, d: Env, r: Env)
    requires Heeds(e, r) && d.heard == e.heard && d.reactions == e.reactions
    ensures Heeds(d, r)
  {
  }

  /** In every run the calls of a workflow task are answered by the reactions of its event, the k-th call by the k-th of
      them, and nothing else is ever answered. */
  lemma AnsweredAsGiven(x: Launch, events: seq<Event>, e: Event)
    ensures var s := Run(Executed(x), events);
            var r := Next(s, e);
            && s.env.heard <= r.env.heard
            && (!e.Task? ==> r.env.heard == s.env.heard)
            && (e.Task? ==> forall i :: |s.env.heard| <= i < |r.env.heard| ==> Reflects(r.env.heard[i], Reacts(e.reactions, i - |s.env.heard|)))
  {
    hide Run;
    hide Executed;
    hide Next;
    hide Dutiful;
    hide Sane;
    hide Reflects;
    hide Reacts;
    RunDutiful(x, events);
    var s := Run(Executed(x), events);
    DutifulSane(s);
    if e.Task? {
      TaskHears(s, e);
    } else {
      HearsNothing(s, e);
    }
  }

  lemma TaskHears(s: State, e: Event)
    requires Sane(s) && e.Task?
    ensures var r := Next(s, e);
            && s.env.heard <= r.env.heard
            && forall i :: |s.env.heard| <= i < |r.env.heard| ==> Reflects(r.env.heard[i], Reacts(e.reactions, i - |s.env.heard|))
  {
    hide DoTask;
    hide Sane;
    hide Reflects;
    hide Reacts;
    hide Drop;
    hide Attributes.Iteration;
    TaskHeeds(s, e.order, e.reactions, e.replies, e.replaying);
  }

  lemma HearsNothing(s: State, e: Event)
    requires Sane(s) && !e.Task?
    ensures Next(s, e).env.heard == s.env.heard
  {
    hide Fire;
    hide Sane;
    hide DoClose;
    match e
    case Fires(f) => FireSame(s, f);
    case Closes(order) => CloseHears(s, order);
    case _ =>
  }

  lemma CloseHears(s: State, order: seq<string>)
    requires Sane(s)
    ensures DoClose(s, order).env.heard == s.env.heard
  {
    hide DrainUnhandled;
    hide Sane;
    ClosePrepares(s, order);
  }

  // ---- what the worker is sent ----

  ghost predicate Accepted(s: State, e: Event) {
    match e
    case Closes(order) => s.status != Closed && Attributes.Iteration(order, NamesOf(s.env.updates))
    case Task(order, _, _, _) => s.status == Running && Attributes.Iteration(order, s.updates.names)
    case _ => s.status == Running
  }

  function Items(p: Payloads): seq<string> {
    match p case NoPayloads => [] case Payloads(items) => items
  }

  /** The start command: the environment's info and search attributes, and the input followed by the last results. */
  function Starting(x: Launch): Message {
    Sent(StartWorkflow(x.env.info, |Items(x.last)|, Attributes.StartTable(x.env.conversions, x.tsa, x.order)),
         if Items(x.last) == [] then x.input else Payloads(Items(x.input) + Items(x.last)), x.header)
  }

  /** The commands an event has queued, given the requests that are waiting. */
  function NewCommands(x: Launch, waiting: seq<Request>, e: Event): seq<Message> {
    match e
    case Signalled(name, input, header) => [Sent(InvokeSignal(x.env.info.runId, name), input, header)]
    case CancelRequested => [Sent(CancelWorkflow(x.env.info.runId), NoPayloads, x.header)]
    case Task(order, _, _, _) => Invites(x.env.info.runId, UpdateRequests.Grouped(waiting, order))
    case Closes(order) => Invites(x.env.info.runId, UpdateRequests.Grouped(waiting, order))
    case _ => []
  }

  /** The single command an event asks the worker. */
  function NewAsks(x: Launch, e: Event): seq<Message> {
    match e
    case Queried(name, args, header) => [Sent(InvokeQuery(x.env.info.runId, name), args, header)]
    case StackTraced => [Sent(GetStackTrace(x.env.info.runId), NoPayloads, x.header)]
    case Closes(_) => [Sent(DestroyWorkflow(x.env.info.runId), NoPayloads, x.header)]
    case _ => []
  }

  /** The update requests that wait after an event, the n-th being new. */
  function NowWaiting(waiting: seq<Request>, n: nat, e: Event): seq<Request> {
    match e
    case UpdateRequested(name, id, input, header) => waiting + [Request(Token(n, id), name, input, header)]
    case Task(_, _, _, _) => []
    case Closes(_) => []
    case _ => waiting
  }

  /** What the events of a run amount to: commands queued, single commands asked, requests waiting and ever made. */
  datatype Demand = Demand(commands: seq<Message>, asks: seq<Message>, waiting: seq<Request>, requests: nat)

  ghost function Demands(x: Launch, events: seq<Event>): Demand {
    if events == [] then Demand([Starting(x)], [], [], 0)
    else
      var before, e := events[..|events| - 1], events[|events| - 1];
      var d := Demands(x, before);
      if !Accepted(Run(Executed(x), before), e) then d
      else After(x, d, e)
  }

  function After(x: Launch, d: Demand, e: Event): Demand {
    Demand(d.commands + NewCommands(x, d.waiting, e), d.asks + NewAsks(x, e), NowWaiting(d.waiting, d.requests, e),
           d.requests + (if e.UpdateRequested? then 1 else 0))
  }

  ghost predicate Meets(s: State, x: Launch, d: Demand) {
    && Unnumbered(OwnCommands(s.out.pushed)) == d.commands && Unnumbered(s.out.asked) == d.asks
    && s.env.updates == d.waiting && s.env.tokens == d.requests
    && s.env.info == x.env.info && s.header == x.header
  }

  lemma LoyalMeets(s: State, r: State, x: Launch, d: Demand)
    requires Meets(s, x, d) && Loyal(s, r)
    ensures Meets(r, x, d)
  {
    hide Heeds;
    hide Sane;
    hide OwnCommands;
  }

  lemma PreparesMeets(s: State, r: State, x: Launch, d: Demand, cmds: seq<Message>)
    requires Meets(s, x, d) && Prepares(s, r, cmds) && r.env.updates == []
    ensures Meets(r, x, d.(commands := d.commands + cmds, waiting := []))
  {
    hide AskedCalls;
    hide VerdictCalls;
    hide OwnAnswers;
    hide OwnCommands;
    hide Unnumbered;
    hide Sane;
  }

  lemma BeforeFlushMeets(s: State, x: Launch, d: Demand, order: seq<string>)
    requires Meets(s, x, d) && Sane(s) && UpdateRequests.Noted(s) && Attributes.Iteration(order, s.updates.names)
    ensures var b := BeforeFlush(s, order);
            Sane(b) && Meets(b, x, d.(commands := d.commands + Invites(x.env.info.runId, UpdateRequests.Grouped(d.waiting, order)), waiting := []))
  {
    hide BeforeFlush;
    hide Prepares;
    hide Sane;
    hide Invites;
    hide UpdateRequests.Grouped;
    hide OwnCommands;
    hide Unnumbered;
    BeforeFlushPrepares(s, order);
    UpdateRequests.FirstBatch(s, order);
    var cmds := Invites(s.env.info.runId, UpdateRequests.Grouped(s.env.updates, order));
    PreparesSane(s, BeforeFlush(s, order), cmds);
    PreparesMeets(s, BeforeFlush(s, order), x, d, cmds);
  }

  lemma GivenMeets(s: State, r: State, x: Launch, d: Demand)
    requires Meets(s, x, d) && UpdateRequests.Noted(s)
    requires r == s.(inbox := r.inbox, env := s.env.(reactions := r.env.reactions, replaying := r.env.replaying))
    ensures Meets(r, x, d) && UpdateRequests.Noted(r)
  {
    hide OwnCommands;
    hide Unnumbered;
  }

  lemma TaskMeets(s: State, x: Launch, d: Demand, e: Event)
    requires Meets(s, x, d) && Sane(s) && UpdateRequests.Noted(s) && e.Task? && Accepted(s, e)
    ensures Meets(Next(s, e), x, d.(commands := d.commands + NewCommands(x, d.waiting, e), waiting := []))
  {
    hide BeforeFlush;
    hide Flush;
    hide RunPipeline;
    hide Sane;
    hide Meets;
    hide Keeps;
    hide Loyal;
    hide Invites;
    hide UpdateRequests.Noted;
    hide UpdateRequests.Grouped;
    hide Attributes.Iteration;
    var s1 := s.(inbox := s.inbox.(replies := e.replies), env := s.env.(reactions := e.reactions, replaying := e.replaying));
    GivenSane(s, s1);
    GivenMeets(s, s1, x, d);
    BeforeFlushMeets(s1, x, d, e.order);
    var b := BeforeFlush(s1, e.order);
    var later := d.(commands := d.commands + NewCommands(x, d.waiting, e), waiting := []);
    FlushDoes(b);
    var f := Flush(b);
    DoesLoyal(b, f.state, NOTHING);
    LoyalMeets(b, f.state, x, later);
    if f.exit.Normal? {
      PipelineLoyal(f.state);
      LoyalMeets(f.state, RunPipeline(f.state).state, x, later);
    }
    SameMeets(if f.exit.Normal? then RunPipeline(f.state).state else f.state, Next(s, e), x, later);
  }

  lemma SameMeets(s: State, r: State, x: Launch, d: Demand)
    requires Meets(s, x, d) && r.out == s.out && r.env == s.env && r.header == s.header
    ensures Meets(r, x, d)
  {
  }

  lemma CloseMeets(s: State, x: Launch, d: Demand, e: Event)
    requires Meets(s, x, d) && Sane(s) && e.Closes? && Accepted(s, e)
    ensures Meets(Next(s, e), x, d.(commands := d.commands + NewCommands(x, d.waiting, e), asks := d.asks + NewAsks(x, e), waiting := []))
  {
    ClosePrepares(s, e.order);
    UpdateRequests.DrainNamesEmpties(s, e.order);
    hide DrainNames;
    hide Sane;
    hide OwnCommands;
    hide Invites;
    hide UpdateRequests.Grouped;
    hide Wrap;
    var r := DrainUnhandled(s, e.order);
    UnnumberedSnoc(s.out.asked, CommandMessage(Wrap(r.out.Drew().count), DestroyWorkflow(s.env.info.runId), NoPayloads, s.header));
    hide Unnumbered;
  }

  lemma QueueMeets(s: State, r: State, x: Launch, d: Demand, c: Command, payloads: Payloads, header: Option<Header>)
    requires Meets(s, x, d) && r == s.(out := s.out.Command(c, payloads, header))
    ensures Meets(r, x, d.(commands := d.commands + [Sent(c, payloads, header)]))
  {
    hide OwnCommands;
    hide Wrap;
    var m := CommandMessage(Wrap(s.out.Drew().count), c, payloads, header);
    PushSnoc(s.out.pushed, Own(m));
    UnnumberedSnoc(OwnCommands(s.out.pushed), m);
    hide Unnumbered;
  }

  lemma AskMeets(s: State, r: State, x: Launch, d: Demand, c: Command, payloads: Payloads, header: Option<Header>)
    requires Meets(s, x, d) && r == RunCommand(s, c, payloads, header)
    ensures Meets(r, x, d.(asks := d.asks + [Sent(c, payloads, header)]))
  {
    hide OwnCommands;
    hide Wrap;
    UnnumberedSnoc(s.out.asked, CommandMessage(Wrap(s.out.Drew().count), c, payloads, header));
    hide Unnumbered;
  }

  lemma FireMeets(s: State, f: Firing, x: Launch, d: Demand)
    requires Meets(s, x, d) && Sane(s)
    ensures Meets(Fire(s, f), x, d)
  {
    hide Meets;
    hide Keeps;
    hide Fire;
    FireDoes(s, f);
    DoesLoyal(s, Fire(s, f), NOTHING);
    LoyalMeets(s, Fire(s, f), x, d);
  }

  lemma NextMeets(s: State, x: Launch, d: Demand, e: Event)
    requires Meets(s, x, d) && Sane(s) && UpdateRequests.Noted(s)
    ensures Meets(Next(s, e), x, if Accepted(s, e) then After(x, d, e) else d)
  {
    assert d.commands + [] == d.commands && d.asks + [] == d.asks;
    if Accepted(s, e) {
      match e
      case Task(_, _, _, _) => TaskMeets(s, x, d, e);
      case Closes(_) => CloseMeets(s, x, d, e);
      case _ => PlainMeets(s, x, d, e);
    } else {
      Refused(s, e);
    }
  }

  lemma Refused(s: State, e: Event)
    requires !Accepted(s, e)
    ensures Next(s, e) == s
  {
    hide DoTask;
    hide DoClose;
    hide Fire;
  }

  lemma PlainMeets(s: State, x: Launch, d: Demand, e: Event)
    requires Meets(s, x, d) && Sane(s) && !e.Task? && !e.Closes? && Accepted(s, e)
    ensures Meets(Next(s, e), x, After(x, d, e))
  {
    hide Fire;
    hide Sane;
    hide Unnumbered;
    hide OwnCommands;
    assert d.commands + [] == d.commands && d.asks + [] == d.asks;
    match e
    case Fires(f) => FireMeets(s, f, x, d);
    case Signalled(name, input, header) => QueueMeets(s, Next(s, e), x, d, InvokeSignal(s.env.info.runId, name), input, header);
    case CancelRequested => QueueMeets(s, Next(s, e), x, d, CancelWorkflow(s.env.info.runId), NoPayloads, s.header);
    case UpdateRequested(name, id, input, header) =>
    case Queried(name, args, header) => AskMeets(s, Next(s, e), x, d, InvokeQuery(s.env.info.runId, name), args, header);
    case StackTraced => AskMeets(s, Next(s, e), x, d, GetStackTrace(s.env.info.runId), NoPayloads, s.header);
  }

  lemma ExecutedMeets(x: Launch)
    ensures Meets(Executed(x), x, Demand([Starting(x)], [], [], 0))
  {
    hide Attributes.StartTable;
    var s := Blank(x.env, x.header, x.count, x.gaps);
    QueueMeets(s, Executed(x), x, Demand([], [], [], 0), StartCommand(x.env, x.tsa, x.order, x.last), StartInput(x.input, x.last), x.header);
    assert [] + [Starting(x)] == [Starting(x)];
  }

  /** In every run, and up to their ids, the engine's own commands are a function of the launch and the events: the start
      command, with the input and the last results; an InvokeSignal with name, input and header per signal; a CancelWorkflow
      per cancel request; an InvokeUpdate with id, name, input and header per update request, when a workflow task or Close
      runs it; and, outside the queue, one command per query, stack trace and Close. The requests the environment holds are
      those made and not yet run. */
  lemma {:induction false} CommandsFollowEvents(x: Launch, events: seq<Event>)
    ensures Meets(Run(Executed(x), events), x, Demands(x, events))
  {
    hide Meets;
    hide Next;
    hide Executed;
    if events == [] {
      ExecutedMeets(x);
    } else {
      var before, e := events[..|events| - 1], events[|events| - 1];
      var s := Run(Executed(x), before);
      CommandsFollowEvents(x, before);
      RunDutiful(x, before);
      DutifulSane(s);
      UpdateRequests.ExecutedLives(x);
      UpdateRequests.RunLives(Executed(x), before);
      NextMeets(s, x, Demands(x, before), e);
    }
  }
}
