/** Workflow updates: how queued requests reach the worker, and which verdicts they can get. */
module UpdateRequests {
  import opened Protocol
  import opened Engine
  import opened Frames
  import Attributes
  import Numbering
  import Pipeline

  // ---- sorting requests by name ----

  lemma {:induction false} NamedSplit(qs: seq<Request>, name: string)
    ensures multiset(Named(qs, name)) + multiset(Without(qs, name)) == multiset(qs)
    ensures forall q :: q in Named(qs, name) <==> q in qs && q.name == name
    ensures forall q :: q in Without(qs, name) <==> q in qs && q.name != name
  {
    if qs != [] {
      var before := qs[..|qs| - 1];
      NamedSplit(before, name);
      assert qs == before + [qs[|qs| - 1]];
    }
  }

  lemma {:induction false} NamedConcat(a: seq<Request>, b: seq<Request>, name: string)
    ensures Named(a + b, name) == Named(a, name) + Named(b, name)
  {
    if b == [] {
      assert a + b == a;
    } else {
      NamedConcat(a, b[..|b| - 1], name);
      assert (a + b)[..|a + b| - 1] == a + b[..|b| - 1];
    }
  }

  lemma {:induction false} NamedTwice(qs: seq<Request>, a: string, b: string)
    ensures Named(Named(qs, a), b) == if a == b then Named(qs, a) else []
    ensures Named(Without(qs, a), b) == if a == b then [] else Named(qs, b)
  {
    if qs != [] {
      var before := qs[..|qs| - 1];
      var last := [qs[|qs| - 1]];
      NamedTwice(before, a, b);
      NamedConcat(Named(before, a), if last[0].name == a then last else [], b);
      NamedConcat(Without(before, a), if last[0].name == a then [] else last, b);
      assert Named(last, b) == (if last[0].name == b then last else []) by { assert last[..0] == []; }
      assert Named([], b) == [];
    }
  }

  /** The requests in the order a task runs them. */
  function Grouped(qs: seq<Request>, order: seq<string>): seq<Request>
    decreases |order|
  {
    if order == [] then [] else Named(qs, order[0]) + Grouped(Without(qs, order[0]), order[1..])
  }

  function Leftover(qs: seq<Request>, order: seq<string>): seq<Request>
    decreases |order|
  {
    if order == [] then qs else Leftover(Without(qs, order[0]), order[1..])
  }

  lemma {:induction false} GroupedSplit(qs: seq<Request>, order: seq<string>)
    ensures multiset(Grouped(qs, order)) + multiset(Leftover(qs, order)) == multiset(qs)
    ensures forall q :: q in Leftover(qs, order) ==> q in qs && q.name !in order
    decreases |order|
  {
    if order != [] {
      NamedSplit(qs, order[0]);
      GroupedSplit(Without(qs, order[0]), order[1..]);
      assert multiset(Grouped(qs, order)) == multiset(Named(qs, order[0])) + multiset(Grouped(Without(qs, order[0]), order[1..]));
    }
  }

  /** Grouping keeps, for every name, all its requests in arrival order. */
  lemma {:induction false} GroupedKeepsOrder(qs: seq<Request>, order: seq<string>, name: string)
    requires forall i, j :: 0 <= i < j < |order| ==> order[i] != order[j]
    ensures Named(Grouped(qs, order), name) == if name in order then Named(qs, name) else []
    decreases |order|
  {
    hide Named;
    hide Without;
    if order == [] {
      NoneNamed(name);
    } else {
      var a := order[0];
      GroupedKeepsOrder(Without(qs, a), order[1..], name);
      NamedConcat(Named(qs, a), Grouped(Without(qs, a), order[1..]), name);
      NamedTwice(qs, a, name);
      assert name in order <==> name == a || name in order[1..] by { assert order == [a] + order[1..]; }
      assert a !in order[1..];
    }
  }

  lemma NoneNamed(name: string)
    ensures Named([], name) == []
  {
  }

  // ---- the first batch of a task ----

  function AnswerMessages(answers: seq<Answer>): seq<Message> {
    seq(|answers|, i requires 0 <= i < |answers| => AnswerMessage(answers[i]))
  }

  /** One InvokeUpdate per request, under the given numbers. */
  function Invocations(runId: string, qs: seq<Request>, numbers: seq<nat>): seq<Message>
    requires |numbers| == |qs|
  {
    seq(|qs|, i requires 0 <= i < |qs| =>
      CommandMessage(Wrap(numbers[i]), InvokeUpdate(runId, qs[i].token.updateId, qs[i].name, VALIDATE_EXECUTE), qs[i].input, qs[i].header))
  }

  /** The same under the next numbers the workflow draws. */
  function Invoked(s: State, qs: seq<Request>): seq<Message> {
    Invocations(s.env.info.runId, qs, Numbering.Numbers(s.out.count, s.out.gaps, |qs|))
  }

  lemma {:induction false} DrainCallbacksQueue(s: State, i: nat)
    requires i <= |s.callbacks|
    ensures var r := DrainCallbacks(s, i);
            r.out.queue == s.out.queue + AnswerMessages(s.callbacks[i..]) && r.out.count == s.out.count && r.out.gaps == s.out.gaps
    decreases |s.callbacks| - i
  {
    if i < |s.callbacks| {
      DrainCallbacksQueue(RunCallback(s, s.callbacks[i]), i + 1);
      assert AnswerMessages(s.callbacks[i..]) == [AnswerMessage(s.callbacks[i])] + AnswerMessages(s.callbacks[i + 1..]);
    }
  }

  lemma {:induction false} InvokeAllQueue(s: State, qs: seq<Request>)
    ensures var r := InvokeAll(s, qs);
            r.out.queue == s.out.queue + Invoked(s, qs) && (r.out.count, r.out.gaps) == Numbering.After(s.out.count, s.out.gaps, |qs|)
    decreases |qs|
  {
    hide Numbering.Numbers;
    hide Invocations;
    hide Wrap;
    if qs == [] {
      NoneInvoked(s);
    } else {
      var s1 := InvokeQueued(s, qs[0]);
      InvokeAllQueue(s1, qs[1..]);
      InvokedCons(s, qs);
    }
  }

  lemma InvokedCons(s: State, qs: seq<Request>)
    requires qs != []
    ensures var s1 := InvokeQueued(s, qs[0]);
            s1.out.queue + Invoked(s1, qs[1..]) == s.out.queue + Invoked(s, qs)
  {
    hide Numbering.Numbers;
    hide Wrap;
    hide Invocations;
    var s1, q := InvokeQueued(s, qs[0]), qs[0];
    var later := Numbering.Numbers(s1.out.count, s1.out.gaps, |qs| - 1);
    Numbering.NumbersFirst(s.out, |qs| - 1);
    OneInvocation(s.env.info.runId, q, s1.out.count);
    assert [q] + qs[1..] == qs;
    InvocationsConcat(s.env.info.runId, [q], qs[1..], [s1.out.count], later);
  }

  lemma OneInvocation(runId: string, q: Request, n: nat)
    ensures Invocations(runId, [q], [n]) ==
            [CommandMessage(Wrap(n), InvokeUpdate(runId, q.token.updateId, q.name, VALIDATE_EXECUTE), q.input, q.header)]
  {
  }

  lemma InvocationsConcat(runId: string, a: seq<Request>, b: seq<Request>, x: seq<nat>, y: seq<nat>)
    requires |x| == |a| && |y| == |b|
    ensures Invocations(runId, a + b, x + y) == Invocations(runId, a, x) + Invocations(runId, b, y)
  {
  }

  /** The requests run first draw their numbers first. */
  lemma InvokedConcat(s: State, t: State, a: seq<Request>, b: seq<Request>)
    requires (t.out.count, t.out.gaps) == Numbering.After(s.out.count, s.out.gaps, |a|) && t.env.info == s.env.info
    ensures Invoked(s, a + b) == Invoked(s, a) + Invoked(t, b)
  {
    hide Numbering.Numbers;
    hide Numbering.After;
    hide Invocations;
    Numbering.NumbersConcat(s.out.count, s.out.gaps, |a|, |b|);
    InvocationsConcat(s.env.info.runId, a, b, Numbering.Numbers(s.out.count, s.out.gaps, |a|), Numbering.Numbers(t.out.count, t.out.gaps, |b|));
  }

  lemma NoneInvoked(s: State)
    ensures Invoked(s, []) == []
  {
  }

  lemma {:induction false} DrainNamesQueue(s: State, order: seq<string>)
    ensures var r := DrainNames(s, order);
            && r.out.queue == s.out.queue + Invoked(s, Grouped(s.env.updates, order))
            && r.env.updates == Leftover(s.env.updates, order)
    decreases |order|
  {
    hide InvokeAll;
    hide Invoked;
    hide Named;
    hide Without;
    if order == [] {
      NoneInvoked(s);
    } else {
      var name := order[0];
      var qs := Named(s.env.updates, name);
      var rest := Without(s.env.updates, name);
      var s1 := s.(env := s.env.Told(HandleQueuedUpdates(name)).(updates := rest));
      InvokeAllQueue(s1, qs);
      SameNumbers(s, s1, qs);
      Pipeline.InvokeAllFrame(s1, qs);
      InvokedConcat(s, DrainName(s, name), qs, Grouped(rest, order[1..]));
      DrainNamesQueue(DrainName(s, name), order[1..]);
    }
  }

  /** Every queued request has its name noted. */
  predicate Noted(s: State) {
    forall q :: q in s.env.updates ==> q.name in s.updates.names
  }

  /** The first batch of a task is what was queued, then the deferred answers in the order they came, then one
      InvokeUpdate per queued request, under the next ids the workflow draws, which rise however others draw in between.
      Whatever the iteration order of the names, no request is lost or repeated, requests of one name keep their order,
      and no name and no request stay behind. */
  lemma FirstBatch(s: State, order: seq<string>)
    requires Noted(s) && Attributes.Iteration(order, s.updates.names)
    ensures var b := BeforeFlush(s, order);
            && b.out.queue == s.out.queue + AnswerMessages(s.callbacks) + Invoked(s, Grouped(s.env.updates, order))
            && b.env.updates == [] && b.updates.names == {} && b.callbacks == []
    ensures Numbering.Above(Numbering.Numbers(s.out.count, s.out.gaps, |s.env.updates|), s.out.count)
    ensures multiset(Grouped(s.env.updates, order)) == multiset(s.env.updates)
    ensures forall name :: Named(Grouped(s.env.updates, order), name) == Named(s.env.updates, name)
  {
    var s0 := s.(inLoop := true);
    var s1 := DrainCallbacks(s0, 0);
    DrainCallbacksQueue(s0, 0);
    assert s0.callbacks[0..] == s.callbacks;
    DrainNamesQueue(s1, order);
    SameNumbers(s, s1, Grouped(s.env.updates, order));
    Pipeline.DrainNamesFrame(s1, order);
    GroupedIsAll(s, order);
    Numbering.NumbersRise(s.out.count, s.out.gaps, |s.env.updates|);
    hide Grouped;
    hide Leftover;
    hide DrainNames;
    hide DrainCallbacks;
    hide Invoked;
    hide AnswerMessages;
  }

  lemma SameNumbers(s: State, t: State, qs: seq<Request>)
    requires t.out.count == s.out.count && t.out.gaps == s.out.gaps && t.env.info == s.env.info
    ensures Invoked(t, qs) == Invoked(s, qs)
  {
  }

  lemma FirstIn(qs: seq<Request>)
    requires qs != []
    ensures qs[0] in qs
  {
  }

  lemma GroupedIsAll(s: State, order: seq<string>)
    requires Noted(s) && Attributes.Iteration(order, s.updates.names)
    ensures Leftover(s.env.updates, order) == []
    ensures multiset(Grouped(s.env.updates, order)) == multiset(s.env.updates)
    ensures forall name :: Named(Grouped(s.env.updates, order), name) == Named(s.env.updates, name)
  {
    var qs := s.env.updates;
    var left := Leftover(qs, order);
    GroupedSplit(qs, order);
    assert left == [] by {
      if left != [] {
        FirstIn(left);
        assert false;
      }
    }
    forall name ensures Named(Grouped(qs, order), name) == Named(qs, name) {
      GroupedKeepsOrder(qs, order, name);
      if name !in order {
        NamedSplit(qs, name);
        assert Named(qs, name) == [] by {
          if Named(qs, name) != [] {
            FirstIn(Named(qs, name));
            assert false;
          }
        }
      }
    }
  }

  /** The newest request of an id among some requests run in order. */
  function Newest(qs: seq<Request>, id: string): Option<Token> {
    if qs == [] then None
    else if qs[|qs| - 1].token.updateId == id then Some(qs[|qs| - 1].token)
    else Newest(qs[..|qs| - 1], id)
  }

  /** The callback kept for an id once some requests have been run. */
  predicate Armed(before: map<string, Token>, after: map<string, Token>, qs: seq<Request>, id: string) {
    match Newest(qs, id)
    case Some(t) => id in after && after[id] == t
    case None => (id in after <==> id in before) && (id in before ==> after[id] == before[id])
  }

  lemma {:induction false} NewestConcat(a: seq<Request>, b: seq<Request>, id: string)
    ensures Newest(a + b, id) == if Newest(b, id).Some? then Newest(b, id) else Newest(a, id)
  {
    if b == [] {
      assert a + b == a;
    } else {
      assert (a + b)[..|a + b| - 1] == a + b[..|b| - 1];
      NewestConcat(a, b[..|b| - 1], id);
    }
  }

  lemma {:induction false} InvokeAllArms(s: State, qs: seq<Request>, id: string)
    ensures var r := InvokeAll(s, qs);
            Armed(s.updates.validate, r.updates.validate, qs, id) && Armed(s.updates.complete, r.updates.complete, qs, id)
    decreases |qs|
  {
    if qs != [] {
      InvokeAllArms(InvokeQueued(s, qs[0]), qs[1..], id);
      NewestConcat([qs[0]], qs[1..], id);
      assert [qs[0]] + qs[1..] == qs && [qs[0]][..0] == [];
      assert Newest([qs[0]], id) == if qs[0].token.updateId == id then Some(qs[0].token) else None;
      hide Newest;
    }
  }

  lemma ArmedChain(a: map<string, Token>, b: map<string, Token>, c: map<string, Token>, p: seq<Request>, q: seq<Request>, id: string)
    requires Armed(a, b, p, id) && Armed(b, c, q, id)
    ensures Armed(a, c, p + q, id)
  {
    hide Newest;
    NewestConcat(p, q, id);
  }

  lemma {:induction false} DrainNamesArms(s: State, order: seq<string>, id: string)
    ensures var r := DrainNames(s, order);
            var qs := Grouped(s.env.updates, order);
            Armed(s.updates.validate, r.updates.validate, qs, id) && Armed(s.updates.complete, r.updates.complete, qs, id)
    decreases |order|
  {
    hide Armed;
    hide InvokeAll;
    if order == [] {
      NoneArmed(s.updates.validate, id);
      NoneArmed(s.updates.complete, id);
    } else {
      var qs, rest := Named(s.env.updates, order[0]), Without(s.env.updates, order[0]);
      var s1 := s.(env := s.env.Told(HandleQueuedUpdates(order[0])).(updates := rest));
      var r := DrainName(s, order[0]);
      InvokeAllArms(s1, qs, id);
      Pipeline.InvokeAllFrame(s1, qs);
      DrainNamesArms(r, order[1..], id);
      var t := DrainNames(s, order);
      ArmedChain(s.updates.validate, r.updates.validate, t.updates.validate, qs, Grouped(rest, order[1..]), id);
      ArmedChain(s.updates.complete, r.updates.complete, t.updates.complete, qs, Grouped(rest, order[1..]), id);
    }
  }

  lemma NoneArmed(m: map<string, Token>, id: string)
    ensures Armed(m, m, [], id)
  {
  }

  /** Once a workflow task has run the queued requests, each waits for its verdicts: both callbacks of an id are those of
      its newest request, and ids without a new one keep theirs. */
  lemma RequestsWait(s: State, order: seq<string>, id: string)
    ensures var b := BeforeFlush(s, order);
            var qs := Grouped(s.env.updates, order);
            Armed(s.updates.validate, b.updates.validate, qs, id) && Armed(s.updates.complete, b.updates.complete, qs, id)
  {
    hide Armed;
    hide Grouped;
    hide DrainNames;
    hide DrainCallbacks;
    DrainNamesArms(DrainCallbacks(s.(inLoop := true), 0), order, id);
  }

  /** Handling a message takes no callback away but those of the update it settles: the completion of an update completed,
      the validation of one validated, and the completion too if that failed. */
  lemma OthersWaitOn(s: State, m: Message, id: string)
    requires m.IsCommand()
    ensures var u, r := s.updates, HandleMessage(s, m).state.updates;
            var completed := id != "" && m.command == Some(UpdateCompleted(id));
            var validated := id != "" && m.command == Some(UpdateValidated(id)) && id in u.validate;
            && (id in r.validate <==> id in u.validate && !validated)
            && (id in r.complete <==> id in u.complete && !completed && !(validated && m.failure.Some?))
            && (id in r.validate ==> r.validate[id] == u.validate[id])
            && (id in r.complete ==> r.complete[id] == u.complete[id])
  {
    hide HandleMessage;
    if IsAsking(m.command.value) {
      AskingSame(s, m);
    } else if IsApart(m.command.value) {
      hide StoryOf;
      HandleApart(s, m);
    } else {
      SettlingTakes(s, m, id);
    }
  }

  lemma AskingSame(s: State, m: Message)
    requires m.IsCommand() && IsAsking(m.command.value)
    ensures HandleMessage(s, m).state.updates == s.updates
  {
    hide HandleMessage;
    hide Asking;
    hide StoryOf;
    AskingApart(s, m);
    AskingTalks(s, m);
  }

  lemma SettlingTakes(s: State, m: Message, id: string)
    requires m.IsCommand() && !IsApart(m.command.value) && !IsAsking(m.command.value)
    ensures var u, r := s.updates, HandleMessage(s, m).state.updates;
            var completed := id != "" && m.command == Some(UpdateCompleted(id));
            var validated := id != "" && m.command == Some(UpdateValidated(id)) && id in u.validate;
            && (id in r.validate <==> id in u.validate && !validated)
            && (id in r.complete <==> id in u.complete && !completed && !(validated && m.failure.Some?))
            && (id in r.validate ==> r.validate[id] == u.validate[id])
            && (id in r.complete ==> r.complete[id] == u.complete[id])
  {
    hide Call;
    hide CancelIds;
    hide DoUpdateCompleted;
    hide DoUpdateValidated;
    hide DoComplete;
    hide DoContinueAsNew;
    match m.command.value
    case UpdateCompleted(named) => UpdateTakes(s, m, named);
    case UpdateValidated(named) => UpdateTakes(s, m, named);
    case CompleteWorkflow => CompletingSame(s, m, "", ContinueOptions("", 0, 0));
    case ContinueAsNew(name, next) => CompletingSame(s, m, name, next);
  }

  lemma UpdateTakes(s: State, m: Message, id: string)
    ensures DoUpdateCompleted(s, m, id).state.updates ==
            s.updates.(complete := if id == "" then s.updates.complete else s.updates.complete - {id})
    ensures DoUpdateValidated(s, m, id).state.updates ==
            if id == "" || id !in s.updates.validate then s.updates
            else s.updates.(validate := s.updates.validate - {id},
                            complete := if m.failure.Some? then s.updates.complete - {id} else s.updates.complete)
  {
    if id !in s.updates.complete {
      assert s.updates.complete - {id} == s.updates.complete;
    }
  }

  lemma CompletingSame(s: State, m: Message, name: string, next: ContinueOptions)
    ensures DoComplete(s, m).updates == s.updates && DoContinueAsNew(s, m, name, next).updates == s.updates
  {
  }

  // ---- verdicts ----

  /** The verdicts on one request, in order. */
  function Verdicts(trace: seq<EnvCall>, t: Token): seq<Verdict> {
    if trace == [] then []
    else
      var v := VerdictOn(trace[|trace| - 1], t);
      Verdicts(trace[..|trace| - 1], t) + (if v.Some? then [v.value] else [])
  }

  function Telling(story: Story): seq<Verdict> {
    match story
    case Silent => []
    case Accepting => [Accepted]
    case Rejecting => [Rejected]
    case Completing => [Completed]
    case AcceptedThenCompleted => [Accepted, Completed]
    case CompletedThenAccepted => [Completed, Accepted]
    case CompletedThenRejected => [Completed, Rejected]
    case Unlawful => []
  }

  lemma {:induction false} StoryTells(trace: seq<EnvCall>, t: Token)
    requires StoryOf(trace, t) != Unlawful
    ensures Verdicts(trace, t) == Telling(StoryOf(trace, t))
  {
    if trace != [] {
      StoryTells(trace[..|trace| - 1], t);
    }
  }

  /** A prefix of Reject, or of Accept and Complete. */
  predicate ValidatedFirst(v: seq<Verdict>) {
    v == [] || v == [Rejected] || v == [Accepted] || v == [Accepted, Completed]
  }

  predicate InOrder(s: Story) {
    s != Unlawful && ValidatedFirst(Telling(s))
  }

  predicate Holds(m: map<string, Token>, t: Token) {
    t.updateId in m && m[t.updateId] == t
  }

  /** Requests not run yet are new, in order of arrival, and have no callback and no verdict. */
  ghost predicate Waiting(u: Updates, trace: seq<EnvCall>, tokens: nat, qs: seq<Request>) {
    && Sorted(qs)
    && (forall i :: 0 <= i < |qs| ==> Unheard(u, trace, tokens, qs[i].token))
  }

  predicate Unheard(u: Updates, trace: seq<EnvCall>, tokens: nat, t: Token) {
    t.n < tokens && StoryOf(trace, t) == Silent && !Holds(u.validate, t) && !Holds(u.complete, t)
  }

  /** What a request may have heard, given the callbacks it still has. */
  predicate Heard(u: Updates, story: Story, t: Token) {
    && story != Unlawful
    && (Holds(u.validate, t) ==> story.Silent? || story.Completing?)
    && (Holds(u.complete, t) ==> story.Silent? || story.Accepting?)
    && (Holds(u.complete, t) && story.Silent? ==> Holds(u.validate, t))
  }

  ghost predicate Callbacks(u: Updates, trace: seq<EnvCall>, tokens: nat) {
    && (forall id :: id in u.validate ==> u.validate[id].updateId == id && u.validate[id].n < tokens)
    && (forall id :: id in u.complete ==> u.complete[id].updateId == id && u.complete[id].n < tokens)
    && (forall id :: id in u.validate && id in u.complete ==> u.validate[id] == u.complete[id])
    && (forall t :: Heard(u, StoryOf(trace, t), t))
    && (forall t: Token :: t.n >= tokens ==> StoryOf(trace, t) == Silent)
  }

  ghost predicate Life(s: State) {
    && Callbacks(s.updates, s.env.trace, s.env.tokens)
    && Waiting(s.updates, s.env.trace, s.env.tokens, s.env.updates)
    && Hurried(s.env.trace, s.log.hasty)
  }

  /** The requests told things out of order are those completed before they were validated. */
  ghost predicate Hurried(trace: seq<EnvCall>, hasty: set<Token>) {
    forall t :: InOrder(StoryOf(trace, t)) <==> t !in hasty
  }

  lemma ApartLives(s: State, r: State)
    requires Life(s)
    requires r.updates.validate == s.updates.validate && r.updates.complete == s.updates.complete
    requires r.env.updates == s.env.updates && r.env.tokens == s.env.tokens
    requires forall t :: StoryOf(r.env.trace, t) == StoryOf(s.env.trace, t)
    requires r.log.hasty == s.log.hasty
    ensures Life(r)
  {
    forall t ensures Heard(r.updates, StoryOf(r.env.trace, t), t) {
      assert Heard(s.updates, StoryOf(s.env.trace, t), t);
    }
    forall i | 0 <= i < |r.env.updates| ensures Unheard(r.updates, r.env.trace, r.env.tokens, r.env.updates[i].token) {
      assert Unheard(s.updates, s.env.trace, s.env.tokens, s.env.updates[i].token);
    }
  }

  lemma HeardLater(u: Updates, r: Updates, trace: seq<EnvCall>, c: EnvCall, t: Token)
    requires r.validate == u.validate || r.validate == u.validate - {t.updateId}
    requires r.complete == u.complete || r.complete == u.complete - {t.updateId}
    requires forall w :: w != t ==> VerdictOn(c, w) == None
    requires Heard(r, Hear(StoryOf(trace, t), VerdictOn(c, t)), t)
    requires forall w :: Heard(u, StoryOf(trace, w), w)
    requires Holds(u.validate, t) || Holds(u.complete, t)
    ensures forall w :: Heard(r, StoryOf(trace + [c], w), w)
    ensures forall w :: w != t ==> StoryOf(trace + [c], w) == StoryOf(trace, w)
  {
    forall w ensures Heard(r, StoryOf(trace + [c], w), w) && (w != t ==> StoryOf(trace + [c], w) == StoryOf(trace, w)) {
      TraceSnoc(trace, c, w);
      assert Heard(u, StoryOf(trace, w), w);
    }
  }

  /** A verdict on `t`, which empties the slots it must. */
  lemma VerdictLives(u: Updates, r: Updates, trace: seq<EnvCall>, tokens: nat, qs: seq<Request>, c: EnvCall, t: Token)
    requires Callbacks(u, trace, tokens) && Waiting(u, trace, tokens, qs)
    requires r.validate == u.validate || r.validate == u.validate - {t.updateId}
    requires r.complete == u.complete || r.complete == u.complete - {t.updateId}
    requires t.n < tokens && (Holds(u.validate, t) || Holds(u.complete, t))
    requires forall w :: w != t ==> VerdictOn(c, w) == None
    requires Heard(r, Hear(StoryOf(trace, t), VerdictOn(c, t)), t)
    ensures Callbacks(r, trace + [c], tokens) && Waiting(r, trace + [c], tokens, qs)
  {
    hide StoryOf;
    hide Heard;
    hide Sorted;
    HeardLater(u, r, trace, c, t);
    forall i | 0 <= i < |qs| ensures Unheard(r, trace + [c], tokens, qs[i].token) {
      assert Unheard(u, trace, tokens, qs[i].token);
    }
  }

  /** One more verdict on `t`, hurried or not. */
  lemma HurriedStep(trace: seq<EnvCall>, hasty: set<Token>, c: EnvCall, t: Token, hurried: bool)
    requires Hurried(trace, hasty)
    requires forall w :: w != t ==> VerdictOn(c, w) == None
    requires InOrder(Hear(StoryOf(trace, t), VerdictOn(c, t))) <==> InOrder(StoryOf(trace, t)) && !hurried
    ensures Hurried(trace + [c], hasty + (if hurried then {t} else {}))
  {
    hide StoryOf;
    hide InOrder;
    hide FailedEffects;
    hide VerdictOn;
    var later := hasty + (if hurried then {t} else {});
    forall w ensures InOrder(StoryOf(trace + [c], w)) <==> w !in later {
      TraceSnoc(trace, c, w);
      assert w != t ==> StoryOf(trace + [c], w) == StoryOf(trace, w);
    }
  }

  /** Completing keeps the story lawful. */
  lemma CompletedLives(s: State, m: Message, id: string)
    requires Life(s)
    ensures Life(DoUpdateCompleted(s, m, id).state)
  {
    if id != "" && id in s.updates.complete {
      var t := s.updates.complete[id];
      var c := CompleteUpdate(t, OutcomeOf(m));
      assert Heard(s.updates, StoryOf(s.env.trace, t), t);
      TraceSnoc(s.env.trace, c, t);
      hide StoryOf;
      VerdictLives(s.updates, s.updates.(complete := s.updates.complete - {id}), s.env.trace, s.env.tokens, s.env.updates, c, t);
      HurriedStep(s.env.trace, s.log.hasty, c, t, id in s.updates.validate);
    }
  }

  /** Outside a replay a failed validation rejects, and during one it is accepted; either way the completion of the
      failed request is dropped, so nothing can complete it any more. */
  lemma FailedValidation(s: State, m: Message, id: string)
    requires id != "" && id in s.updates.validate && m.failure.Some?
    ensures var r := DoUpdateValidated(s, m, id).state;
            var t := s.updates.validate[id];
            && StoryOf(r.env.trace, t) == Hear(StoryOf(s.env.trace, t), Some(if s.env.replaying then Accepted else Rejected))
            && id !in r.updates.validate && id !in r.updates.complete
  {
    hide StoryOf;
    var t := s.updates.validate[id];
    TraceSnoc(s.env.trace, if s.env.replaying then Accept(t) else Reject(t, m.failure.value), t);
  }

  /** A validation, on the callback tables and the trace alone. */
  lemma ValidationLives(u: Updates, trace: seq<EnvCall>, tokens: nat, qs: seq<Request>, c: EnvCall, id: string, failed: bool)
    requires Callbacks(u, trace, tokens) && Waiting(u, trace, tokens, qs)
    requires id in u.validate && (c == Accept(u.validate[id]) || (failed && c.Reject? && c.token == u.validate[id]))
    ensures var r := u.(validate := u.validate - {id}, complete := if failed then u.complete - {id} else u.complete);
            Callbacks(r, trace + [c], tokens) && Waiting(r, trace + [c], tokens, qs)
    ensures InOrder(Hear(StoryOf(trace, u.validate[id]), VerdictOn(c, u.validate[id]))) <==> InOrder(StoryOf(trace, u.validate[id]))
  {
    hide StoryOf;
    hide Waiting;
    var t := u.validate[id];
    var r := u.(validate := u.validate - {id}, complete := if failed then u.complete - {id} else u.complete);
    assert Heard(u, StoryOf(trace, t), t);
    VerdictLives(u, r, trace, tokens, qs, c, t);
  }

  /** Validating keeps the story lawful. */
  lemma ValidatedLives(s: State, m: Message, id: string)
    requires Life(s)
    ensures Life(DoUpdateValidated(s, m, id).state)
  {
    hide StoryOf;
    hide Callbacks;
    hide Waiting;
    hide InOrder;
    if id != "" && id in s.updates.validate {
      var t := s.updates.validate[id];
      var c := if !s.env.replaying && m.failure.Some? then Reject(t, m.failure.value) else Accept(t);
      ValidationLives(s.updates, s.env.trace, s.env.tokens, s.env.updates, c, id, m.failure.Some?);
      HurriedStep(s.env.trace, s.log.hasty, c, t, false);
      hide Hurried;
      assert s.log.hasty + {} == s.log.hasty;
    }
  }

  // ---- running the queued requests ----

  ghost predicate Distinct(a: seq<Request>, b: seq<Request>) {
    forall i, j :: 0 <= i < |a| && 0 <= j < |b| ==> a[i].token != b[j].token
  }

  predicate Sorted(qs: seq<Request>) {
    forall i, j :: 0 <= i < j < |qs| ==> qs[i].token.n < qs[j].token.n
  }

  lemma SortedSnoc(qs: seq<Request>, q: Request)
    requires Sorted(qs) && forall i :: 0 <= i < |qs| ==> qs[i].token.n < q.token.n
    ensures Sorted(qs + [q])
  {
  }

  /** Sorted, and all before `n`. */
  predicate SortedBelow(qs: seq<Request>, n: nat) {
    Sorted(qs) && forall i :: 0 <= i < |qs| ==> qs[i].token.n < n
  }

  lemma {:induction false} SplitSorted(qs: seq<Request>, name: string, n: nat)
    requires SortedBelow(qs, n)
    ensures SortedBelow(Named(qs, name), n) && SortedBelow(Without(qs, name), n)
  {
    if qs != [] {
      var before := qs[..|qs| - 1];
      var last := qs[|qs| - 1];
      SplitSorted(before, name, last.token.n);
      if last.name == name {
        SortedSnoc(Named(before, name), last);
      } else {
        SortedSnoc(Without(before, name), last);
      }
    }
  }

  lemma SplitWaiting(u: Updates, trace: seq<EnvCall>, tokens: nat, qs: seq<Request>, name: string)
    requires Waiting(u, trace, tokens, qs)
    ensures Waiting(u, trace, tokens, Named(qs, name)) && Waiting(u, trace, tokens, Without(qs, name))
    ensures Distinct(Named(qs, name), Without(qs, name))
  {
    SplitSorted(qs, name, tokens);
    NamedSplit(qs, name);
    hide Named;
    hide Without;
    PartWaiting(u, trace, tokens, qs, Named(qs, name));
    PartWaiting(u, trace, tokens, qs, Without(qs, name));
    forall i, j | 0 <= i < |Named(qs, name)| && 0 <= j < |Without(qs, name)|
      ensures Named(qs, name)[i].token != Without(qs, name)[j].token
    {
      SameRequest(qs, Named(qs, name)[i], Without(qs, name)[j]);
    }
  }

  lemma SameRequest(qs: seq<Request>, a: Request, b: Request)
    requires Sorted(qs) && a in qs && b in qs
    ensures a.token == b.token ==> a == b
  {
  }

  lemma PartWaiting(u: Updates, trace: seq<EnvCall>, tokens: nat, qs: seq<Request>, part: seq<Request>)
    requires Waiting(u, trace, tokens, qs) && SortedBelow(part, tokens) && forall q :: q in part ==> q in qs
    ensures Waiting(u, trace, tokens, part)
  {
    hide Unheard;
    forall i | 0 <= i < |part| ensures Unheard(u, trace, tokens, part[i].token) {
      assert part[i] in qs;
    }
  }

  lemma InvokeLives(u: Updates, trace: seq<EnvCall>, tokens: nat, hand: seq<Request>, rest: seq<Request>)
    requires hand != []
    requires Callbacks(u, trace, tokens) && Waiting(u, trace, tokens, hand) && Waiting(u, trace, tokens, rest) && Distinct(hand, rest)
    ensures var t := hand[0].token;
            var r := u.(validate := u.validate[t.updateId := t], complete := u.complete[t.updateId := t]);
            Callbacks(r, trace, tokens) && Waiting(r, trace, tokens, hand[1..]) && Waiting(r, trace, tokens, rest) && Distinct(hand[1..], rest)
  {
    hide StoryOf;
    var t := hand[0].token;
    var r := u.(validate := u.validate[t.updateId := t], complete := u.complete[t.updateId := t]);
    assert Unheard(u, trace, tokens, t);
    forall w ensures Heard(r, StoryOf(trace, w), w) {
      assert Heard(u, StoryOf(trace, w), w);
    }
    forall i | 0 <= i < |hand[1..]| ensures Unheard(r, trace, tokens, hand[1..][i].token) {
      assert Unheard(u, trace, tokens, hand[i + 1].token);
      assert hand[0].token.n < hand[i + 1].token.n;
    }
    forall i | 0 <= i < |rest| ensures Unheard(r, trace, tokens, rest[i].token) {
      assert Unheard(u, trace, tokens, rest[i].token);
      assert hand[0].token != rest[i].token;
    }
  }

  lemma {:induction false} InvokeAllLives(s: State, hand: seq<Request>)
    requires Life(s) && Waiting(s.updates, s.env.trace, s.env.tokens, hand) && Distinct(hand, s.env.updates)
    ensures Life(InvokeAll(s, hand))
    decreases |hand|
  {
    hide Callbacks;
    hide Waiting;
    hide Distinct;
    if hand != [] {
      InvokeLives(s.updates, s.env.trace, s.env.tokens, hand, s.env.updates);
      InvokeAllLives(InvokeQueued(s, hand[0]), hand[1..]);
    }
  }

  lemma DrainNameLives(s: State, name: string)
    requires Life(s) && Noted(s)
    ensures Life(DrainName(s, name)) && Noted(DrainName(s, name))
  {
    var s1 := s.(env := s.env.Told(HandleQueuedUpdates(name)));
    forall t ensures StoryOf(s1.env.trace, t) == StoryOf(s.env.trace, t) {
      TraceSnoc(s.env.trace, HandleQueuedUpdates(name), t);
    }
    ApartLives(s, s1);
    SplitWaiting(s1.updates, s1.env.trace, s1.env.tokens, s.env.updates, name);
    NamedSplit(s.env.updates, name);
    hide Callbacks;
    hide Waiting;
    hide Named;
    hide Without;
    hide StoryOf;
    var s2 := s1.(env := s1.env.(updates := Without(s.env.updates, name)));
    InvokeAllLives(s2, Named(s.env.updates, name));
    var s3 := InvokeAll(s2, Named(s.env.updates, name));
    Pipeline.InvokeAllFrame(s2, Named(s.env.updates, name));
    hide InvokeAll;
    ApartLives(s3, DrainName(s, name));
  }

  lemma {:induction false} DrainNamesLives(s: State, order: seq<string>)
    requires Life(s) && Noted(s)
    ensures Life(DrainNames(s, order)) && Noted(DrainNames(s, order))
    decreases |order|
  {
    hide Life;
    hide Noted;
    if order != [] {
      DrainNameLives(s, order[0]);
      DrainNamesLives(DrainName(s, order[0]), order[1..]);
    }
  }

  // ---- commands, tasks, runs ----

  lemma AskingLives(s: State, m: Message)
    requires Life(s) && m.IsCommand() && IsAsking(m.command.value)
    ensures Life(HandleMessage(s, m).state)
    ensures HandleMessage(s, m).state.env.updates == s.env.updates && HandleMessage(s, m).state.updates.names == s.updates.names
  {
    hide HandleMessage;
    hide Asking;
    hide Life;
    hide StoryOf;
    hide FailedEffects;
    AskingApart(s, m);
    AskingTalks(s, m);
    ApartLives(s, HandleMessage(s, m).state);
  }

  lemma ApartCommandLives(s: State, m: Message)
    requires Life(s) && m.IsCommand() && IsApart(m.command.value)
    ensures Life(HandleMessage(s, m).state)
    ensures HandleMessage(s, m).state.env.updates == s.env.updates && HandleMessage(s, m).state.updates.names == s.updates.names
  {
    HandleApart(s, m);
    var r := HandleMessage(s, m).state;
    hide HandleMessage;
    hide Life;
    hide StoryOf;
    ApartLives(s, r);
  }

  lemma CompletingLives(s: State, m: Message, name: string, next: ContinueOptions)
    requires Life(s)
    ensures Life(DoComplete(s, m)) && Life(DoContinueAsNew(s, m, name, next))
  {
    TellApart(s, m, if m.failure.None? then Complete(m.payloads, None) else Complete(NoPayloads, m.failure));
    TellApart(s, m, CompleteAsNew(name, next, m.payloads, m.header));
    hide Life;
    hide StoryOf;
    ApartLives(s, DoComplete(s, m));
    ApartLives(s, DoContinueAsNew(s, m, name, next));
  }

  lemma HandleLives(s: State, m: Message)
    requires Life(s) && Noted(s) && m.IsCommand()
    ensures Life(HandleMessage(s, m).state) && Noted(HandleMessage(s, m).state)
  {
    hide Life;
    if IsAsking(m.command.value) {
      AskingLives(s, m);
      var r := HandleMessage(s, m).state;
      hide HandleMessage;
      assert Noted(r);
    } else if IsApart(m.command.value) {
      ApartCommandLives(s, m);
      var r := HandleMessage(s, m).state;
      hide HandleMessage;
      assert Noted(r);
    } else {
      SettlingLives(s, m);
    }
  }

  lemma SettlingLives(s: State, m: Message)
    requires Life(s) && Noted(s) && m.IsCommand() && !IsApart(m.command.value) && !IsAsking(m.command.value)
    ensures Life(HandleMessage(s, m).state) && Noted(HandleMessage(s, m).state)
  {
    hide Life;
    hide Call;
    hide CancelIds;
    match m.command.value
    case UpdateCompleted(id) => CompletedLives(s, m, id);
    case UpdateValidated(id) => ValidatedLives(s, m, id);
    case CompleteWorkflow => CompletingLives(s, m, "", ContinueOptions("", 0, 0));
    case ContinueAsNew(name, next) => CompletingLives(s, m, name, next);
  }

  lemma {:induction false} PipelineLives(s: State)
    requires Life(s) && Noted(s)
    ensures Life(RunPipeline(s).state) && Noted(RunPipeline(s).state)
    decreases s.inbox.Work()
  {
    hide HandleMessage;
    if s.inbox.pipeline != [] {
      var m := s.inbox.pipeline[0];
      var s1 := s.(inbox := s.inbox.Popped());
      assert Life(s1) && Noted(s1);
      hide Life;
      hide Noted;
      if !m.IsCommand() {
        PipelineLives(s1);
      } else if m.IsUndefinedResponse() {
        ClearedLives(s1);
      } else {
        HandleLives(s1, m);
        var r := HandleMessage(s1, m);
        ClearedLives(r.state);
        if r.exit.Normal? {
          PipelineLives(r.state);
        }
      }
    }
  }

  lemma ClearedLives(s: State)
    requires Life(s) && Noted(s)
    ensures Life(s.(inbox := s.inbox.Cleared())) && Noted(s.(inbox := s.inbox.Cleared()))
  {
  }

  lemma BeforeFlushLives(s: State, order: seq<string>)
    requires Life(s) && Noted(s) && Attributes.Iteration(order, s.updates.names)
    ensures Life(BeforeFlush(s, order)) && Noted(BeforeFlush(s, order))
  {
    FirstBatch(s, order);
    var s1 := DrainCallbacks(s.(inLoop := true), 0);
    Pipeline.DrainCallbacksFrame(s.(inLoop := true), 0);
    ApartLives(s, s1);
    hide DrainCallbacks;
    hide DrainNames;
    hide StoryOf;
    hide Life;
    DrainNamesLives(s1, order);
    ApartLives(DrainNames(s1, order), BeforeFlush(s, order));
  }

  lemma FlushLives(s: State)
    requires Life(s) && Noted(s)
    ensures Life(Flush(s).state) && Noted(Flush(s).state)
  {
    var r := Flush(s).state;
    assert r.env == s.env && r.updates == s.updates;
    hide Flush;
    hide StoryOf;
  }

  lemma TaskLives(s: State, order: seq<string>, reactions: seq<Reaction>, replies: seq<Exchange>, replaying: bool)
    requires Life(s) && Noted(s) && Attributes.Iteration(order, s.updates.names)
    ensures var r := DoTask(s, order, reactions, replies, replaying); Life(r) && Noted(r)
  {
    var s1 := s.(inbox := s.inbox.(replies := replies), env := s.env.(reactions := reactions, replaying := replaying));
    hide StoryOf;
    hide Callbacks;
    hide Waiting;
    hide DrainCallbacks;
    hide DrainNames;
    hide RunPipeline;
    hide Flush;
    BeforeFlushLives(s1, order);
    var f := Flush(BeforeFlush(s1, order));
    FlushLives(BeforeFlush(s1, order));
    if f.exit.Normal? {
      PipelineLives(f.state);
    }
  }

  lemma RequestLives(s: State, name: string, id: string, input: Payloads, header: Option<Header>)
    requires Life(s) && Noted(s)
    ensures var r := HandleUpdate(s, name, id, input, header); Life(r) && Noted(r)
  {
    var r := HandleUpdate(s, name, id, input, header);
    var t := Token(s.env.tokens, id);
    hide StoryOf;
    forall w ensures Heard(r.updates, StoryOf(r.env.trace, w), w) {
      assert Heard(s.updates, StoryOf(s.env.trace, w), w);
    }
    forall i | 0 <= i < |r.env.updates| ensures Unheard(r.updates, r.env.trace, r.env.tokens, r.env.updates[i].token) {
      if i < |s.env.updates| {
        assert Unheard(s.updates, s.env.trace, s.env.tokens, s.env.updates[i].token);
      }
    }
  }

  lemma NotedNames(s: State)
    ensures Noted(s.(updates := s.updates.(names := NamesOf(s.env.updates))))
  {
    forall q | q in s.env.updates ensures q.name in NamesOf(s.env.updates) {
      var i :| 0 <= i < |s.env.updates| && s.env.updates[i] == q;
      assert s.env.updates[i].name == q.name;
    }
  }

  lemma DrainNamesEmpties(s: State, order: seq<string>)
    requires Attributes.Iteration(order, NamesOf(s.env.updates))
    ensures DrainNames(s, order).env.updates == []
  {
    hide DrainNames;
    hide Leftover;
    hide Grouped;
    hide Invoked;
    DrainNamesQueue(s, order);
    NotedNames(s);
    GroupedIsAll(s.(updates := s.updates.(names := NamesOf(s.env.updates))), order);
  }

  lemma DrainUnhandledStory(s: State, order: seq<string>, t: Token)
    ensures StoryOf(DrainUnhandled(s, order).env.trace, t) == StoryOf(DrainNames(s, order).env.trace, t)
  {
    hide DrainNames;
    hide StoryOf;
    hide FailedEffects;
    TraceSnoc(s.env.trace, DrainUnhandledUpdates, t);
    Pipeline.DrainNamesFrame(s, order);
  }

  lemma DrainUnhandledLives(s: State, order: seq<string>)
    requires Life(s) && Noted(s) && Attributes.Iteration(order, NamesOf(s.env.updates))
    ensures Life(DrainUnhandled(s, order)) && DrainUnhandled(s, order).env.updates == []
  {
    hide Life;
    hide Noted;
    hide Attributes.Iteration;
    hide StoryOf;
    hide DrainNames;
    DrainNamesLives(s, order);
    DrainNamesEmpties(s, order);
    forall t ensures StoryOf(DrainUnhandled(s, order).env.trace, t) == StoryOf(DrainNames(s, order).env.trace, t) {
      DrainUnhandledStory(s, order, t);
    }
    ApartLives(DrainNames(s, order), DrainUnhandled(s, order));
  }

  lemma CloseLives(s: State, order: seq<string>)
    requires Life(s) && Noted(s) && Attributes.Iteration(order, NamesOf(s.env.updates))
    ensures Life(DoClose(s, order)) && Noted(DoClose(s, order))
  {
    DrainUnhandledLives(s, order);
    var s1 := DrainUnhandled(s, order);
    hide DrainUnhandled;
    hide StoryOf;
    var r := DoClose(s, order);
    assert r.env == s1.env && r.updates == s1.updates.(names := {}, complete := map[]);
    forall w ensures Heard(r.updates, StoryOf(r.env.trace, w), w) {
      assert Heard(s1.updates, StoryOf(s1.env.trace, w), w);
    }
  }

  lemma NextLives(s: State, e: Event)
    requires Life(s) && Noted(s)
    ensures Life(Next(s, e)) && Noted(Next(s, e))
  {
    hide StoryOf;
    hide Callbacks;
    hide Waiting;
    hide DoTask;
    hide DoClose;
    hide Fire;
    match e
    case Fires(f) =>
      FireApart(s, f);
      ApartLives(s, Fire(s, f));
    case UpdateRequested(name, id, input, header) => RequestLives(s, name, id, input, header);
    case Task(order, reactions, replies, replaying) =>
      if Attributes.Iteration(order, s.updates.names) {
        TaskLives(s, order, reactions, replies, replaying);
      }
    case Closes(order) =>
      if Attributes.Iteration(order, NamesOf(s.env.updates)) {
        CloseLives(s, order);
      }
    case _ =>
  }

  lemma {:induction false} RunLives(s: State, events: seq<Event>)
    requires Life(s) && Noted(s)
    ensures Life(Run(s, events)) && Noted(Run(s, events))
  {
    hide Life;
    hide Noted;
    hide Next;
    if events != [] {
      RunLives(s, events[..|events| - 1]);
      NextLives(Run(s, events[..|events| - 1]), events[|events| - 1]);
    }
  }

  /** Over every run, Close included, and for every update request: at most one of Accept and Reject, at most one
      Complete, and no Complete after a Reject, whatever the worker sends. What it was told is a prefix of Reject or of
      Accept, Complete if and only if the worker did not complete it while its validation was outstanding. */
  lemma UpdateLifecycle(x: Launch, events: seq<Event>, t: Token)
    ensures var r := Run(Executed(x), events);
            var v := Verdicts(r.env.trace, t);
            && Decided(v)
            && (t !in r.log.hasty <==> ValidatedFirst(v))
  {
    hide Run;
    hide Executed;
    hide Life;
    hide Verdicts;
    var s := Executed(x);
    ExecutedLives(x);
    RunLives(s, events);
    LifeTells(Run(s, events), t);
  }

  lemma ExecutedLives(x: Launch)
    ensures Life(Executed(x)) && Noted(Executed(x))
  {
  }

  /** No verdict twice, at most one of Accept and Reject, nothing after a Reject. */
  predicate Decided(v: seq<Verdict>) {
    forall i, j :: 0 <= i < j < |v| ==> v[i] != v[j] && v[i] != Rejected && (v[i] == Accepted ==> v[j] == Completed)
  }

  lemma LifeTells(s: State, t: Token)
    requires Life(s)
    ensures var v := Verdicts(s.env.trace, t);
            && Decided(v)
            && (t !in s.log.hasty <==> ValidatedFirst(v))
  {
    var story := StoryOf(s.env.trace, t);
    assert Heard(s.updates, story, t);
    StoryTells(s.env.trace, t);
    TellingIs(story);
  }

  lemma TellingIs(story: Story)
    requires story != Unlawful
    ensures var v := Telling(story);
            && Decided(v)
            && (InOrder(story) <==> ValidatedFirst(v))
  {
    match story
    case Silent =>
    case Accepting =>
    case Rejecting =>
    case Completing => assert Telling(story)[0] == Completed;
    case AcceptedThenCompleted =>
    case CompletedThenAccepted => assert Telling(story)[0] == Completed;
    case CompletedThenRejected => assert Telling(story)[0] == Completed;
  }

  /** A worker may complete a request it has not validated; the request then hears Complete first. */
  lemma HastyWorker(s: State, m: Message, id: string)
    requires Life(s) && id != "" && id in s.updates.validate && id in s.updates.complete
    ensures var r := DoUpdateCompleted(s, m, id).state;
            StoryOf(r.env.trace, s.updates.complete[id]) == Completing && s.updates.complete[id] in r.log.hasty
  {
    var t := s.updates.complete[id];
    assert Heard(s.updates, StoryOf(s.env.trace, t), t);
    TraceSnoc(s.env.trace, CompleteUpdate(t, OutcomeOf(m)), t);
  }
}
