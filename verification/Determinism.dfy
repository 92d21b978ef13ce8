/** Two runs of one workflow: replays, and runs with queries in between. */
module Determinism {
  import opened Protocol
  import opened Engine
  import opened Simulation
  import Attributes
  import Frames
  import Numbering

  // ---- runs ----

  /** The events that are more than queries. */
  function Essential(events: seq<Event>): seq<Event> {
    if events == [] then []
    else
      var e := events[|events| - 1];
      Essential(events[..|events| - 1]) + (if Silent(e) then [] else [e])
  }

  /** The same event up to map orders and the ids plain responses of the worker echo, one perhaps a replay of the other. */
  predicate SameEvent(e: Event, f: Event) {
    match (e, f)
    case (Task(_, reactions, replies, _), Task(_, otherReactions, otherReplies, _)) =>
      AlikeReactions(reactions, otherReactions) && AlikeExchanges(replies, otherReplies)
    case (Closes(_), Closes(_)) => true
    case _ => e == f
  }

  predicate SameEvents(es: seq<Event>, fs: seq<Event>) {
    |es| == |fs| && forall i :: 0 <= i < |es| ==> SameEvent(es[i], fs[i])
  }

  /** The maps iterated over in this event have one order only. */
  ghost predicate OneOrder(s: State, e: Event) {
    match e
    case Task(order, _, _, _) => |s.updates.names| <= 1 && Attributes.Iteration(order, s.updates.names)
    case Closes(order) => |NamesOf(s.env.updates)| <= 1 && Attributes.Iteration(order, NamesOf(s.env.updates))
    case _ => true
  }

  ghost predicate OneOrderThroughout(s: State, events: seq<Event>) {
    events == [] ||
    (OneOrderThroughout(s, events[..|events| - 1]) && OneOrder(Run(s, events[..|events| - 1]), events[|events| - 1]))
  }

  lemma SingleOrder(a: seq<string>, b: seq<string>, names: set<string>)
    requires |names| <= 1 && Attributes.Iteration(a, names) && Attributes.Iteration(b, names)
    ensures a == b
  {
    assert |a| > 0 ==> a[0] in a;
    assert |b| > 0 ==> b[0] in b;
    if n :| n in names {
      assert |names - {n}| == 0;
      assert names == {n};
      OneElement(a, n);
      OneElement(b, n);
    }
  }

  lemma OneElement(a: seq<string>, n: string)
    requires n in a && (forall k :: k in a ==> k == n) && forall i, j :: 0 <= i < j < |a| ==> a[i] != a[j]
    ensures a == [n]
  {
    assert a[0] in a && a[|a| - 1] in a;
  }

  lemma Cardinality(a: set<string>, b: set<string>)
    requires a <= b
    ensures |a| <= |b|
  {
    assert b == a + (b - a);
    assert |b| == |a| + |b - a|;
  }

  function AnswersOf(e: Event): Answers
    requires e.Task?
  {
    Answers(e.reactions, e.replies, e.replaying)
  }

  /** This event handles no command that the two runs take differently: no failed validation of a waiting request, if one
      of them is a replay, and no upsert whose two faults they come to in different orders. */
  ghost predicate EventUndisputed(s: State, t: State, e: Event, f: Event) {
    e.Task? && f.Task? && s.status.Running? ==> TaskUndisputed(s, t, e.order, AnswersOf(e), AnswersOf(f))
  }

  /** No event of the run does, the events of the two runs being paired up in order. */
  ghost predicate NeverDisputed(s: State, t: State, es: seq<Event>, fs: seq<Event>)
    decreases |es| + |fs|
  {
    if es != [] && Silent(es[|es| - 1]) then NeverDisputed(s, t, es[..|es| - 1], fs)
    else if fs != [] && Silent(fs[|fs| - 1]) then NeverDisputed(s, t, es, fs[..|fs| - 1])
    else if es == [] || fs == [] then true
    else
      && NeverDisputed(s, t, es[..|es| - 1], fs[..|fs| - 1])
      && EventUndisputed(Run(s, es[..|es| - 1]), Run(t, fs[..|fs| - 1]), es[|es| - 1], fs[|fs| - 1])
  }

  lemma SameEventTwins(s: State, t: State, e: Event, f: Event)
    requires Twins(s, t) && !Silent(e) && SameEvent(e, f) && OneOrder(s, e) && OneOrder(t, f)
    ensures EventUndisputed(s, t, e, f) ==> Twins(Next(s, e), Next(t, f))
    ensures !EventUndisputed(s, t, e, f) ==> Diverged(Next(s, e), Next(t, f))
  {
    hide Next;
    hide AlikeOut;
    hide AlikeInbox;
    match e
    case Task(_, _, _, _) => SameTaskTwins(s, t, e, f);
    case Closes(order) =>
      SingleOrder(order, f.order, NamesOf(s.env.updates));
      assert e == f;
      NextTwins(s, t, e);
    case _ => NextTwins(s, t, e);
  }

  lemma SameTaskTwins(s: State, t: State, e: Event, f: Event)
    requires Twins(s, t) && e.Task? && SameEvent(e, f) && OneOrder(s, e) && OneOrder(t, f)
    ensures EventUndisputed(s, t, e, f) ==> Twins(Next(s, e), Next(t, f))
    ensures !EventUndisputed(s, t, e, f) ==> Diverged(Next(s, e), Next(t, f))
  {
    hide Next;
    hide DoTask;
    hide TaskUndisputed;
    hide AlikeExchanges;
    hide AlikeReactions;
    hide Diverged;
    TaskNext(s, e);
    TaskNext(t, f);
    SameNames(s, t);
    SingleOrder(e.order, f.order, s.updates.names);
    hide Twins;
    hide Attributes.Iteration;
    if s.status == Running {
      if EventUndisputed(s, t, e, f) {
        TaskTwins(s, t, e.order, AnswersOf(e), AnswersOf(f));
      } else {
        TaskParts(s, t, e.order, AnswersOf(e), AnswersOf(f));
      }
    }
  }

  lemma SameNames(s: State, t: State)
    requires Twins(s, t)
    ensures t.updates == s.updates && t.status == s.status
  {
  }

  lemma TaskNext(s: State, e: Event)
    requires e.Task?
    ensures Next(s, e) ==
            if s.status == Running && Attributes.Iteration(e.order, s.updates.names) then TaskOf(s, e.order, AnswersOf(e)) else s
  {
    hide DoTask;
    hide Attributes.Iteration;
  }

  /** Two runs of the same events stay in step exactly as long as nothing is disputed; then they part for good. */
  lemma {:induction false} RunTwins(s: State, t: State, es: seq<Event>, fs: seq<Event>)
    requires Twins(s, t) && OneOrderThroughout(s, es) && OneOrderThroughout(t, fs)
    requires SameEvents(Essential(es), Essential(fs))
    ensures NeverDisputed(s, t, es, fs) ==> Twins(Run(s, es), Run(t, fs))
    ensures !NeverDisputed(s, t, es, fs) ==> Diverged(Run(s, es), Run(t, fs))
    decreases |es| + |fs|
  {
    hide Twins;
    hide Next;
    hide Diverged;
    hide Grows;
    hide EventUndisputed;
    if es != [] && Silent(es[|es| - 1]) {
      var r := Run(s, es[..|es| - 1]);
      RunTwins(s, t, es[..|es| - 1], fs);
      if NeverDisputed(s, t, es, fs) {
        SilentTwins(r, Run(t, fs), es[|es| - 1]);
      } else {
        NextGrows(r, es[|es| - 1]);
        NoGrowth(Run(t, fs));
        DivergedStays(r, Run(t, fs), Run(s, es), Run(t, fs));
      }
    } else if fs != [] && Silent(fs[|fs| - 1]) {
      var q := Run(t, fs[..|fs| - 1]);
      RunTwins(s, t, es, fs[..|fs| - 1]);
      if NeverDisputed(s, t, es, fs) {
        SilentTwins(Run(s, es), q, fs[|fs| - 1]);
      } else {
        NextGrows(q, fs[|fs| - 1]);
        NoGrowth(Run(s, es));
        DivergedStays(Run(s, es), q, Run(s, es), Run(t, fs));
      }
    } else if es != [] && fs != [] {
      BothStep(s, t, es, fs);
    }
  }

  lemma NoGrowth(s: State)
    ensures Grows(s, s)
  {
  }

  lemma {:induction false} BothStep(s: State, t: State, es: seq<Event>, fs: seq<Event>)
    requires es != [] && fs != [] && !Silent(es[|es| - 1]) && !Silent(fs[|fs| - 1])
    requires Twins(s, t) && OneOrderThroughout(s, es) && OneOrderThroughout(t, fs)
    requires SameEvents(Essential(es), Essential(fs))
    ensures NeverDisputed(s, t, es, fs) ==> Twins(Run(s, es), Run(t, fs))
    ensures !NeverDisputed(s, t, es, fs) ==> Diverged(Run(s, es), Run(t, fs))
    decreases |es| + |fs|, 0
  {
    hide Twins;
    hide Next;
    hide Diverged;
    hide Grows;
    hide EventUndisputed;
    var before, e := es[..|es| - 1], es[|es| - 1];
    var otherBefore, f := fs[..|fs| - 1], fs[|fs| - 1];
    LastSame(Essential(before), e, Essential(otherBefore), f);
    RunTwins(s, t, before, otherBefore);
    var r, q := Run(s, before), Run(t, otherBefore);
    if NeverDisputed(s, t, before, otherBefore) {
      SameEventTwins(r, q, e, f);
    } else {
      NextGrows(r, e);
      NextGrows(q, f);
      DivergedStays(r, q, Run(s, es), Run(t, fs));
    }
  }

  lemma LastSame(es: seq<Event>, e: Event, fs: seq<Event>, f: Event)
    requires SameEvents(es + [e], fs + [f])
    ensures SameEvents(es, fs) && SameEvent(e, f)
  {
    assert (es + [e])[|es|] == e && (fs + [f])[|fs|] == f;
    forall i | 0 <= i < |es| ensures SameEvent(es[i], fs[i]) {
      assert (es + [e])[i] == es[i] && (fs + [f])[i] == fs[i];
    }
  }

  /** The same events, with any number of queries and stack traces in between. */
  lemma {:induction false} QueriesTwins(s: State, t: State, es: seq<Event>, fs: seq<Event>)
    requires Twins(s, t) && s.inbox == t.inbox && Essential(es) == Essential(fs)
    ensures Twins(Run(s, es), Run(t, fs)) && Run(s, es).inbox == Run(t, fs).inbox
    decreases |es| + |fs|
  {
    hide Twins;
    hide Next;
    if es != [] && Silent(es[|es| - 1]) {
      QueriesTwins(s, t, es[..|es| - 1], fs);
      SilentTwins(Run(s, es[..|es| - 1]), Run(t, fs), es[|es| - 1]);
    } else if fs != [] && Silent(fs[|fs| - 1]) {
      QueriesTwins(s, t, es, fs[..|fs| - 1]);
      SilentTwins(Run(s, es), Run(t, fs[..|fs| - 1]), fs[|fs| - 1]);
    } else if es != [] && fs != [] {
      var before, e := es[..|es| - 1], es[|es| - 1];
      var otherBefore, f := fs[..|fs| - 1], fs[|fs| - 1];
      assert e == f && Essential(before) == Essential(otherBefore) by {
        var a, b := Essential(before) + [e], Essential(otherBefore) + [f];
        assert a[|a| - 1] == b[|b| - 1] && a[..|a| - 1] == b[..|b| - 1];
      }
      QueriesTwins(s, t, before, otherBefore);
      EqualEventTwins(Run(s, before), Run(t, otherBefore), e);
    }
  }

  lemma EqualEventTwins(s: State, t: State, e: Event)
    requires Twins(s, t) && s.inbox == t.inbox && !Silent(e)
    ensures Twins(Next(s, e), Next(t, e)) && Next(s, e).inbox == Next(t, e).inbox
  {
    hide AlikeOut;
    hide AlikeInbox;
    hide Next;
    if e.Task? {
      TaskNext(s, e);
      TaskNext(t, e);
      hide DoTask;
      hide Attributes.Iteration;
      EqualExchanges(e.replies);
      TaskTwins(s, t, e.order, AnswersOf(e), AnswersOf(e));
    } else {
      hide Next;
      NextTwins(s, t, e);
    }
  }

  lemma EqualExchanges(xs: seq<Exchange>)
    ensures AlikeExchanges(xs, xs)
  {
    forall i | 0 <= i < |xs| ensures AlikeExchange(xs[i], xs[i]) {
      if xs[i].Body? {
        assert forall k :: 0 <= k < |xs[i].frames| ==> AlikeFrame(xs[i].frames[k], xs[i].frames[k]);
      }
    }
  }

  predicate IsOwnCommand(p: Push) {
    p.Own? && p.msg.IsCommand()
  }

  /** The two runs number their commands in the same order. */
  ghost predicate Renamed(o: Outbox, p: Outbox) {
    && |o.pushed| == |p.pushed|
    && forall a, b :: 0 <= a < |o.pushed| && 0 <= b < |o.pushed| && IsOwnCommand(o.pushed[a]) && IsOwnCommand(o.pushed[b]) ==>
         && IsOwnCommand(p.pushed[a]) && IsOwnCommand(p.pushed[b])
         && (o.pushed[a].msg.id < o.pushed[b].msg.id <==> p.pushed[a].msg.id < p.pushed[b].msg.id)
  }

  lemma RisingRenames(o: Outbox, p: Outbox)
    requires AlikeOut(o, p) && Numbering.Numbered(o) && Numbering.Numbered(p) && o.count < UINT64 && p.count < UINT64
    ensures Renamed(o, p)
  {
    hide Frames.CommandIds;
    forall a, b | 0 <= a < |o.pushed| && 0 <= b < |o.pushed| && IsOwnCommand(o.pushed[a]) && IsOwnCommand(o.pushed[b])
      ensures IsOwnCommand(p.pushed[a]) && IsOwnCommand(p.pushed[b])
      ensures o.pushed[a].msg.id < o.pushed[b].msg.id <==> p.pushed[a].msg.id < p.pushed[b].msg.id
    {
      assert AlikePush(o.pushed[a], p.pushed[a]) && AlikePush(o.pushed[b], p.pushed[b]);
      if a < b {
        Numbering.RisingAt(o.pushed, a, b, o.count);
        Numbering.RisingAt(p.pushed, a, b, p.count);
      } else if b < a {
        Numbering.RisingAt(o.pushed, b, a, o.count);
        Numbering.RisingAt(p.pushed, b, a, p.count);
      }
    }
  }

  /** Same calls to the environment in the same order, same batches up to an order-preserving renaming of the engine's
      ids, and everything else the same but for ids the worker echoed. */
  ghost predicate SameRun(r: State, q: State) {
    && q.env.trace == r.env.trace && q.log == r.log
    && |q.out.sent| == |r.out.sent| && (forall i :: 0 <= i < |r.out.sent| ==> AlikeAll(r.out.sent[i], q.out.sent[i]))
    && AlikeAll(r.out.queue, q.out.queue)
    && AlikeInbox(r.inbox, q.inbox) && q.callbacks == r.callbacks && q.canceller == r.canceller && q.children == r.children
    && q.updates == r.updates && q.childSeq == r.childSeq && q.status == r.status
    && (r.out.count < UINT64 && q.out.count < UINT64 ==> Renamed(r.out, q.out))
  }

  lemma TwinsRunTheSame(s: State, t: State, es: seq<Event>, fs: seq<Event>)
    requires Numbering.Numbered(s.out) && Numbering.Numbered(t.out) && Twins(Run(s, es), Run(t, fs))
    ensures SameRun(Run(s, es), Run(t, fs))
  {
    Numbering.RunSteps(s, es);
    Numbering.RunSteps(t, fs);
    hide Run;
    hide Numbering.Numbered;
    if Run(s, es).out.count < UINT64 && Run(t, fs).out.count < UINT64 {
      RisingRenames(Run(s, es).out, Run(t, fs).out);
    }
  }

  /** Another start of the same workflow: at another point of the process, visiting the search attributes in another order,
      perhaps as a replay. */
  function Again(x: Launch, count: nat, gaps: seq<nat>, order: seq<Attributes.Key>, replaying: bool): Launch {
    x.(count := count, gaps := gaps, order := order, env := x.env.(replaying := replaying))
  }

  lemma ExecutedTwins(x: Launch, count: nat, gaps: seq<nat>, order: seq<Attributes.Key>, replaying: bool)
    requires Attributes.StartTable(x.env.conversions, x.tsa, x.order) == Attributes.StartTable(x.env.conversions, x.tsa, order)
    ensures var s, t := Executed(x), Executed(Again(x, count, gaps, order, replaying));
            Twins(s, t) && s.inbox == t.inbox && Numbering.Numbered(s.out) && Numbering.Numbered(t.out)
  {
    hide Attributes.StartTable;
    Numbering.ExecutedNumbered(x);
    Numbering.ExecutedNumbered(Again(x, count, gaps, order, replaying));
    hide Numbering.Numbered;
    hide Numbering.Tallied;
    hide Numbering.FineOut;
  }

  /** Replay determinism: whatever the counter stood at, whatever other workflows draw in between, with queries
      interleaved differently, maps visited in different orders, and one run perhaps a replay of the other, two runs fed
      the same events, environment answers and worker replies, with no two search attributes of one name and at most one
      update name pending in a task, are the same run if and only if no command is handled that they dispute: a failed
      validation of a waiting request in a task that is a replay in one of them only, or an upsert whose null and
      unparsable attributes they come to in different orders. */
  lemma ReplayDeterminism(x: Launch, count: nat, gaps: seq<nat>, order: seq<Attributes.Key>, replaying: bool, es: seq<Event>, fs: seq<Event>)
    requires Attributes.Unambiguous(x.env.conversions, x.tsa)
    requires Attributes.Iteration(x.order, x.tsa.Keys) && Attributes.Iteration(order, x.tsa.Keys)
    requires OneOrderThroughout(Executed(x), es) && OneOrderThroughout(Executed(Again(x, count, gaps, order, replaying)), fs)
    requires SameEvents(Essential(es), Essential(fs))
    ensures var s, t := Executed(x), Executed(Again(x, count, gaps, order, replaying));
            SameRun(Run(s, es), Run(t, fs)) <==> NeverDisputed(s, t, es, fs)
  {
    var s, t := Executed(x), Executed(Again(x, count, gaps, order, replaying));
    Attributes.SameTables(x.env.conversions, x.tsa, x.order, order);
    ExecutedTwins(x, count, gaps, order, replaying);
    hide Executed;
    hide Run;
    hide Twins;
    hide NeverDisputed;
    RunTwins(s, t, es, fs);
    if NeverDisputed(s, t, es, fs) {
      TwinsRunTheSame(s, t, es, fs);
    }
  }

  /** Query non-interference: adding or removing queries and stack traces anywhere in a run, and whatever ids other
      workflows draw between any two of its own, changes nothing but the engine's ids. */
  lemma QueriesDoNotInterfere(x: Launch, count: nat, gaps: seq<nat>, es: seq<Event>, fs: seq<Event>)
    requires Essential(es) == Essential(fs)
    ensures var r, q := Run(Executed(x), es), Run(Executed(x.(count := count, gaps := gaps)), fs);
            SameRun(r, q) && q.inbox == r.inbox
  {
    var s, t := Executed(x), Executed(x.(count := count, gaps := gaps));
    ExecutedTwins(x, count, gaps, x.order, x.env.replaying);
    hide Executed;
    hide SameRun;
    hide Run;
    QueriesTwins(s, t, es, fs);
    TwinsRunTheSame(s, t, es, fs);
  }

  // ---- map order ----

  lemma Swapped(order: seq<string>, names: set<string>) returns (other: seq<string>)
    requires Attributes.Iteration(order, names) && |order| > 1
    ensures Attributes.Iteration(other, names) && |other| == |order| && other[0] != order[0]
  {
    other := [order[1], order[0]] + order[2..];
    assert order == [order[0], order[1]] + order[2..];
    assert forall k :: k in other <==> k in order;
  }

  /** A task makes the same environment calls whatever the order of the update names exactly when at most one is pending. */
  lemma MapOrderMatters(s: State)
    ensures (forall a, b :: Attributes.Iteration(a, s.updates.names) && Attributes.Iteration(b, s.updates.names) ==>
               RunTask(s, a).state.env.trace == RunTask(s, b).state.env.trace)
            <==> |s.updates.names| <= 1
  {
    var names := s.updates.names;
    if |names| <= 1 {
      forall a, b | Attributes.Iteration(a, names) && Attributes.Iteration(b, names) {
        SingleOrder(a, b, names);
      }
    } else {
      var a := Attributes.SomeOrder(names);
      assert |a| > 1 by {
        if |a| <= 1 {
          var few := if |a| == 0 then {} else {a[0]};
          assert names <= few;
          Cardinality(names, few);
        }
      }
      var b := Swapped(a, names);
      BeforeFlushTrace(s, a);
      BeforeFlushTrace(s, b);
      TaskGrows(s, a);
      TaskGrows(s, b);
      hide BeforeFlush;
      hide RunTask;
      assert RunTask(s, a).state.env.trace[|s.env.trace|] != RunTask(s, b).state.env.trace[|s.env.trace|];
    }
  }
}
