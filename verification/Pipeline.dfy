/** Exchanges with the worker: what a flush moves, in which order replies are handled, how many exchanges a task makes. */
module Pipeline {
  import opened Protocol
  import opened Engine
  import opened Frames
  import Attributes
  import Delivery

  // ---- one flush ----

  predicate AllParsed(frames: seq<Frame>) {
    forall i :: 0 <= i < |frames| ==> frames[i].Parsed?
  }

  /** Decoding succeeds exactly on well-formed frames, and then keeps every message in place; what it had parsed when it
      failed is the run of frames before the first malformed one. */
  lemma {:induction false} DecodedFrames(frames: seq<Frame>)
    ensures var d := Decoded(frames);
            && (d.error.None? <==> AllParsed(frames))
            && (forall i :: 0 <= i < |d.messages| ==> frames[i] == Parsed(d.messages[i]))
            && (d.error.None? ==> |d.messages| == |frames|)
            && (d.error.Some? ==> |d.messages| < |frames| && frames[|d.messages|] == Malformed(d.error.value))
  {
    if frames != [] {
      DecodedFrames(frames[..|frames| - 1]);
    }
  }

  predicate Clean(x: Exchange) {
    x.Body? && AllParsed(x.frames)
  }

  lemma AnsweredFrames(x: Exchange)
    ensures Answered(x).error.None? <==> Clean(x)
    ensures Clean(x) ==>
              && x.Body? && |Answered(x).messages| == |x.frames|
              && forall i :: 0 <= i < |x.frames| ==> x.frames[i] == Parsed(Answered(x).messages[i])
  {
    if x.Body? {
      DecodedFrames(x.frames);
    }
  }

  /** A flush is all or nothing: with a queue to send it succeeds exactly on a clean reply, and then moves the whole
      queue and appends the whole reply; otherwise queue and pipeline are as before. Nothing sent or queued is lost. */
  lemma FlushIsAtomic(s: State)
    ensures var r := Flush(s);
            && (r.exit.Normal? <==> s.out.queue == [] || Clean(s.inbox.Next()))
            && Delivery.Flat(r.state.out.sent) + r.state.out.queue == Delivery.Flat(s.out.sent) + s.out.queue
            && (r.exit.Erred? ==> r.state.out == s.out && r.state.inbox.pipeline == s.inbox.pipeline && r.state.inbox.received == s.inbox.received)
            && (r.exit.Normal? ==> r.state.out.queue == [])
            && (r.exit.Normal? && s.out.queue != [] ==>
                  && r.state.inbox.pipeline[..|s.inbox.pipeline|] == s.inbox.pipeline
                  && |r.state.inbox.pipeline| == |s.inbox.pipeline| + |s.inbox.Next().frames|
                  && forall i :: 0 <= i < |s.inbox.Next().frames| ==>
                       s.inbox.Next().frames[i] == Parsed(r.state.inbox.pipeline[|s.inbox.pipeline| + i]))
            && r.state == s.(out := r.state.out, inbox := r.state.inbox)
  {
    hide Delivery.Flat;
    hide Answered;
    hide Clean;
    hide FrameCount;
    Delivery.FlatSnoc(s.out.sent, s.out.queue);
    AnsweredFrames(s.inbox.Next());
  }

  // ---- single commands ----

  /** A query returns what the one message of a clean reply carries, its failure if it has one, and fails on anything else. */
  lemma QueryAnswered(x: Exchange)
    ensures Clean(x) && |x.frames| == 1 ==>
              QueryAnswer(x) == match x.frames[0].message.failure
                                case Some(f) => Failed(f)
                                case None => Succeeded(x.frames[0].message.payloads)
    ensures !(Clean(x) && |x.frames| == 1) ==> QueryAnswer(x).Failed?
  {
    hide Answered;
    hide Clean;
    AnsweredFrames(x);
  }

  /** A stack trace is the first item of the one message of a clean reply, as text, or the error of reading it; it is empty
      if there is no item. */
  lemma StackTraceAnswered(x: Exchange, read: string -> Text)
    requires Clean(x) && |x.frames| == 1
    ensures StackTraceText(x, read) ==
            match x.frames[0].message.payloads
            case NoPayloads => ""
            case Payloads(items) => if items == [] then "" else match read(items[0]) case Read(text) => text case Unreadable(e) => e
  {
    hide Answered;
    AnsweredFrames(x);
  }

  // ---- exchanges in sequence ----

  function Batches(replies: seq<Exchange>): seq<Message> {
    if replies == [] then [] else Answered(replies[0]).messages + Batches(replies[1..])
  }

  lemma {:induction false} BatchesConcat(a: seq<Exchange>, b: seq<Exchange>)
    ensures Batches(a + b) == Batches(a) + Batches(b)
  {
    if a == [] {
      assert a + b == b;
    } else {
      assert (a + b)[1..] == a[1..] + b;
      BatchesConcat(a[1..], b);
    }
  }

  /** The commands answered by an exchange of their own. */
  function Asks(ms: seq<Message>): nat {
    if ms == [] then 0
    else (if ms[0].IsCommand() && IsAsking(ms[0].command.value) then 1 else 0) + Asks(ms[1..])
  }

  predicate AllAnswered(replies: seq<Exchange>) {
    forall i :: 0 <= i < |replies| ==> Answered(replies[i]).error.None?
  }

  /** `k` replies are taken in, none is lost, nothing else moves. */
  predicate Taken(i: Inbox, r: Inbox, k: nat) {
    && k <= |i.replies| && AllAnswered(i.replies[..k])
    && r.replies == i.replies[k..]
    && r.pipeline == i.pipeline + Batches(i.replies[..k])
    && r.received == i.received + Batches(i.replies[..k])
    && r.handled == i.handled
  }

  predicate Exchanged(s: State, r: State, k: nat) {
    Taken(s.inbox, r.inbox, k) && |r.out.sent| == |s.out.sent| + k
  }

  lemma Join(replies: seq<Exchange>, j: nat, k: nat)
    requires j + k <= |replies| && AllAnswered(replies[..j]) && AllAnswered(replies[j..][..k])
    ensures AllAnswered(replies[..j + k])
    ensures Batches(replies[..j + k]) == Batches(replies[..j]) + Batches(replies[j..][..k])
    ensures replies[j..][k..] == replies[j + k..]
  {
    assert replies[..j + k] == replies[..j] + replies[j..][..k];
    BatchesConcat(replies[..j], replies[j..][..k]);
    assert forall i :: 0 <= i < j + k ==> replies[..j + k][i] == if i < j then replies[..j][i] else replies[j..][..k][i - j];
  }

  lemma FlushExchanges(s: State)
    requires Flush(s).exit.Normal?
    ensures Exchanged(s, Flush(s).state, if s.out.queue == [] then 0 else 1)
  {
    if s.out.queue != [] {
      assert s.inbox.replies != [];
      assert s.inbox.replies[..1] == [s.inbox.replies[0]];
      assert Batches([s.inbox.replies[0]]) == Answered(s.inbox.replies[0]).messages + Batches([]);
    } else {
      assert s.inbox.replies[..0] == [];
      assert s.inbox.replies[0..] == s.inbox.replies;
    }
  }

  function ExchangesFor(s: State, m: Message): nat {
    if m.IsCommand() && IsAsking(m.command.value) && !EffectFails(s, m) then 1 else 0
  }

  lemma ApartExchanges(s: State, r: State)
    requires r.inbox == s.inbox && r.out.sent == s.out.sent
    ensures Exchanged(s, r, 0)
  {
    assert s.inbox.replies[..0] == [] && s.inbox.replies[0..] == s.inbox.replies;
  }

  lemma AskExchanges(s: State, a: State, id: Id, payloads: Payloads)
    requires a.inbox == s.inbox && a.out.sent == s.out.sent
    ensures var r := RespondAndFlush(a, id, payloads);
            && r.state.env == a.env && !r.exit.Panicking?
            && (r.exit.Normal? ==> Exchanged(s, r.state, 1))
            && (r.exit.Erred? ==> r.state.out.sent == s.out.sent && r.state.inbox == s.inbox.Consumed())
  {
    if RespondAndFlush(a, id, payloads).exit.Normal? {
      FlushExchanges(Respond(a, id, payloads));
    }
  }

  /** A command that failed: no exchange, at most one answer of the worker used up. */
  predicate Halted(s: State, r: State) {
    && (r.inbox == s.inbox || r.inbox == s.inbox.Consumed())
    && r.out.sent == s.out.sent
    && FailedEffects(r.env.trace) == FailedEffects(s.env.trace)
  }

  /** An upsert whose loop comes to a null attribute. */
  predicate CrashesOn(s: State, m: Message) {
    && m.command.Some? && m.command.value.UpsertTypedSearchAttributes?
    && Attributes.Ends(s.env.conversions, m.command.value.attributes, s.env.Next().visit) == Attributes.Crashes
  }

  /** The exchanges and failed side effects of one handled message. Only a side effect, inside its callback, and the upsert
      of a null attribute panic; and a side effect does not fail in any other way. */
  predicate Accounted(s: State, m: Message, r: Step) {
    if r.exit.Normal? then
      && !CrashesOn(s, m)
      && Exchanged(s, r.state, ExchangesFor(s, m))
      && ExchangesFor(s, m) + FailedEffects(r.state.env.trace) == FailedEffects(s.env.trace) + Asks([m])
    else
      && Halted(s, r.state)
      && (r.exit.Panicking? <==> m.command == Some(SideEffect) || CrashesOn(s, m))
      && (r.exit.Panicking? ==> r.exit.inside)
  }

  lemma AsksOne(m: Message)
    ensures Asks([m]) == if m.IsCommand() && IsAsking(m.command.value) then 1 else 0
  {
    assert [m][1..] == [];
  }

  lemma VersionFlow(s: State, m: Message, changeId: string, min: int, max: int)
    requires m.command == Some(GetVersion(changeId, min, max))
    ensures Accounted(s, m, DoVersion(s, m, changeId, min, max))
  {
    hide StoryOf;
    hide FailedEffects;
    hide CommandIds;
    hide Call;
    hide Flush;
    hide Exchanged;
    hide Asks;
    AskingApart(s, m);
    AsksOne(m);
    if s.env.Next().value.Succeeded? {
      AskExchanges(s, Asking(s, m), m.id, s.env.Next().value.payloads);
    }
  }

  lemma EffectFlow(s: State, m: Message)
    requires m.command == Some(SideEffect)
    ensures Accounted(s, m, DoSideEffect(s, m))
  {
    hide StoryOf;
    hide FailedEffects;
    hide CommandIds;
    hide Call;
    hide Flush;
    hide Exchanged;
    hide Asks;
    AskingApart(s, m);
    AsksOne(m);
    if s.env.Next().value.Succeeded? {
      AskExchanges(s, Asking(s, m), m.id, s.env.Next().value.payloads);
    } else {
      ApartExchanges(s, DoSideEffect(s, m).state);
    }
  }

  lemma CancelFlow(s: State, m: Message, ids: seq<Id>)
    requires m.command == Some(Cancel(ids))
    ensures Accounted(s, m, DoCancel(s, m, ids))
  {
    hide StoryOf;
    hide FailedEffects;
    hide CommandIds;
    hide CancelIds;
    hide Flush;
    hide Exchanged;
    hide Asks;
    AskingApart(s, m);
    AsksOne(m);
    AskExchanges(s, Asking(s, m), m.id, COMPLETED);
  }

  /** A handled command makes the one exchange it asks for, or none. */
  lemma AskingFlow(s: State, m: Message)
    requires m.IsCommand() && IsAsking(m.command.value)
    ensures Accounted(s, m, HandleMessage(s, m))
  {
    hide Accounted;
    hide Call;
    hide CancelIds;
    hide DoVersion;
    hide DoSideEffect;
    hide DoCancel;
    match m.command.value
    case GetVersion(changeId, min, max) => VersionFlow(s, m, changeId, min, max);
    case SideEffect => EffectFlow(s, m);
    case Cancel(ids) => CancelFlow(s, m, ids);
  }

  lemma QuietFlow(s: State, m: Message, r: Step)
    requires !(m.IsCommand() && IsAsking(m.command.value))
    requires (r.exit.Panicking? <==> CrashesOn(s, m)) && (r.exit.Panicking? ==> r.exit.inside)
    requires r.state.inbox == s.inbox && r.state.out.sent == s.out.sent && FailedEffects(r.state.env.trace) == FailedEffects(s.env.trace)
    ensures Accounted(s, m, r)
  {
    AsksOne(m);
    ApartExchanges(s, r.state);
  }

  lemma UpdateCompletedFlow(s: State, m: Message, id: string)
    requires m.IsCommand() && !IsAsking(m.command.value) && !m.command.value.UpsertTypedSearchAttributes?
    ensures Accounted(s, m, DoUpdateCompleted(s, m, id))
  {
    hide Accounted;
    if id in s.updates.complete {
      TraceSnoc(s.env.trace, CompleteUpdate(s.updates.complete[id], OutcomeOf(m)), Token(0, ""));
    }
    QuietFlow(s, m, DoUpdateCompleted(s, m, id));
  }

  lemma UpdateValidatedFlow(s: State, m: Message, id: string)
    requires m.IsCommand() && !IsAsking(m.command.value) && !m.command.value.UpsertTypedSearchAttributes?
    ensures Accounted(s, m, DoUpdateValidated(s, m, id))
  {
    hide Accounted;
    if id in s.updates.validate {
      var t := s.updates.validate[id];
      TraceSnoc(s.env.trace, if !s.env.replaying && m.failure.Some? then Reject(t, m.failure.value) else Accept(t), Token(0, ""));
    }
    QuietFlow(s, m, DoUpdateValidated(s, m, id));
  }

  lemma CompleteFlow(s: State, m: Message, name: string, next: ContinueOptions)
    requires m.IsCommand() && !IsAsking(m.command.value) && !m.command.value.UpsertTypedSearchAttributes?
    ensures Accounted(s, m, Step(DoComplete(s, m), Normal)) && Accounted(s, m, Step(DoContinueAsNew(s, m, name, next), Normal))
  {
    hide Accounted;
    TellApart(s, m, if m.failure.None? then Complete(m.payloads, None) else Complete(NoPayloads, m.failure));
    TellApart(s, m, CompleteAsNew(name, next, m.payloads, m.header));
    QuietFlow(s, m, Step(DoComplete(s, m), Normal));
    QuietFlow(s, m, Step(DoContinueAsNew(s, m, name, next), Normal));
  }

  lemma ApartFlow(s: State, m: Message)
    requires m.IsCommand() && IsApart(m.command.value)
    ensures Accounted(s, m, HandleMessage(s, m))
  {
    HandleApart(s, m);
    ApartReturns(s, m);
    var r := HandleMessage(s, m);
    hide HandleMessage;
    hide Accounted;
    QuietFlow(s, m, r);
  }

  lemma ApartReturns(s: State, m: Message)
    requires m.IsCommand() && IsApart(m.command.value)
    ensures var exit := HandleMessage(s, m).exit;
            (exit.Panicking? <==> CrashesOn(s, m)) && (exit.Panicking? ==> exit.inside)
  {
    hide Call;
    hide CancelIds;
    hide Attributes.Updates;
    hide Attributes.Ends;
  }

  /** The two ways to panic inside a handler: the flush of a side effect's callback fails, or the loop of a typed upsert
      comes to a null attribute before an unparsable datetime. The pipeline is then as it was. */
  lemma PanicsInside(s: State, m: Message)
    requires m.IsCommand()
    ensures var r := HandleMessage(s, m);
            && (r.exit.Panicking? <==>
                  || (m.command.value.SideEffect? && s.env.Next().value.Succeeded? && !Clean(s.inbox.Next()))
                  || CrashesOn(s, m))
            && (r.exit.Panicking? ==>
                  r.exit.inside && r.state.inbox.pipeline == s.inbox.pipeline && r.state.inbox.received == s.inbox.received)
  {
    hide HandleMessage;
    hide CrashesOn;
    hide Exchanged;
    hide FailedEffects;
    hide Asks;
    hide Clean;
    HandleFlow(s, m);
    if m.command.value.SideEffect? {
      EffectReturns(s, m);
      NoCrash(s, m);
    }
  }

  lemma NoCrash(s: State, m: Message)
    requires m.command == Some(SideEffect)
    ensures !CrashesOn(s, m)
  {
  }

  lemma EffectReturns(s: State, m: Message)
    requires m.command == Some(SideEffect)
    ensures HandleMessage(s, m).exit.Normal? <==> s.env.Next().value.Failed? || Clean(s.inbox.Next())
  {
    hide Call;
    hide Clean;
    hide Flush;
    var v := s.env.Next().value;
    if v.Succeeded? {
      FlushIsAtomic(Respond(Asking(s, m), m.id, v.payloads));
    }
  }

  lemma SettlingFlow(s: State, m: Message)
    requires m.IsCommand() && !IsApart(m.command.value) && !IsAsking(m.command.value)
    ensures Accounted(s, m, HandleMessage(s, m))
  {
    hide Accounted;
    hide DoUpdateCompleted;
    hide DoUpdateValidated;
    hide DoComplete;
    hide DoContinueAsNew;
    hide Call;
    hide CancelIds;
    match m.command.value
    case UpdateCompleted(id) => UpdateCompletedFlow(s, m, id);
    case UpdateValidated(id) => UpdateValidatedFlow(s, m, id);
    case CompleteWorkflow => CompleteFlow(s, m, "", ContinueOptions("", 0, 0));
    case ContinueAsNew(name, next) => CompleteFlow(s, m, name, next);
  }

  lemma HandleFlow(s: State, m: Message)
    requires m.IsCommand()
    ensures Accounted(s, m, HandleMessage(s, m))
  {
    hide Accounted;
    hide HandleMessage;
    if IsAsking(m.command.value) {
      AskingFlow(s, m);
    } else if IsApart(m.command.value) {
      ApartFlow(s, m);
    } else {
      SettlingFlow(s, m);
    }
  }

  // ---- the pipeline loop ----

  /** What there is to handle once `k` more replies are taken in. */
  function Coming(i: Inbox, k: nat): seq<Message>
    requires k <= |i.replies|
  {
    i.pipeline + Batches(i.replies[..k])
  }

  /** `k` replies were taken in and the first `done` messages handled, in order. On a normal exit these are all; on a
      panic inside a handler the others stay in the pipeline, and on any other failure they go. */
  predicate Flowed(i: Inbox, r: Inbox, k: nat, done: nat, exit: Exit) {
    && k <= |i.replies| && AllAnswered(i.replies[..k])
    && r.received == i.received + Batches(i.replies[..k])
    && done <= |Coming(i, k)| && r.handled == i.handled + Coming(i, k)[..done]
    && r.pipeline == (if Stays(exit, done) then Coming(i, k)[done..] else [])
    && (exit.Normal? ==> done == |Coming(i, k)| && r.replies == i.replies[k..])
    && (!exit.Normal? ==> r.replies == i.replies[k..] || (k < |i.replies| && r.replies == i.replies[k + 1..]))
    && (done > 0 && !exit.Normal? ==> EndedBy(Coming(i, k)[done - 1], exit))
  }

  predicate Stays(exit: Exit, done: nat) {
    done == 0 || exit.Normal? || (exit.Panicking? && exit.inside)
  }

  /** A side effect fails inside its callback only, and nothing but it and an upsert with a null attribute does so. */
  predicate EndedBy(m: Message, exit: Exit) {
    && (m.command == Some(SideEffect) ==> exit.Panicking? && exit.inside)
    && (exit.Panicking? && exit.inside ==>
          m.command == Some(SideEffect) || (m.command.Some? && m.command.value.UpsertTypedSearchAttributes? && Attributes.HasNull(m.command.value.attributes)))
  }

  /** The messages handled without a failure. */
  function Finished(done: nat, exit: Exit): nat {
    if exit.Normal? || done == 0 then done else done - 1
  }

  /** Every exchange is accounted for. */
  predicate Ran(s: State, r: Step, k: nat, done: nat) {
    && Flowed(s.inbox, r.state.inbox, k, done, r.exit)
    && |r.state.out.sent| == |s.out.sent| + k
    && k + FailedEffects(r.state.env.trace) == FailedEffects(s.env.trace) + Asks(Coming(s.inbox, k)[..Finished(done, r.exit)])
    && (!r.exit.Normal? ==> done > 0)
  }

  /** The rest of the loop, after one message that took in `j` replies. */
  lemma ComingStep(i: Inbox, t: Inbox, j: nat, k: nat)
    requires i.pipeline != [] && Taken(i.Popped(), t, j) && k <= |t.replies| && AllAnswered(t.replies[..k])
    ensures j + k <= |i.replies| && AllAnswered(i.replies[..j + k]) && t.replies[k..] == i.replies[j + k..]
    ensures Coming(i, j + k) == [i.pipeline[0]] + Coming(t, k)
    ensures i.received + Batches(i.replies[..j + k]) == t.received + Batches(t.replies[..k])
  {
    hide Batches;
    hide AllAnswered;
    Join(i.replies, j, k);
    Regroup(i.pipeline, Batches(i.replies[..j]), Batches(t.replies[..k]));
  }

  lemma Regroup(pipeline: seq<Message>, a: seq<Message>, b: seq<Message>)
    requires pipeline != []
    ensures pipeline + (a + b) == [pipeline[0]] + ((pipeline[1..] + a) + b)
  {
  }

  lemma FlowedStep(i: Inbox, t: Inbox, r: Inbox, j: nat, k: nat, done: nat, exit: Exit)
    requires i.pipeline != [] && Taken(i.Popped(), t, j) && Flowed(t, r, k, done, exit)
    requires exit.Normal? || done > 0
    ensures Flowed(i, r, j + k, done + 1, exit) && Coming(i, j + k) == [i.pipeline[0]] + Coming(t, k)
  {
    hide AllAnswered;
    hide Coming;
    hide Batches;
    ComingStep(i, t, j, k);
    Cons(i.handled, i.pipeline[0], Coming(t, k), done);
    if k < |t.replies| {
      assert t.replies[k + 1..] == i.replies[j + k + 1..];
    }
  }

  lemma Cons(handled: seq<Message>, m: Message, rest: seq<Message>, done: nat)
    requires done <= |rest|
    ensures ([m] + rest)[..done + 1] == [m] + rest[..done] && ([m] + rest)[done + 1..] == rest[done..]
    ensures handled + ([m] + rest)[..done + 1] == (handled + [m]) + rest[..done]
    ensures done > 0 ==> ([m] + rest)[done] == rest[done - 1]
  {
  }

  lemma AsksCons(m: Message, rest: seq<Message>)
    ensures Asks([m] + rest) == Asks([m]) + Asks(rest)
  {
    assert ([m] + rest)[1..] == rest && [m][1..] == [];
  }

  lemma RanStep(s: State, t: State, r: Step, j: nat, k: nat, done: nat)
    requires s.inbox.pipeline != []
    requires Exchanged(s.(inbox := s.inbox.Popped()), t, j)
    requires j + FailedEffects(t.env.trace) == FailedEffects(s.env.trace) + Asks([s.inbox.pipeline[0]])
    requires Ran(t, r, k, done)
    ensures Ran(s, r, j + k, done + 1)
  {
    hide Taken;
    hide Asks;
    hide Coming;
    hide FailedEffects;
    FlowedStep(s.inbox, t.inbox, r.state.inbox, j, k, done, r.exit);
    var m, rest := s.inbox.pipeline[0], Coming(t.inbox, k);
    var n := Finished(done, r.exit);
    Cons([], m, rest, n);
    hide Flowed;
    AsksCons(m, rest[..n]);
  }

  /** The first message failed: inside its handler, or with an error that clears the pipeline. */
  lemma RanHalts(s: State, t: State, r: Step)
    requires s.inbox.pipeline != [] && !r.exit.Normal? && EndedBy(s.inbox.pipeline[0], r.exit)
    requires Halted(s.(inbox := s.inbox.Popped()), t)
    requires r.state == (if Stays(r.exit, 1) then t else t.(inbox := t.inbox.Cleared()))
    ensures Ran(s, r, 0, 1)
  {
    hide EndedBy;
    var i := s.inbox;
    assert i.replies[..0] == [] && i.replies[0..] == i.replies && Batches([]) == [];
    assert Coming(i, 0) == i.pipeline;
    assert i.pipeline[..1] == [i.pipeline[0]] && i.pipeline[..0] == [];
  }

  /** What a failed message makes of the loop's exit. */
  lemma HandleEnds(s: State, m: Message)
    requires m.IsCommand() && !HandleMessage(s, m).exit.Normal?
    ensures var exit := HandleMessage(s, m).exit;
            EndedBy(m, if exit.Erred? then Panicking(exit.error, false) else exit)
  {
    hide HandleMessage;
    HandleFlow(s, m);
    if CrashesOn(s, m) {
      Attributes.EndsAs(s.env.conversions, m.command.value.attributes, s.env.Next().visit);
    }
  }

  /** Whatever its exit, the loop handles a prefix of what was in the pipeline and what it takes in, in order, keeps or
      clears the rest as the exit demands, and makes one exchange per asking command that did not fail. */
  lemma {:induction false} PipelineFlow(s: State)
    ensures var r := RunPipeline(s);
            && |s.out.sent| <= |r.state.out.sent| && |s.inbox.handled| <= |r.state.inbox.handled|
            && Ran(s, r, |r.state.out.sent| - |s.out.sent|, |r.state.inbox.handled| - |s.inbox.handled|)
    decreases s.inbox.Work(), 0
  {
    hide HandleMessage;
    hide Exchanged;
    hide Ran;
    hide EndedBy;
    hide CrashesOn;
    if s.inbox.pipeline == [] {
      RanNow(s);
    } else {
      var m := s.inbox.pipeline[0];
      var s1 := s.(inbox := s.inbox.Popped());
      AsksOne(m);
      hide Asks;
      if !m.IsCommand() {
        ApartExchanges(s1, s1);
        PipelineJoins(s, s1, 0);
      } else if m.IsUndefinedResponse() {
        UndefinedEnds(m, RunPipeline(s).exit);
        RanHalts(s, s1, RunPipeline(s));
        RanCounts(s, RunPipeline(s), 0, 1);
      } else {
        HandleFlow(s1, m);
        var t := HandleMessage(s1, m);
        if t.exit.Normal? {
          PipelineJoins(s, t.state, ExchangesFor(s1, m));
        } else {
          HandleEnds(s1, m);
          RanHalts(s, t.state, RunPipeline(s));
          RanCounts(s, RunPipeline(s), 0, 1);
        }
      }
    }
  }

  lemma UndefinedEnds(m: Message, exit: Exit)
    requires m.IsUndefinedResponse() && exit.Panicking? && !exit.inside
    ensures EndedBy(m, exit)
  {
  }

  lemma {:induction false} PipelineJoins(s: State, t: State, j: nat)
    requires s.inbox.pipeline != [] && t.inbox.Work() < s.inbox.Work()
    requires Exchanged(s.(inbox := s.inbox.Popped()), t, j)
    requires j + FailedEffects(t.env.trace) == FailedEffects(s.env.trace) + Asks([s.inbox.pipeline[0]])
    ensures var r := RunPipeline(t);
            && |s.out.sent| <= |r.state.out.sent| && |s.inbox.handled| <= |r.state.inbox.handled|
            && Ran(s, r, |r.state.out.sent| - |s.out.sent|, |r.state.inbox.handled| - |s.inbox.handled|)
    decreases t.inbox.Work(), 1
  {
    hide RunPipeline;
    hide Ran;
    hide Asks;
    hide Exchanged;
    hide FailedEffects;
    ExchangedCounts(s, t, j);
    PipelineFlow(t);
    var r := RunPipeline(t);
    RanStep(s, t, r, j, |r.state.out.sent| - |t.out.sent|, |r.state.inbox.handled| - |t.inbox.handled|);
  }

  lemma ExchangedCounts(s: State, t: State, j: nat)
    requires s.inbox.pipeline != [] && Exchanged(s.(inbox := s.inbox.Popped()), t, j)
    ensures |t.out.sent| == |s.out.sent| + j && |t.inbox.handled| == |s.inbox.handled| + 1
  {
  }

  lemma RanCounts(s: State, r: Step, k: nat, done: nat)
    requires Ran(s, r, k, done)
    ensures |r.state.out.sent| == |s.out.sent| + k && |r.state.inbox.handled| == |s.inbox.handled| + done
  {
  }

  lemma RanNow(s: State)
    requires s.inbox.pipeline == []
    ensures Ran(s, Step(s, Normal), 0, 0)
  {
    var i := s.inbox;
    assert i.replies[..0] == [] && i.replies[0..] == i.replies && Batches([]) == [] && Coming(i, 0) == [];
  }

  // ---- a whole task ----

  lemma {:induction false} DrainCallbacksFrame(s: State, i: nat)
    requires i <= |s.callbacks|
    ensures var r := DrainCallbacks(s, i);
            r.out.sent == s.out.sent && r.status == s.status && r.header == s.header && r.childSeq == s.childSeq && r.log == s.log
    decreases |s.callbacks| - i
  {
    if i < |s.callbacks| {
      DrainCallbacksFrame(RunCallback(s, s.callbacks[i]), i + 1);
    }
  }

  lemma {:induction false} InvokeAllFrame(s: State, qs: seq<Request>)
    ensures var r := InvokeAll(s, qs);
            && r.inbox == s.inbox && r.env == s.env && r.out.sent == s.out.sent && r.callbacks == s.callbacks
            && r.inLoop == s.inLoop && r.status == s.status && r.header == s.header && r.log == s.log && r.childSeq == s.childSeq
            && r.updates.names == s.updates.names
    decreases |qs|
  {
    if qs != [] {
      InvokeAllFrame(InvokeQueued(s, qs[0]), qs[1..]);
    }
  }

  lemma {:induction false} DrainNamesFrame(s: State, order: seq<string>)
    ensures var r := DrainNames(s, order);
            && r.inbox == s.inbox && r.out.sent == s.out.sent && r.callbacks == s.callbacks
            && r.inLoop == s.inLoop && r.status == s.status && r.header == s.header && r.log == s.log && r.childSeq == s.childSeq
            && FailedEffects(r.env.trace) == FailedEffects(s.env.trace)
            && (forall t :: StoryOf(r.env.trace, t) == StoryOf(s.env.trace, t))
            && r.env.tokens == s.env.tokens && r.env.info == s.env.info
    decreases |order|
  {
    if order != [] {
      var name := order[0];
      var s1 := s.(env := s.env.Told(HandleQueuedUpdates(name)).(updates := Without(s.env.updates, name)));
      InvokeAllFrame(s1, Named(s.env.updates, name));
      forall t {
        TraceSnoc(s.env.trace, HandleQueuedUpdates(name), t);
      }
      TraceSnoc(s.env.trace, HandleQueuedUpdates(name), Token(0, ""));
      DrainNamesFrame(DrainName(s, name), order[1..]);
    }
  }

  lemma BeforeFlushFrame(s: State, order: seq<string>)
    ensures var b := BeforeFlush(s, order);
            && b.inbox == s.inbox && b.out.sent == s.out.sent && FailedEffects(b.env.trace) == FailedEffects(s.env.trace)
            && b.status == s.status && b.inLoop
  {
    var s0 := s.(inLoop := true);
    DrainCallbacksFrame(s0, 0);
    DrainNamesFrame(DrainCallbacks(s0, 0), order);
  }

  /** Whether the first flush of a task made an exchange. */
  function FirstExchange(b: State): nat {
    if b.out.queue != [] && Flush(b).exit.Normal? then 1 else 0
  }

  predicate TaskRan(s: State, r: Step, k: int, done: int, first: nat) {
    && 0 <= k && 0 <= done && Flowed(s.inbox, r.state.inbox, k, done, r.exit)
    && k + FailedEffects(r.state.env.trace) == FailedEffects(s.env.trace) + first + Asks(Coming(s.inbox, k)[..Finished(done, r.exit)])
  }

  /** Whatever its exit, a workflow task takes in some number of replies and handles a prefix of their messages in order,
      all of them if it returns; a panic inside the handler of a side effect or of an upsert with a null attribute leaves
      the others in the pipeline, any other failure clears it. It makes one exchange for the queue it started with, if any, and one for every GetVersion, SideEffect
      (answered without an error) and Cancel it handled without failing. */
  lemma TaskFlow(s: State, order: seq<string>)
    ensures var r := RunTask(s, order);
            TaskRan(s, r, |r.state.out.sent| - |s.out.sent|, |r.state.inbox.handled| - |s.inbox.handled|,
                    FirstExchange(BeforeFlush(s, order)))
  {
    BeforeFlushFrame(s, order);
    hide BeforeFlush;
    hide RunPipeline;
    hide Asks;
    hide FailedEffects;
    hide AllAnswered;
    hide Batches;
    hide Flowed;
    var b := BeforeFlush(s, order);
    FlushEnv(b);
    var f := Flush(b);
    if f.exit.Normal? {
      FlushExchanges(b);
      hide Flush;
      PipelineFlow(f.state);
      var r := RunPipeline(f.state);
      RanCounts(f.state, r, |r.state.out.sent| - |f.state.out.sent|, |r.state.inbox.handled| - |f.state.inbox.handled|);
      TaskJoin(b.inbox, f.state.inbox, r.state.inbox, if b.out.queue == [] then 0 else 1,
               |r.state.out.sent| - |f.state.out.sent|, |r.state.inbox.handled| - |f.state.inbox.handled|, r.exit);
    } else {
      FlowedNone(b.inbox, RunTask(s, order).exit);
    }
  }

  lemma FlowedNone(i: Inbox, exit: Exit)
    requires !exit.Normal?
    ensures Flowed(i, i.Consumed(), 0, 0, exit) && Asks(Coming(i, 0)[..0]) == 0
  {
    assert i.replies[..0] == [] && i.replies[0..] == i.replies && Batches([]) == [];
    assert Coming(i, 0) == i.pipeline && i.pipeline[0..] == i.pipeline;
  }

  lemma FlushEnv(s: State)
    ensures Flush(s).state.env == s.env
  {
  }

  lemma TaskJoin(i: Inbox, t: Inbox, r: Inbox, j: nat, k: nat, done: nat, exit: Exit)
    requires Taken(i, t, j) && Flowed(t, r, k, done, exit)
    ensures Flowed(i, r, j + k, done, exit) && Coming(i, j + k) == Coming(t, k)
  {
    hide Batches;
    hide AllAnswered;
    hide Stays;
    Join(i.replies, j, k);
    assert Coming(i, j + k) == Coming(t, k);
    hide Coming;
    assert i.received + Batches(i.replies[..j + k]) == t.received + Batches(t.replies[..k]);
    if k < |t.replies| {
      assert t.replies[k + 1..] == i.replies[j + k + 1..];
    }
  }

  /** Between the events of any run, what was handled is a prefix of what was received, in order. Nothing received is
      left over unless the run panicked, and then the pipeline holds the rest or nothing. */
  predicate Settled(s: State) {
    && !s.inLoop && s.inbox.handled <= s.inbox.received
    && (s.status.Running? ==> s.inbox.pipeline == [] && s.inbox.handled == s.inbox.received)
    && (s.inbox.pipeline == [] || s.inbox.handled + s.inbox.pipeline == s.inbox.received)
  }

  lemma TaskSettled(i: Inbox, r: Inbox, k: nat, done: nat, exit: Exit)
    requires i.pipeline == [] && i.handled == i.received && Flowed(i, r, k, done, exit)
    ensures r.handled <= r.received && (r.pipeline == [] || r.handled + r.pipeline == r.received)
    ensures exit.Normal? ==> r.pipeline == [] && r.handled == r.received
  {
    hide Batches;
    hide AllAnswered;
    hide EndedBy;
    hide Coming;
    ComingBare(i, k);
    Split(i.handled, Coming(i, k), done);
  }

  lemma ComingBare(i: Inbox, k: nat)
    requires i.pipeline == [] && k <= |i.replies|
    ensures Coming(i, k) == Batches(i.replies[..k])
  {
  }

  lemma Split(handled: seq<Message>, coming: seq<Message>, done: nat)
    requires done <= |coming|
    ensures (handled + coming[..done]) + coming[done..] == handled + coming
    ensures handled + coming[..done] <= handled + coming
    ensures done == |coming| ==> coming[..done] == coming && coming[done..] == []
  {
    assert coming == coming[..done] + coming[done..];
  }

  lemma NextSettled(s: State, e: Event)
    requires Settled(s)
    ensures Settled(Next(s, e))
  {
    hide RunTask;
    hide DrainNames;
    hide Flowed;
    match e
    case Fires(f) => FireApart(s, f);
    case Closes(order) => DrainNamesFrame(s, order);
    case Task(order, reactions, replies, replaying) =>
      var s1 := s.(inbox := s.inbox.(replies := replies), env := s.env.(reactions := reactions, replaying := replaying));
      if s.status.Running? {
        TaskFlow(s1, order);
        TaskLeavesLoop(s1, order);
        var r := RunTask(s1, order);
        TaskSettled(s1.inbox, r.state.inbox, |r.state.out.sent| - |s1.out.sent|, |r.state.inbox.handled| - |s1.inbox.handled|, r.exit);
      }
    case _ =>
  }

  lemma TaskLeavesLoop(s: State, order: seq<string>)
    ensures !RunTask(s, order).state.inLoop
  {
  }

  lemma {:induction false} RunSettled(s: State, events: seq<Event>)
    requires Settled(s)
    ensures Settled(Run(s, events))
  {
    if events != [] {
      RunSettled(s, events[..|events| - 1]);
      NextSettled(Run(s, events[..|events| - 1]), events[|events| - 1]);
    }
  }
}
