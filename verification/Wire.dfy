/** What is sent to the worker, on the wire. */
module Wire {
  import opened Protocol
  import opened Engine
  import Codec
  import Numbering

  /** A batch the codec writes exactly when JSON writes its commands, and then reads back: as many messages, in order,
      each with its id, payloads, failure, header and command kind. */
  ghost predicate Travels(l: Codec.Libraries, ctx: Codec.Context, ms: seq<Message>) {
    && (Codec.PackedAll(l, ctx, ms).Some? <==>
          forall i :: 0 <= i < |ms| && ms[i].command.Some? ==> l.marshal(ms[i].command.value).Some?)
    && (Codec.PackedAll(l, ctx, ms).Some? ==>
          var d := Decoded(Codec.ParseAll(l, Codec.PackedAll(l, ctx, ms).value));
          && d.error.None? && |d.messages| == |ms|
          && forall i :: 0 <= i < |ms| ==> Codec.SameMessage(ms[i], d.messages[i]))
  }

  lemma FineTravels(l: Codec.Libraries, ctx: Codec.Context, ms: seq<Message>)
    requires Codec.Lawful(l) && Numbering.Fine(ms)
    ensures Travels(l, ctx, ms)
  {
    hide Codec.PackedAll;
    hide Codec.Lawful;
    hide Codec.SameMessage;
    hide Codec.ParseAll;
    hide Decoded;
    Codec.Packable(l, ctx, ms);
    if Codec.PackedAll(l, ctx, ms).Some? {
      Codec.BatchRoundTrip(l, ctx, ms);
    }
  }

  /** In every run, whatever the worker and the environment do: no batch and no single command sent to the worker holds an
      undefined response or the invocation of a local activity, so each of them travels. */
  lemma EverythingSentTravels(l: Codec.Libraries, ctx: Codec.Context, x: Launch, events: seq<Event>)
    requires Codec.Lawful(l)
    ensures var o := Run(Executed(x), events).out;
            && (forall i :: 0 <= i < |o.sent| ==> Travels(l, ctx, o.sent[i]))
            && (forall i :: 0 <= i < |o.asked| ==> Travels(l, ctx, [o.asked[i]]))
            && Travels(l, ctx, o.queue)
  {
    hide Run;
    hide Executed;
    hide Travels;
    hide Codec.Lawful;
    hide Numbering.Numbered;
    hide Numbering.Tallied;
    Numbering.ExecutedNumbered(x);
    Numbering.RunSteps(Executed(x), events);
    var o := Run(Executed(x), events).out;
    forall i | 0 <= i < |o.sent| ensures Travels(l, ctx, o.sent[i]) {
      FineTravels(l, ctx, o.sent[i]);
    }
    forall i | 0 <= i < |o.asked| ensures Travels(l, ctx, [o.asked[i]]) {
      FineTravels(l, ctx, [o.asked[i]]);
    }
    FineTravels(l, ctx, o.queue);
  }
}
