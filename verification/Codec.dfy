/** Batches of messages on the wire. JSON, protobuf and the data converter are known by their laws only. */
module Codec {
  import opened Protocol
  import Engine
  import Pipeline

  type Text = string

  // ---- command names ----

  datatype Kind =
    | KGetWorkerInfo | KInvokeActivity | KInvokeLocalActivity | KStartWorkflow | KInvokeSignal | KInvokeQuery | KInvokeUpdate
    | KDestroyWorkflow | KCancelWorkflow | KGetStackTrace
    | KExecuteActivity | KExecuteLocalActivity | KExecuteChildWorkflow | KGetChildWorkflowExecution | KNewTimer | KSideEffect
    | KGetVersion | KCompleteWorkflow | KUpdateCompleted | KUpdateValidated | KContinueAsNew | KUpsertSearchAttributes
    | KUpsertTypedSearchAttributes | KUpsertMemo | KSignalExternalWorkflow | KCancelExternalWorkflow | KUndefinedResponse
    | KCancel | KPanic

  function KindOf(c: Command): Kind {
    match c
    case GetWorkerInfo(_) => KGetWorkerInfo
    case InvokeActivity(_) => KInvokeActivity
    case InvokeLocalActivity(_) => KInvokeLocalActivity
    case StartWorkflow(_, _, _) => KStartWorkflow
    case InvokeSignal(_, _) => KInvokeSignal
    case InvokeQuery(_, _) => KInvokeQuery
    case InvokeUpdate(_, _, _, _) => KInvokeUpdate
    case DestroyWorkflow(_) => KDestroyWorkflow
    case CancelWorkflow(_) => KCancelWorkflow
    case GetStackTrace(_) => KGetStackTrace
    case ExecuteActivity(_, _) => KExecuteActivity
    case ExecuteLocalActivity(_, _) => KExecuteLocalActivity
    case ExecuteChildWorkflow(_, _) => KExecuteChildWorkflow
    case GetChildWorkflowExecution(_) => KGetChildWorkflowExecution
    case NewTimer(_, _) => KNewTimer
    case SideEffect => KSideEffect
    case GetVersion(_, _, _) => KGetVersion
    case CompleteWorkflow => KCompleteWorkflow
    case UpdateCompleted(_) => KUpdateCompleted
    case UpdateValidated(_) => KUpdateValidated
    case ContinueAsNew(_, _) => KContinueAsNew
    case UpsertSearchAttributes(_) => KUpsertSearchAttributes
    case UpsertTypedSearchAttributes(_) => KUpsertTypedSearchAttributes
    case UpsertMemo(_) => KUpsertMemo
    case SignalExternalWorkflow(_, _, _, _, _) => KSignalExternalWorkflow
    case CancelExternalWorkflow(_, _, _) => KCancelExternalWorkflow
    case UndefinedResponse(_) => KUndefinedResponse
    case Cancel(_) => KCancel
    case Panic(_) => KPanic
  }

  /** The name constant of every kind. */
  function NameOf(k: Kind): string {
    match k
    case KGetWorkerInfo => "GetWorkerInfo"
    case KInvokeActivity => "InvokeActivity"
    case KInvokeLocalActivity => "InvokeLocalActivity"
    case KStartWorkflow => "StartWorkflow"
    case KInvokeSignal => "InvokeSignal"
    case KInvokeQuery => "InvokeQuery"
    case KInvokeUpdate => "InvokeUpdate"
    case KDestroyWorkflow => "DestroyWorkflow"
    case KCancelWorkflow => "CancelWorkflow"
    case KGetStackTrace => "StackTrace"
    case KExecuteActivity => "ExecuteActivity"
    case KExecuteLocalActivity => "ExecuteLocalActivity"
    case KExecuteChildWorkflow => "ExecuteChildWorkflow"
    case KGetChildWorkflowExecution => "GetChildWorkflowExecution"
    case KNewTimer => "NewTimer"
    case KSideEffect => "SideEffect"
    case KGetVersion => "GetVersion"
    case KCompleteWorkflow => "CompleteWorkflow"
    case KUpdateCompleted => "UpdateCompleted"
    case KUpdateValidated => "UpdateValidated"
    case KContinueAsNew => "ContinueAsNew"
    case KUpsertSearchAttributes => "UpsertWorkflowSearchAttributes"
    case KUpsertTypedSearchAttributes => "UpsertWorkflowTypedSearchAttributes"
    case KUpsertMemo => "UpsertMemo"
    case KSignalExternalWorkflow => "SignalExternalWorkflow"
    case KCancelExternalWorkflow => "CancelExternalWorkflow"
    case KUndefinedResponse => "UndefinedResponse"
    case KCancel => "Cancel"
    case KPanic => "Panic"
  }

  /** The name a command is sent under; an undefined response is never sent. */
  function CommandName(k: Kind): Option<string> {
    if k == KUndefinedResponse then None else Some(NameOf(k))
  }

  /** The kinds with a decoder, in the order they are tried; invocations of local activities have none. */
  const DECODED: seq<Kind> := [
    KGetWorkerInfo, KStartWorkflow, KInvokeSignal, KInvokeQuery, KDestroyWorkflow, KCancelWorkflow, KGetStackTrace,
    KInvokeActivity, KExecuteActivity, KExecuteLocalActivity, KExecuteChildWorkflow, KGetChildWorkflowExecution,
    KNewTimer, KGetVersion, KSideEffect, KCompleteWorkflow, KUpdateCompleted, KUpdateValidated, KContinueAsNew,
    KUpsertSearchAttributes, KUpsertTypedSearchAttributes, KUpsertMemo, KSignalExternalWorkflow, KCancelExternalWorkflow,
    KCancel, KPanic, KUndefinedResponse, KInvokeUpdate]

  function Find(ks: seq<Kind>, name: string): Option<Kind> {
    if ks == [] then None else if NameOf(ks[0]) == name then Some(ks[0]) else Find(ks[1..], name)
  }

  /** The kind a received name stands for. */
  function InitCommand(name: string): Option<Kind> {
    Find(DECODED, name)
  }

  /** Length, first and eighth character tell all names apart. */
  datatype Print = Print(length: nat, first: char, eighth: char)

  function PrintOf(name: string): Print
    requires name != ""
  {
    Print(|name|, name[0], if |name| > 7 then name[7] else ' ')
  }

  function PrintOfKind(k: Kind): Print {
    match k
    case KGetWorkerInfo => Print(13, 'G', 'e')
    case KInvokeActivity => Print(14, 'I', 'c')
    case KInvokeLocalActivity => Print(19, 'I', 'o')
    case KStartWorkflow => Print(13, 'S', 'r')
    case KInvokeSignal => Print(12, 'I', 'i')
    case KInvokeQuery => Print(11, 'I', 'u')
    case KInvokeUpdate => Print(12, 'I', 'p')
    case KDestroyWorkflow => Print(15, 'D', 'W')
    case KCancelWorkflow => Print(14, 'C', 'o')
    case KGetStackTrace => Print(10, 'S', 'a')
    case KExecuteActivity => Print(15, 'E', 'A')
    case KExecuteLocalActivity => Print(20, 'E', 'L')
    case KExecuteChildWorkflow => Print(20, 'E', 'C')
    case KGetChildWorkflowExecution => Print(25, 'G', 'd')
    case KNewTimer => Print(8, 'N', 'r')
    case KSideEffect => Print(10, 'S', 'e')
    case KGetVersion => Print(10, 'G', 'i')
    case KCompleteWorkflow => Print(16, 'C', 'e')
    case KUpdateCompleted => Print(15, 'U', 'o')
    case KUpdateValidated => Print(15, 'U', 'a')
    case KContinueAsNew => Print(13, 'C', 'e')
    case KUpsertSearchAttributes => Print(30, 'U', 'o')
    case KUpsertTypedSearchAttributes => Print(35, 'U', 'o')
    case KUpsertMemo => Print(10, 'U', 'e')
    case KSignalExternalWorkflow => Print(22, 'S', 'x')
    case KCancelExternalWorkflow => Print(22, 'C', 'x')
    case KUndefinedResponse => Print(17, 'U', 'e')
    case KCancel => Print(6, 'C', ' ')
    case KPanic => Print(5, 'P', ' ')
  }

  /** The kinds the engine sends. */
  predicate ToWorker(k: Kind) {
    k.KGetWorkerInfo? || k.KInvokeActivity? || k.KInvokeLocalActivity? || k.KStartWorkflow? || k.KInvokeSignal? || k.KInvokeQuery?
    || k.KInvokeUpdate? || k.KDestroyWorkflow? || k.KCancelWorkflow? || k.KGetStackTrace?
  }

  lemma PrintedToWorker(k: Kind)
    requires ToWorker(k)
    ensures NameOf(k) != "" && PrintOf(NameOf(k)) == PrintOfKind(k)
  {
  }

  lemma PrintedFromWorker(k: Kind)
    requires !ToWorker(k)
    ensures NameOf(k) != "" && PrintOf(NameOf(k)) == PrintOfKind(k)
  {
  }

  lemma Printed(k: Kind)
    ensures NameOf(k) != "" && PrintOf(NameOf(k)) == PrintOfKind(k)
  {
    if ToWorker(k) {
      PrintedToWorker(k);
    } else {
      PrintedFromWorker(k);
    }
    hide NameOf;
    hide PrintOfKind;
  }

  lemma PrintsDiffer(j: Kind, k: Kind)
    requires PrintOfKind(j) == PrintOfKind(k)
    ensures j == k
  {
  }

  lemma NamesDiffer(j: Kind, k: Kind)
    requires NameOf(j) == NameOf(k)
    ensures j == k
  {
    hide NameOf;
    hide PrintOfKind;
    Printed(j);
    Printed(k);
    PrintsDiffer(j, k);
  }

  lemma {:induction false} Finds(ks: seq<Kind>, k: Kind)
    ensures Find(ks, NameOf(k)) == if k in ks then Some(k) else None
  {
    hide NameOf;
    if ks != [] {
      Finds(ks[1..], k);
      if NameOf(ks[0]) == NameOf(k) {
        NamesDiffer(ks[0], k);
      }
    }
  }

  lemma HasDecoder(k: Kind)
    ensures k in DECODED <==> k != KInvokeLocalActivity
  {
    forall i | 0 <= i < |DECODED| ensures DECODED[i] != KInvokeLocalActivity {
    }
  }

  /** The two tables of names invert each other but for the two kinds only one of them has. */
  lemma NamesInvert(k: Kind)
    ensures CommandName(k).None? <==> k == KUndefinedResponse
    ensures k != KUndefinedResponse ==>
              CommandName(k).value != "" && InitCommand(CommandName(k).value) == if k == KInvokeLocalActivity then None else Some(k)
    ensures InitCommand(NameOf(KUndefinedResponse)) == Some(KUndefinedResponse)
  {
    hide NameOf;
    Printed(k);
    Finds(DECODED, k);
    Finds(DECODED, KUndefinedResponse);
    HasDecoder(k);
    HasDecoder(KUndefinedResponse);
    hide Find;
  }

  // ---- libraries ----

  /** What the codec attaches to every message of a batch. */
  datatype Context = Context(taskQueue: string, tickTime: string, replay: bool, historyLength: int, historySize: int,
                             rrId: string, continueAsNewSuggested: bool)

  /** A message as it travels. No command is an empty name. */
  datatype Wire = Wire(id: Id, command: string, options: Text, payloads: Payloads, failure: Option<Failure>,
                       header: Option<Header>, context: Context)

  /** Reading options into an empty command: an error, the JSON null, which takes the command away, or a command. */
  datatype Reading = Bad | Null | Good(command: Command)

  datatype Libraries = Libraries(
    marshal: Command -> Option<Text>,
    unmarshal: (Kind, Text) -> Reading,
    marshalContext: Context -> Option<Text>,
    marshalFrame: seq<Wire> -> Option<Text>,
    unmarshalFrame: Text -> Option<seq<Wire>>,
    fromPayload: string -> Option<Text>)

  /** JSON reads back the kind it wrote; protobuf reads back the frame it wrote, and writes no message as nothing. */
  ghost predicate Lawful(l: Libraries) {
    && (forall c :: l.marshal(c).Some? ==> ReadsBack(l, c))
    && (forall ws :: l.marshalFrame(ws).Some? ==> l.unmarshalFrame(l.marshalFrame(ws).value) == Some(ws))
    && (forall ws :: l.marshalFrame(ws).Some? && ws != [] ==> l.marshalFrame(ws).value != "")
  }

  ghost predicate ReadsBack(l: Libraries, c: Command)
    requires l.marshal(c).Some?
  {
    var r := l.unmarshal(KindOf(c), l.marshal(c).value);
    r.Good? && KindOf(r.command) == KindOf(c)
  }

  // ---- one message ----

  function Packed(l: Libraries, ctx: Context, m: Message): Option<Wire> {
    if m.command.None? then Some(Wire(m.id, "", "", m.payloads, m.failure, m.header, ctx))
    else
      var name := CommandName(KindOf(m.command.value));
      var options := l.marshal(m.command.value);
      if name.None? || options.None? then None
      else Some(Wire(m.id, name.value, options.value, m.payloads, m.failure, m.header, ctx))
  }

  function Parse(l: Libraries, w: Wire): Engine.Frame {
    if w.command == "" then Engine.Parsed(Message(w.id, None, w.failure, w.payloads, w.header))
    else
      var k := InitCommand(w.command);
      if k.None? then Engine.Malformed("undefined command name")
      else match l.unmarshal(k.value, w.options)
        case Bad => Engine.Malformed("bad options")
        case Null => Engine.Parsed(Message(w.id, None, w.failure, w.payloads, w.header))
        case Good(c) => Engine.Parsed(Message(w.id, Some(c), w.failure, w.payloads, w.header))
  }

  /** The same message, its command perhaps reread into another one of the same kind. */
  predicate SameMessage(m: Message, n: Message) {
    && n == m.(command := n.command)
    && (m.command.None? <==> n.command.None?)
    && (m.command.Some? ==> KindOf(n.command.value) == KindOf(m.command.value))
  }

  /** JSON loses nothing of this command. */
  predicate Exact(l: Libraries, c: Command) {
    l.marshal(c).Some? && l.unmarshal(KindOf(c), l.marshal(c).value) == Good(c)
  }

  predicate Undecodable(m: Message) {
    m.command.Some? && m.command.value.InvokeLocalActivity?
  }

  lemma OneRoundTrip(l: Libraries, ctx: Context, m: Message)
    requires Lawful(l) && Packed(l, ctx, m).Some?
    ensures var f := Parse(l, Packed(l, ctx, m).value);
            && (f.Malformed? <==> Undecodable(m))
            && (f.Parsed? ==> SameMessage(m, f.message) && (m.command.Some? && Exact(l, m.command.value) ==> f.message == m))
  {
    hide InitCommand;
    hide CommandName;
    if m.command.Some? {
      var c := m.command.value;
      NamesInvert(KindOf(c));
      assert ReadsBack(l, c);
    }
  }

  // ---- a batch ----

  function PackedAll(l: Libraries, ctx: Context, ms: seq<Message>): Option<seq<Wire>> {
    if ms == [] then Some([])
    else
      var before := PackedAll(l, ctx, ms[..|ms| - 1]);
      var last := Packed(l, ctx, ms[|ms| - 1]);
      if before.None? || last.None? then None else Some(before.value + [last.value])
  }

  function ParseAll(l: Libraries, ws: seq<Wire>): seq<Engine.Frame> {
    seq(|ws|, i requires 0 <= i < |ws| => Parse(l, ws[i]))
  }

  lemma {:induction false} PackedEach(l: Libraries, ctx: Context, ms: seq<Message>)
    ensures PackedAll(l, ctx, ms).Some? <==> forall i :: 0 <= i < |ms| ==> Packed(l, ctx, ms[i]).Some?
    ensures PackedAll(l, ctx, ms).Some? ==>
              |PackedAll(l, ctx, ms).value| == |ms| && forall i :: 0 <= i < |ms| ==> Some(PackedAll(l, ctx, ms).value[i]) == Packed(l, ctx, ms[i])
  {
    hide Packed;
    if ms != [] {
      var before := ms[..|ms| - 1];
      PackedEach(l, ctx, before);
      assert forall i :: 0 <= i < |before| ==> before[i] == ms[i];
    }
  }

  /** A batch can be packed exactly when no command in it is an undefined response or one JSON cannot write. */
  lemma Packable(l: Libraries, ctx: Context, ms: seq<Message>)
    ensures PackedAll(l, ctx, ms).Some? <==>
            forall i :: 0 <= i < |ms| && ms[i].command.Some? ==> !ms[i].command.value.UndefinedResponse? && l.marshal(ms[i].command.value).Some?
  {
    PackedEach(l, ctx, ms);
    hide CommandName;
    hide InitCommand;
    forall i | 0 <= i < |ms| && ms[i].command.Some? {
      NamesInvert(KindOf(ms[i].command.value));
    }
  }

  /** Decoding an encoded batch gives back the same messages in the same order, each with its id, payloads, failure,
      header and command kind, if and only if none of them invokes a local activity, the one kind with no decoder. */
  lemma BatchRoundTrip(l: Libraries, ctx: Context, ms: seq<Message>)
    requires Lawful(l) && PackedAll(l, ctx, ms).Some?
    ensures var d := Engine.Decoded(ParseAll(l, PackedAll(l, ctx, ms).value));
            && (d.error.None? <==> forall i :: 0 <= i < |ms| ==> !Undecodable(ms[i]))
            && (d.error.None? ==> |d.messages| == |ms|)
            && |d.messages| <= |ms|
            && (forall i :: 0 <= i < |d.messages| ==> SameMessage(ms[i], d.messages[i]))
            && (forall i :: 0 <= i < |d.messages| && ms[i].command.Some? && Exact(l, ms[i].command.value) ==> d.messages[i] == ms[i])
  {
    PackedEach(l, ctx, ms);
    var ws := PackedAll(l, ctx, ms).value;
    var frames := ParseAll(l, ws);
    Pipeline.DecodedFrames(frames);
    hide Packed;
    hide PackedAll;
    hide Parse;
    hide Engine.Decoded;
    hide SameMessage;
    hide Exact;
    hide Undecodable;
    forall i | 0 <= i < |ms|
      ensures frames[i].Malformed? <==> Undecodable(ms[i])
      ensures frames[i].Parsed? ==> SameMessage(ms[i], frames[i].message)
      ensures frames[i].Parsed? && ms[i].command.Some? && Exact(l, ms[i].command.value) ==> frames[i].message == ms[i]
    {
      OneRoundTrip(l, ctx, ms[i]);
      assert frames[i] == Parse(l, ws[i]);
    }
  }

  // ---- payloads ----

  class Payload {
    var context: Text
    var body: Text

    constructor ()
      ensures context == "" && body == ""
    {
      context, body := "", "";
    }
  }

  /** Packs a batch into a payload. A message that cannot be packed leaves the payload as it was; a context or a frame
      that cannot be written leaves no frame of this batch in it. */
  method Encode(l: Libraries, ctx: Context, p: Payload, ms: seq<Message>) returns (ok: bool)
    modifies p
    ensures ms == [] ==> ok && p.context == old(p.context) && p.body == old(p.body)
    ensures ms != [] && PackedAll(l, ctx, ms).None? ==> !ok && p.context == old(p.context) && p.body == old(p.body)
    ensures ms != [] && PackedAll(l, ctx, ms).Some? ==>
              (ok <==> l.marshalContext(ctx).Some? && l.marshalFrame(PackedAll(l, ctx, ms).value).Some?)
    ensures ms != [] && ok ==> Some(p.context) == l.marshalContext(ctx) && Some(p.body) == l.marshalFrame(PackedAll(l, ctx, ms).value)
    ensures !ok ==> p.body == old(p.body) || p.body == ""
  {
    if |ms| == 0 {
      return true;
    }
    var request: seq<Wire> := [];
    for i := 0 to |ms|
      invariant PackedAll(l, ctx, ms[..i]) == Some(request)
      invariant p.context == old(p.context) && p.body == old(p.body)
    {
      var w := Packed(l, ctx, ms[i]);
      assert ms[..i + 1][..i] == ms[..i];
      if w.None? {
        PackedEach(l, ctx, ms);
        return false;
      }
      request := request + [w.value];
    }
    assert ms[..|ms|] == ms;
    var context := l.marshalContext(ctx);
    p.context := if context.Some? then context.value else "";
    if context.None? {
      return false;
    }
    var body := l.marshalFrame(request);
    p.body := if body.Some? then body.value else "";
    ok := body.Some?;
  }

  /** What a body received from the worker is to the engine. An empty body is no message at all. */
  function ReplyOf(l: Libraries, body: Text): Engine.Exchange {
    if body == "" then Engine.Body([])
    else
      var ws := l.unmarshalFrame(body);
      if ws.None? then Engine.Garbled("codec_parse_response") else Engine.Body(ParseAll(l, ws.value))
  }

  /** What a payload decodes to. */
  function Contents(l: Libraries, body: Text): Engine.Incoming {
    Engine.Answered(ReplyOf(l, body))
  }

  /** Appends the messages of a payload to `result`, up to the first that cannot be parsed. */
  method Decode(l: Libraries, p: Payload, result: seq<Message>) returns (all: seq<Message>, error: Option<Engine.Error>)
    ensures all == result + Contents(l, p.body).messages && error == Contents(l, p.body).error
  {
    all, error := result, None;
    if |p.body| == 0 {
      return;
    }
    var response := l.unmarshalFrame(p.body);
    if response.None? {
      return all, Some("codec_parse_response");
    }
    var ws := response.value;
    ghost var frames := ParseAll(l, ws);
    for i := 0 to |ws|
      invariant error.None?
      invariant Engine.Decoded(frames[..i]).error.None? && all == result + Engine.Decoded(frames[..i]).messages
    {
      var f := Parse(l, ws[i]);
      assert frames[..i + 1][..i] == frames[..i] && frames[i] == f;
      if f.Malformed? {
        DecodedStops(frames, i);
        return all, Some(f.error);
      }
      all := all + [f.message];
    }
    assert frames[..|ws|] == frames;
  }

  /** Nothing after the first malformed frame matters. */
  lemma {:induction false} DecodedStops(frames: seq<Engine.Frame>, i: nat)
    requires i < |frames| && frames[i].Malformed? && Engine.Decoded(frames[..i]).error.None?
    ensures Engine.Decoded(frames) == Engine.Incoming(Engine.Decoded(frames[..i]).messages, Some(frames[i].error))
  {
    var before := frames[..|frames| - 1];
    if i < |before| {
      assert before[..i] == frames[..i];
      DecodedStops(before, i);
    }
  }

  /** Through a payload and back. */
  lemma PayloadRoundTrip(l: Libraries, ctx: Context, ms: seq<Message>)
    requires Lawful(l) && ms != [] && PackedAll(l, ctx, ms).Some? && l.marshalFrame(PackedAll(l, ctx, ms).value).Some?
    ensures Contents(l, l.marshalFrame(PackedAll(l, ctx, ms).value).value) == Engine.Decoded(ParseAll(l, PackedAll(l, ctx, ms).value))
  {
    PackedEach(l, ctx, ms);
    hide PackedAll;
    hide Packed;
  }

  // ---- worker info ----

  /** The worker infos in some payload items, up to the first that cannot be read. */
  function Infos(l: Libraries, items: seq<string>): seq<Text> {
    if items == [] || l.fromPayload(items[0]).None? then [] else [l.fromPayload(items[0]).value] + Infos(l, items[1..])
  }

  function ItemsOf(p: Payloads): seq<string> {
    if p.Payloads? then p.items else []
  }

  lemma {:induction false} InfosRead(l: Libraries, items: seq<string>)
    ensures |Infos(l, items)| <= |items|
    ensures |Infos(l, items)| == |items| <==> forall i :: 0 <= i < |items| ==> l.fromPayload(items[i]).Some?
    ensures forall i :: 0 <= i < |Infos(l, items)| ==> l.fromPayload(items[i]) == Some(Infos(l, items)[i])
  {
    if items != [] && l.fromPayload(items[0]).Some? {
      InfosRead(l, items[1..]);
      assert forall i :: 0 < i < |items| ==> items[i] == items[1..][i - 1];
    }
  }

  /** Exactly one message, under id 0. */
  predicate Confirmed(c: Engine.Incoming) {
    c.error.None? && |c.messages| == 1 && c.messages[0].id == 0
  }

  /** Worker info comes as exactly one message, under id 0, every payload of which is an info. The infos before the first
      payload that is none are appended in any case. */
  method DecodeWorkerInfo(l: Libraries, p: Payload, wi: seq<Text>) returns (all: seq<Text>, ok: bool)
    ensures ok <==> var c := Contents(l, p.body);
                    && Confirmed(c)
                    && forall i :: 0 <= i < |ItemsOf(c.messages[0].payloads)| ==> l.fromPayload(ItemsOf(c.messages[0].payloads)[i]).Some?
    ensures all == wi + (if Confirmed(Contents(l, p.body)) then Infos(l, ItemsOf(Contents(l, p.body).messages[0].payloads)) else [])
  {
    all, ok := wi, false;
    var info, error := Decode(l, p, []);
    assert info == Contents(l, p.body).messages;
    if error.Some? || |info| != 1 || info[0].id != 0 {
      return;
    }
    var items := ItemsOf(info[0].payloads);
    for i := 0 to |items|
      invariant forall j :: 0 <= j < i ==> l.fromPayload(items[j]).Some?
      invariant all + Infos(l, items[i..]) == wi + Infos(l, items)
    {
      var t := l.fromPayload(items[i]);
      if t.None? {
        return;
      }
      assert items[i..][0] == items[i] && items[i..][1..] == items[i + 1..];
      assert all + ([t.value] + Infos(l, items[i + 1..])) == (all + [t.value]) + Infos(l, items[i + 1..]);
      all := all + [t.value];
    }
    ok := true;
  }
}
