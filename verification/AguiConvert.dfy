/**
 * From the agent stream to AG-UI events (packages/agui/src/convert.ts): text framing is synthesised
 * from bare deltas by a state that is passed in and handed back.
 */
module AguiConvert {
  import opened Common
  import opened AgentStream

  /** `Custom(e)` is the CUSTOM event named `gnl.<event>` that carries the data of `e`. */
  datatype AguiEvent =
    | RunStarted(threadId: Text, runId: Text)
    | TextStart(messageId: Text)
    | TextContent(messageId: Text, delta: Text)
    | TextEnd(messageId: Text)
    | ToolStart(toolCallId: Text, toolName: Text)
    | ToolArgs(toolCallId: Text, delta: Text)
    | ToolEnd(toolCallId: Text)
    | ToolOutcome(messageId: Text, toolCallId: Text, content: Text)
    | Custom(source: Event)
    | RunError(message: Text, code: Option<Text>, rawEvent: Option<Json>)
    | RunFinished(threadId: Text, runId: Text, finishReason: Option<Json>, usage: Option<Json>)

  datatype Context = Context(threadId: Text, runId: Text)

  datatype ConvertState = ConvertState(textOpen: bool, textMessageId: Option<Text>, textSeq: nat, streamedToolIds: seq<Text>)

  const INITIAL := ConvertState(false, None, 0, [])

  const TEXT_INFIX: Text := Ascii(":text:")
  const RESULT_SUFFIX: Text := Ascii(":result")
  const EMPTY_OBJECT: Text := Ascii("{}")
  const NULL: Text := Ascii("null")
  const UNKNOWN_ERROR: Text := Ascii("unknown error")

  /** The id of the `n`th text message of a run. */
  function TextId(runId: Text, n: nat): (id: Text)
    ensures id != []
  {
    runId + TEXT_INFIX + Decimal(n)
  }

  lemma {:induction false} TextIdsAreDistinct(runId: Text, m: nat, n: nat)
    requires TextId(runId, m) == TextId(runId, n)
    ensures m == n
  {
    var p := runId + TEXT_INFIX;
    assert Decimal(m) == (p + Decimal(m))[|p|..] == (p + Decimal(n))[|p|..] == Decimal(n);
    DecimalIsInjective(m, n);
  }

  predicate IsTextEvent(e: AguiEvent) {
    e.TextStart? || e.TextContent? || e.TextEnd?
  }

  function JsonText(v: Option<Json>, otherwise: Text): Text {
    if v.Some? then v.value.text else otherwise
  }

  predicate IsOpen(s: ConvertState) {
    s.textOpen && s.textMessageId.Some? && s.textMessageId.value != []
  }

  /** convert.ts `closeText`. */
  function CloseText(s: ConvertState): (seq<AguiEvent>, ConvertState) {
    if IsOpen(s) then ([TextEnd(s.textMessageId.value)], s.(textOpen := false, textMessageId := None))
    else ([], s)
  }

  /** Close the open text, then say `es`. */
  function AfterText(s: ConvertState, es: seq<AguiEvent>): (seq<AguiEvent>, ConvertState) {
    (CloseText(s).0 + es, CloseText(s).1)
  }

  /** What an event that ends a text message says after closing it. */
  function BoundaryEvents(e: Event, ctx: Context, s: ConvertState): (es: seq<AguiEvent>)
    ensures forall i :: 0 <= i < |es| ==> !IsTextEvent(es[i])
  {
    match e
    case ToolInputStart(id, name) => [ToolStart(id, name)]
    case ToolCall(id, name, input) =>
      if id in s.streamedToolIds then [] else [ToolStart(id, name), ToolArgs(id, JsonText(input, EMPTY_OBJECT)), ToolEnd(id)]
    case ToolResult(id, _, output) => [ToolOutcome(id + RESULT_SUFFIX, id, JsonText(output.value, NULL))]
    case Error(error, code, detail) =>
      [RunError(if error.Some? then error.value else UNKNOWN_ERROR, if code.Some? && code.value != [] then code else None, detail)]
    case Done(_, finishReason, usage) => [RunFinished(ctx.threadId, ctx.runId, finishReason, usage)]
    case _ => [Custom(e)]
  }

  /** Events that close an open text message; all others leave it alone. */
  predicate IsBoundary(e: Event) {
    e.ToolInputStart? || e.ToolCall? || e.ToolResult? || e.Interrupts? || e.Error? || e.Done?
  }

  /** convert.ts `toAguiEvents`. */
  function ToAguiEvents(e: Event, ctx: Context, s: ConvertState): (seq<AguiEvent>, ConvertState) {
    if IsBoundary(e) then
      var (es, s1) := AfterText(s, BoundaryEvents(e, ctx, s));
      (es, if e.ToolInputStart? then s1.(streamedToolIds := s1.streamedToolIds + [e.toolCallId]) else s1)
    else
      match e
      case TextDelta(t) =>
        if IsOpen(s) then ([TextContent(s.textMessageId.value, OrEmpty(t))], s)
        else
          var id := TextId(ctx.runId, s.textSeq);
          ([TextStart(id), TextContent(id, OrEmpty(t))], ConvertState(true, Some(id), s.textSeq + 1, []))
      case ToolInputDelta(id, d) => ([ToolArgs(id, OrEmpty(d))], s)
      case ToolInputEnd(id) => ([ToolEnd(id)], s)
      case _ => ([Custom(e)], s)
  }

  /** One state threaded through a whole run. */
  function ConvertAll(es: seq<Event>, ctx: Context, s: ConvertState): (seq<AguiEvent>, ConvertState) {
    if es == [] then ([], s)
    else
      var (out, s1) := ConvertAll(es[..|es| - 1], ctx, s);
      var (more, s2) := ToAguiEvents(es[|es| - 1], ctx, s1);
      (out + more, s2)
  }

  lemma {:induction false} ConvertSnoc(es: seq<Event>, e: Event, ctx: Context, s: ConvertState)
    ensures var (out, s1) := ConvertAll(es, ctx, s);
            var (more, s2) := ToAguiEvents(e, ctx, s1);
            ConvertAll(es + [e], ctx, s) == (out + more, s2)
  {
    assert (es + [e])[..|es|] == es;
  }

  // ----- text framing: an independent reader of the output -----

  /** What a client following the protocol has open, and how many text messages it has seen. */
  datatype Reader = Reading(open: Option<Text>, seen: nat) | Broken

  function ReadOne(r: Reader, e: AguiEvent, runId: Text): Reader {
    if r.Broken? then Broken
    else
      match e
      case TextStart(id) => if r.open.None? && id == TextId(runId, r.seen) then Reading(Some(id), r.seen + 1) else Broken
      case TextContent(id, _) => if r.open == Some(id) then r else Broken
      case TextEnd(id) => if r.open == Some(id) then Reading(None, r.seen) else Broken
      case ToolStart(_, _) => if r.open.None? then r else Broken
      case ToolOutcome(_, _, _) => if r.open.None? then r else Broken
      case RunError(_, _, _) => if r.open.None? then r else Broken
      case RunFinished(_, _, _, _) => if r.open.None? then r else Broken
      case Custom(source) => if source.Interrupts? && r.open.Some? then Broken else r
      case _ => r
  }

  function Read(r: Reader, es: seq<AguiEvent>, runId: Text): Reader
    decreases |es|
  {
    if es == [] then r else Read(ReadOne(r, es[0], runId), es[1..], runId)
  }

  lemma {:induction false} ReadAppend(r: Reader, a: seq<AguiEvent>, b: seq<AguiEvent>, runId: Text)
    ensures Read(r, a + b, runId) == Read(Read(r, a, runId), b, runId)
    decreases |a|
  {
    if a == [] {
      assert a + b == b;
    } else {
      assert (a + b)[1..] == a[1..] + b;
      ReadAppend(ReadOne(r, a[0], runId), a[1..], b, runId);
    }
  }

  /** The converter's state and the reader agree. */
  ghost predicate InStep(s: ConvertState, r: Reader) {
    && r.Reading?
    && (s.textOpen <==> s.textMessageId.Some?)
    && (s.textMessageId.Some? ==> s.textMessageId.value != [])
    && r.open == s.textMessageId
    && r.seen == s.textSeq
  }

  /** Between messages every event that is not text is welcome. */
  lemma {:induction false} ReadBetweenMessages(n: nat, es: seq<AguiEvent>, runId: Text)
    requires forall i :: 0 <= i < |es| ==> !IsTextEvent(es[i])
    ensures Read(Reading(None, n), es, runId) == Reading(None, n)
    decreases |es|
  {
    if es != [] {
      ReadBetweenMessages(n, es[1..], runId);
    }
  }

  lemma {:induction false} ReadSingle(r: Reader, e: AguiEvent, runId: Text)
    ensures Read(r, [e], runId) == ReadOne(r, e, runId)
  {
    assert [e][1..] == [];
  }

  lemma {:induction false} ReadAfterText(s: ConvertState, r: Reader, es: seq<AguiEvent>, runId: Text)
    requires InStep(s, r) && forall i :: 0 <= i < |es| ==> !IsTextEvent(es[i])
    ensures Read(r, AfterText(s, es).0, runId) == Reading(None, r.seen)
    ensures InStep(AfterText(s, es).1, Reading(None, r.seen))
  {
    ReadAppend(r, CloseText(s).0, es, runId);
    ReadBetweenMessages(r.seen, es, runId);
    if IsOpen(s) {
      ReadSingle(r, TextEnd(s.textMessageId.value), runId);
    }
  }

  lemma {:induction false} TextDeltaStaysInStep(e: Event, ctx: Context, s: ConvertState, r: Reader)
    requires InStep(s, r) && e.TextDelta?
    ensures var (out, s1) := ToAguiEvents(e, ctx, s);
            InStep(s1, Read(r, out, ctx.runId))
  {
    if IsOpen(s) {
      ReadSingle(r, TextContent(s.textMessageId.value, OrEmpty(e.text)), ctx.runId);
    } else {
      var id := TextId(ctx.runId, s.textSeq);
      var a, b := TextStart(id), TextContent(id, OrEmpty(e.text));
      assert [a, b] == [a] + [b];
      ReadAppend(r, [a], [b], ctx.runId);
      ReadSingle(r, a, ctx.runId);
      ReadSingle(ReadOne(r, a, ctx.runId), b, ctx.runId);
    }
  }

  /** One event in: whatever comes out, the reader follows and stays in step. */
  lemma {:induction false} ConvertStaysInStep(e: Event, ctx: Context, s: ConvertState, r: Reader)
    requires InStep(s, r)
    ensures var (out, s1) := ToAguiEvents(e, ctx, s);
            InStep(s1, Read(r, out, ctx.runId)) && (IsBoundary(e) ==> s1.textMessageId.None?)
  {
    if IsBoundary(e) {
      ReadAfterText(s, r, BoundaryEvents(e, ctx, s), ctx.runId);
    } else if e.TextDelta? {
      TextDeltaStaysInStep(e, ctx, s, r);
    } else {
      ReadSingle(r, ToAguiEvents(e, ctx, s).0[0], ctx.runId);
    }
  }

  /**
   * For every event sequence the text output is well framed: START, CONTENT and END never nest or
   * stray, messages are numbered 0, 1, 2, ..., and nothing is open after `done` or `error`.
   */
  lemma {:induction false} TextIsWellFramed(es: seq<Event>, ctx: Context)
    ensures var (out, s) := ConvertAll(es, ctx, INITIAL);
            var r := Read(Reading(None, 0), out, ctx.runId);
            && InStep(s, r)
            && (es != [] && (es[|es| - 1].Done? || es[|es| - 1].Error?) ==> r.open.None?)
  {
    if es != [] {
      var before, e := es[..|es| - 1], es[|es| - 1];
      TextIsWellFramed(before, ctx);
      var (out, s) := ConvertAll(before, ctx, INITIAL);
      ConvertStaysInStep(e, ctx, s, Read(Reading(None, 0), out, ctx.runId));
      ReadAppend(Reading(None, 0), out, ToAguiEvents(e, ctx, s).0, ctx.runId);
    }
  }

  /** A sequence the reader accepts opens its messages in order, each once. */
  lemma {:induction false} StartsAreNumbered(r: Reader, es: seq<AguiEvent>, runId: Text, i: nat) returns (n: nat)
    requires r.Reading? && Read(r, es, runId).Reading?
    requires i < |es| && es[i].TextStart?
    ensures r.seen <= n < Read(r, es, runId).seen && es[i].messageId == TextId(runId, n)
    decreases |es|
  {
    var r1 := ReadOne(r, es[0], runId);
    ReadNeverRecovers(r1, es[1..], runId);
    if i > 0 {
      assert es[1..][i - 1] == es[i];
      n := StartsAreNumbered(r1, es[1..], runId, i - 1);
    } else {
      SeenGrows(r1, es[1..], runId);
      n := r.seen;
    }
  }

  lemma {:induction false} ReadNeverRecovers(r: Reader, es: seq<AguiEvent>, runId: Text)
    ensures r.Broken? ==> Read(r, es, runId).Broken?
    decreases |es|
  {
    if es != [] {
      ReadNeverRecovers(ReadOne(r, es[0], runId), es[1..], runId);
    }
  }

  lemma {:induction false} SeenGrows(r: Reader, es: seq<AguiEvent>, runId: Text)
    requires r.Reading? && Read(r, es, runId).Reading?
    ensures r.seen <= Read(r, es, runId).seen
    decreases |es|
  {
    if es != [] {
      ReadNeverRecovers(ReadOne(r, es[0], runId), es[1..], runId);
      SeenGrows(ReadOne(r, es[0], runId), es[1..], runId);
    }
  }

  lemma {:induction false} AcceptedIdsAreFresh(out: seq<AguiEvent>, runId: Text, i: nat, j: nat)
    requires Read(Reading(None, 0), out, runId).Reading?
    requires i < j < |out| && out[i].TextStart? && out[j].TextStart?
    ensures out[i].messageId != out[j].messageId
  {
    var a, b := out[..j], out[j..];
    assert out == a + b;
    ReadAppend(Reading(None, 0), a, b, runId);
    var r := Read(Reading(None, 0), a, runId);
    ReadNeverRecovers(r, b, runId);
    var m := StartsAreNumbered(Reading(None, 0), a, runId, i);
    var n := StartsAreNumbered(r, b, runId, 0);
    if out[i].messageId == out[j].messageId {
      TextIdsAreDistinct(runId, m, n);
    }
  }

  /** No text message id is used twice. */
  lemma {:induction false} MessageIdsAreFresh(es: seq<Event>, ctx: Context, i: nat, j: nat)
    requires var out := ConvertAll(es, ctx, INITIAL).0;
             i < j < |out| && out[i].TextStart? && out[j].TextStart?
    ensures var out := ConvertAll(es, ctx, INITIAL).0;
            out[i].messageId != out[j].messageId
  {
    TextIsWellFramed(es, ctx);
    AcceptedIdsAreFresh(ConvertAll(es, ctx, INITIAL).0, ctx.runId, i, j);
  }

  // ----- tool framing -----

  predicate Announces(e: Event, id: Text) {
    e.ToolInputStart? && e.toolCallId == id
  }

  predicate Calls(e: Event, id: Text) {
    e.ToolCall? && e.toolCallId == id
  }

  /** `id` was announced and no text has come since: the one situation in which its call is not framed again. */
  predicate IsRemembered(es: seq<Event>, id: Text) {
    es != [] && (Announces(es[|es| - 1], id) || (!es[|es| - 1].TextDelta? && IsRemembered(es[..|es| - 1], id)))
  }

  lemma {:induction false} RememberedIffStreamed(es: seq<Event>, ctx: Context, id: Text)
    ensures IsRemembered(es, id) <==> id in ConvertAll(es, ctx, INITIAL).1.streamedToolIds
    ensures var s := ConvertAll(es, ctx, INITIAL).1;
            IsOpen(s) ==> s.streamedToolIds == []
  {
    if es != [] {
      RememberedIffStreamed(es[..|es| - 1], ctx, id);
    }
  }

  function ToolStarts(out: seq<AguiEvent>, id: Text): nat {
    if out == [] then 0
    else ToolStarts(out[..|out| - 1], id) + if out[|out| - 1].ToolStart? && out[|out| - 1].toolCallId == id then 1 else 0
  }

  lemma {:induction false} ToolStartsAppend(a: seq<AguiEvent>, b: seq<AguiEvent>, id: Text)
    ensures ToolStarts(a + b, id) == ToolStarts(a, id) + ToolStarts(b, id)
    decreases |b|
  {
    if b == [] {
      assert a + b == a;
    } else {
      assert (a + b)[..|a + b| - 1] == a + b[..|b| - 1];
      ToolStartsAppend(a, b[..|b| - 1], id);
    }
  }

  /** What one source event adds, told from the source alone. */
  function StartsAdded(before: seq<Event>, e: Event, id: Text): nat {
    if Announces(e, id) || (Calls(e, id) && !IsRemembered(before, id)) then 1 else 0
  }

  predicate StartsTool(e: AguiEvent, id: Text) {
    e.ToolStart? && e.toolCallId == id
  }

  lemma {:induction false} NoToolStarts(es: seq<AguiEvent>, id: Text)
    requires forall i :: 0 <= i < |es| ==> !StartsTool(es[i], id)
    ensures ToolStarts(es, id) == 0
  {
    if es != [] {
      NoToolStarts(es[..|es| - 1], id);
    }
  }

  lemma {:induction false} LeadingToolStart(es: seq<AguiEvent>, id: Text)
    requires es != [] && StartsTool(es[0], id) && forall i :: 1 <= i < |es| ==> !StartsTool(es[i], id)
    ensures ToolStarts(es, id) == 1
  {
    assert es == [es[0]] + es[1..];
    ToolStartsAppend([es[0]], es[1..], id);
    NoToolStarts(es[1..], id);
    assert [es[0]][..0] == [];
  }

  lemma {:induction false} StartsOfBoundary(e: Event, ctx: Context, s: ConvertState, id: Text)
    requires IsBoundary(e)
    ensures ToolStarts(BoundaryEvents(e, ctx, s), id) ==
            if Announces(e, id) || (Calls(e, id) && id !in s.streamedToolIds) then 1 else 0
  {
    var es := BoundaryEvents(e, ctx, s);
    if Announces(e, id) || (Calls(e, id) && id !in s.streamedToolIds) {
      LeadingToolStart(es, id);
    } else {
      NoToolStarts(es, id);
    }
  }

  lemma {:induction false} StartsOfEvent(e: Event, ctx: Context, s: ConvertState, id: Text)
    ensures ToolStarts(ToAguiEvents(e, ctx, s).0, id) ==
            if Announces(e, id) || (Calls(e, id) && id !in s.streamedToolIds) then 1 else 0
  {
    if IsBoundary(e) {
      StartsOfBoundary(e, ctx, s, id);
      ToolStartsAppend(CloseText(s).0, BoundaryEvents(e, ctx, s), id);
      NoToolStarts(CloseText(s).0, id);
    } else {
      NoToolStarts(ToAguiEvents(e, ctx, s).0, id);
    }
  }

  lemma {:induction false} StartsOfOne(before: seq<Event>, e: Event, ctx: Context, id: Text)
    ensures ToolStarts(ToAguiEvents(e, ctx, ConvertAll(before, ctx, INITIAL).1).0, id) == StartsAdded(before, e, id)
  {
    RememberedIffStreamed(before, ctx, id);
    StartsOfEvent(e, ctx, ConvertAll(before, ctx, INITIAL).1, id);
  }

  /** How often a source gets the client to start `id`: once for each announcement and each call it does not remember. */
  function StartsOf(es: seq<Event>, id: Text): nat {
    if es == [] then 0 else StartsOf(es[..|es| - 1], id) + StartsAdded(es[..|es| - 1], es[|es| - 1], id)
  }

  /** For every source, whatever it announces, repeats or leaves out. */
  lemma {:induction false} StartsAreCounted(es: seq<Event>, ctx: Context, id: Text)
    ensures ToolStarts(ConvertAll(es, ctx, INITIAL).0, id) == StartsOf(es, id)
  {
    if es != [] {
      var before, e := es[..|es| - 1], es[|es| - 1];
      var (out, s) := ConvertAll(before, ctx, INITIAL);
      StartsAreCounted(before, ctx, id);
      StartsOfOne(before, e, ctx, id);
      ToolStartsAppend(out, ToAguiEvents(e, ctx, s).0, id);
    }
  }

  /** With one announcement at `i` and one call at `k`, the starts among the first `n` events. */
  lemma {:induction false} StartsSoFar(es: seq<Event>, id: Text, i: nat, k: nat, n: nat)
    requires i < |es| && k < |es| && n <= |es|
    requires forall j :: 0 <= j < |es| ==> (Announces(es[j], id) <==> j == i) && (Calls(es[j], id) <==> j == k)
    ensures StartsOf(es[..n], id) ==
            (if i < n then 1 else 0) + (if k < n && !IsRemembered(es[..k], id) then 1 else 0)
    decreases n
  {
    if n > 0 {
      StartsSoFar(es, id, i, k, n - 1);
      var upTo := es[..n];
      assert upTo[..n - 1] == es[..n - 1] && upTo[n - 1] == es[n - 1];
      assert StartsOf(upTo, id) == StartsOf(es[..n - 1], id) + StartsAdded(es[..n - 1], es[n - 1], id);
    }
  }

  lemma {:induction false} RememberedIffNoTextBetween(es: seq<Event>, id: Text, i: nat)
    requires forall j :: 0 <= j < |es| ==> (Announces(es[j], id) <==> j == i)
    ensures IsRemembered(es, id) <==> i < |es| && forall j :: i < j < |es| ==> !es[j].TextDelta?
  {
    if es != [] {
      var before := es[..|es| - 1];
      if i == |es| - 1 {
        assert Announces(es[i], id);
      } else {
        RememberedIffNoTextBetween(before, id, i);
        assert forall j :: 0 <= j < |before| ==> before[j] == es[j];
      }
    }
  }

  /**
   * A source that announces a tool call once and completes it once gets exactly one TOOL_CALL_START
   * if and only if the announcement comes first and no text delta lies between the two. Otherwise
   * the client sees the call started twice.
   */
  lemma {:induction false} OneStartIffNoTextBetween(es: seq<Event>, ctx: Context, id: Text, i: nat, k: nat)
    requires i < |es| && k < |es|
    requires forall j :: 0 <= j < |es| ==> (Announces(es[j], id) <==> j == i) && (Calls(es[j], id) <==> j == k)
    ensures var starts := ToolStarts(ConvertAll(es, ctx, INITIAL).0, id);
            var quiet := i < k && forall j :: i < j < k ==> !es[j].TextDelta?;
            starts == if quiet then 1 else 2
  {
    assert es[..|es|] == es;
    StartsAreCounted(es, ctx, id);
    StartsSoFar(es, id, i, k, |es|);
    RememberedIffNoTextBetween(es[..k], id, i);
  }

  // ----- nothing is dropped on the way -----

  /** A tool result as the AG-UI client gets it: its message, the call and the JSON of its output. */
  function OutcomeIn(e: AguiEvent): seq<(Text, Text, Text)> {
    if e.ToolOutcome? then [(e.messageId, e.toolCallId, e.content)] else []
  }

  function ResultIn(e: Event): seq<(Text, Text, Text)> {
    if e.ToolResult? then
      [(e.toolCallId + RESULT_SUFFIX, e.toolCallId, match e.output.value case Some(json) => json.text case None => NULL)]
    else []
  }

  function CustomIn(e: AguiEvent): seq<Event> {
    if e.Custom? then [e.source] else []
  }

  /** The events AG-UI has no name for. */
  function UnnamedIn(e: Event): seq<Event> {
    if || e.TextDelta? || e.ToolInputStart? || e.ToolInputDelta? || e.ToolInputEnd?
       || e.ToolCall? || e.ToolResult? || e.Error? || e.Done? then [] else [e]
  }

  /** Closing the text that was open is of no account to a reader of other things. */
  lemma {:induction false} GatherBehindText<T>(e: Event, ctx: Context, s: ConvertState, pick: AguiEvent -> seq<T>)
    requires IsBoundary(e) && forall id :: pick(TextEnd(id)) == []
    ensures Gather(ToAguiEvents(e, ctx, s).0, pick) == Gather(BoundaryEvents(e, ctx, s), pick)
  {
    var closing, es := CloseText(s).0, BoundaryEvents(e, ctx, s);
    GatherAppend(closing, es, pick);
    GatherNothing(closing, pick);
    assert [] + Gather(es, pick) == Gather(es, pick);
  }

  lemma {:induction false} OneResultArrives(e: Event, ctx: Context, s: ConvertState)
    ensures Gather(ToAguiEvents(e, ctx, s).0, OutcomeIn) == ResultIn(e)
  {
    if IsBoundary(e) {
      GatherBehindText(e, ctx, s, OutcomeIn);
      ResultAtBoundary(e, ctx, s);
    } else {
      GatherNothing(ToAguiEvents(e, ctx, s).0, OutcomeIn);
    }
  }

  lemma {:induction false} ResultAtBoundary(e: Event, ctx: Context, s: ConvertState)
    requires IsBoundary(e)
    ensures Gather(BoundaryEvents(e, ctx, s), OutcomeIn) == ResultIn(e)
  {
    var es := BoundaryEvents(e, ctx, s);
    if e.ToolResult? {
      GatherAt(es, OutcomeIn, 0);
    } else {
      GatherNothing(es, OutcomeIn);
    }
  }

  lemma {:induction false} OneUnnamedArrives(e: Event, ctx: Context, s: ConvertState)
    ensures Gather(ToAguiEvents(e, ctx, s).0, CustomIn) == UnnamedIn(e)
  {
    if IsBoundary(e) {
      GatherBehindText(e, ctx, s, CustomIn);
      UnnamedAtBoundary(e, ctx, s);
    } else {
      UnnamedInBand(e, ctx, s);
    }
  }

  lemma {:induction false} UnnamedAtBoundary(e: Event, ctx: Context, s: ConvertState)
    requires IsBoundary(e)
    ensures Gather(BoundaryEvents(e, ctx, s), CustomIn) == UnnamedIn(e)
  {
    var es := BoundaryEvents(e, ctx, s);
    if e.Interrupts? {
      GatherAt(es, CustomIn, 0);
    } else {
      GatherNothing(es, CustomIn);
    }
  }

  lemma {:induction false} UnnamedInBand(e: Event, ctx: Context, s: ConvertState)
    requires !IsBoundary(e)
    ensures Gather(ToAguiEvents(e, ctx, s).0, CustomIn) == UnnamedIn(e)
  {
    var out := ToAguiEvents(e, ctx, s).0;
    if e.TextDelta? || e.ToolInputDelta? || e.ToolInputEnd? {
      GatherNothing(out, CustomIn);
    } else {
      GatherAt(out, CustomIn, 0);
    }
  }

  /**
   * Over a whole run every tool result reaches the client once, in order, under its own call, and
   * every event without an AG-UI name travels on as a CUSTOM event with its data: nothing is dropped.
   */
  lemma {:induction false} NothingIsDropped(es: seq<Event>, ctx: Context)
    ensures var out := ConvertAll(es, ctx, INITIAL).0;
            Gather(out, OutcomeIn) == Gather(es, ResultIn) && Gather(out, CustomIn) == Gather(es, UnnamedIn)
  {
    if es != [] {
      var before, e := es[..|es| - 1], es[|es| - 1];
      var (out, s) := ConvertAll(before, ctx, INITIAL);
      NothingIsDropped(before, ctx);
      OneResultArrives(e, ctx, s);
      OneUnnamedArrives(e, ctx, s);
      GatherAppend(out, ToAguiEvents(e, ctx, s).0, OutcomeIn);
      GatherAppend(out, ToAguiEvents(e, ctx, s).0, CustomIn);
    }
  }

  /** The argument text of call `id`, as the client puts it together. */
  function ArgsIn(id: Text): AguiEvent -> Text {
    (e: AguiEvent) => if e.ToolArgs? && e.toolCallId == id then e.delta else []
  }

  /** The argument text one source event brings for `id`: a streamed delta, or the whole input of a call nobody announced. */
  function ArgsFrom(before: seq<Event>, e: Event, id: Text): Text {
    if e.ToolInputDelta? && e.toolCallId == id then OrEmpty(e.delta)
    else if Calls(e, id) && !IsRemembered(before, id) then JsonText(e.input, EMPTY_OBJECT)
    else []
  }

  function ArgsOf(es: seq<Event>, id: Text): Text {
    if es == [] then [] else ArgsOf(es[..|es| - 1], id) + ArgsFrom(es[..|es| - 1], es[|es| - 1], id)
  }

  lemma {:induction false} OneArgumentArrives(e: Event, ctx: Context, s: ConvertState, id: Text)
    ensures Gather(ToAguiEvents(e, ctx, s).0, ArgsIn(id)) ==
            if e.ToolInputDelta? && e.toolCallId == id then OrEmpty(e.delta)
            else if Calls(e, id) && id !in s.streamedToolIds then JsonText(e.input, EMPTY_OBJECT)
            else []
  {
    var out := ToAguiEvents(e, ctx, s).0;
    if IsBoundary(e) {
      GatherBehindText(e, ctx, s, ArgsIn(id));
      ArgumentAtBoundary(e, ctx, s, id);
    } else if e.ToolInputDelta? && e.toolCallId == id {
      GatherAt(out, ArgsIn(id), 0);
    } else {
      GatherNothing(out, ArgsIn(id));
    }
  }

  lemma {:induction false} ArgumentAtBoundary(e: Event, ctx: Context, s: ConvertState, id: Text)
    requires IsBoundary(e)
    ensures Gather(BoundaryEvents(e, ctx, s), ArgsIn(id)) ==
            if Calls(e, id) && id !in s.streamedToolIds then JsonText(e.input, EMPTY_OBJECT) else []
  {
    var es := BoundaryEvents(e, ctx, s);
    if Calls(e, id) && id !in s.streamedToolIds {
      GatherAt(es, ArgsIn(id), 1);
    } else {
      GatherNothing(es, ArgsIn(id));
    }
  }

  /** The client's argument text for a call is what the source streamed for it, or its whole input if nothing was announced. */
  lemma {:induction false} ArgumentsArrive(es: seq<Event>, ctx: Context, id: Text)
    ensures Gather(ConvertAll(es, ctx, INITIAL).0, ArgsIn(id)) == ArgsOf(es, id)
  {
    if es != [] {
      var before, e := es[..|es| - 1], es[|es| - 1];
      var (out, s) := ConvertAll(before, ctx, INITIAL);
      ArgumentsArrive(before, ctx, id);
      RememberedIffStreamed(before, ctx, id);
      OneArgumentArrives(e, ctx, s, id);
      GatherAppend(out, ToAguiEvents(e, ctx, s).0, ArgsIn(id));
    }
  }

  /** What the client sees of one call: its start with the tool's name, pieces of its arguments, its end. */
  datatype ToolFrame = Starts(name: Text) | Says(args: Text) | Ends

  function FramesIn(id: Text): AguiEvent -> seq<ToolFrame> {
    (e: AguiEvent) =>
      match e
      case ToolStart(call, name) => if call == id then [Starts(name)] else []
      case ToolArgs(call, delta) => if call == id then [Says(delta)] else []
      case ToolEnd(call) => if call == id then [Ends] else []
      case _ => []
  }

  /** What one source event is to show of call `id`. */
  function FramesFrom(before: seq<Event>, e: Event, id: Text): seq<ToolFrame> {
    if Announces(e, id) then [Starts(e.toolName)]
    else if e.ToolInputDelta? && e.toolCallId == id then [Says(OrEmpty(e.delta))]
    else if e.ToolInputEnd? && e.toolCallId == id then [Ends]
    else if Calls(e, id) && !IsRemembered(before, id) then [Starts(e.toolName), Says(JsonText(e.input, EMPTY_OBJECT)), Ends]
    else []
  }

  function FramesOf(es: seq<Event>, id: Text): seq<ToolFrame> {
    if es == [] then [] else FramesOf(es[..|es| - 1], id) + FramesFrom(es[..|es| - 1], es[|es| - 1], id)
  }

  lemma {:induction false} FramesAtBoundary(e: Event, ctx: Context, s: ConvertState, id: Text)
    requires IsBoundary(e)
    ensures Gather(BoundaryEvents(e, ctx, s), FramesIn(id)) ==
            if Announces(e, id) then [Starts(e.toolName)]
            else if Calls(e, id) && id !in s.streamedToolIds then [Starts(e.toolName), Says(JsonText(e.input, EMPTY_OBJECT)), Ends]
            else []
  {
    var es := BoundaryEvents(e, ctx, s);
    if Announces(e, id) {
      GatherAt(es, FramesIn(id), 0);
    } else if Calls(e, id) && id !in s.streamedToolIds {
      GatherThree(es[0], es[1], es[2], FramesIn(id));
      assert es == [es[0], es[1], es[2]];
    } else {
      GatherNothing(es, FramesIn(id));
    }
  }

  lemma {:induction false} OneFrameArrives(before: seq<Event>, e: Event, ctx: Context, id: Text)
    ensures Gather(ToAguiEvents(e, ctx, ConvertAll(before, ctx, INITIAL).1).0, FramesIn(id)) == FramesFrom(before, e, id)
  {
    var s := ConvertAll(before, ctx, INITIAL).1;
    RememberedIffStreamed(before, ctx, id);
    if IsBoundary(e) {
      GatherBehindText(e, ctx, s, FramesIn(id));
      FramesAtBoundary(e, ctx, s, id);
    } else {
      FrameInBand(e, ctx, s, id);
    }
  }

  lemma {:induction false} FrameInBand(e: Event, ctx: Context, s: ConvertState, id: Text)
    requires !IsBoundary(e)
    ensures Gather(ToAguiEvents(e, ctx, s).0, FramesIn(id)) ==
            if e.ToolInputDelta? && e.toolCallId == id then [Says(OrEmpty(e.delta))]
            else if e.ToolInputEnd? && e.toolCallId == id then [Ends]
            else []
  {
    var out := ToAguiEvents(e, ctx, s).0;
    if (e.ToolInputDelta? || e.ToolInputEnd?) && e.toolCallId == id {
      GatherAt(out, FramesIn(id), 0);
    } else {
      GatherNothing(out, FramesIn(id));
    }
  }

  /**
   * Over a whole run the client sees of every call exactly the frames the source says, in order: an
   * announced one piece by piece, one that is not remembered as announced as start, arguments and end.
   */
  lemma {:induction false} ToolFramesArrive(es: seq<Event>, ctx: Context, id: Text)
    ensures Gather(ConvertAll(es, ctx, INITIAL).0, FramesIn(id)) == FramesOf(es, id)
  {
    if es != [] {
      var before, e := es[..|es| - 1], es[|es| - 1];
      var (out, s) := ConvertAll(before, ctx, INITIAL);
      ToolFramesArrive(before, ctx, id);
      OneFrameArrives(before, e, ctx, id);
      GatherAppend(out, ToAguiEvents(e, ctx, s).0, FramesIn(id));
    }
  }
}
