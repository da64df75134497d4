/**
 * The agent stream wire schema (packages/durable/src/agent-stream.ts): parts of a model stream in,
 * events out. `limitBreachFromSteps`, `blockedFromSteps` and `surfacedInterrupts` are not modelled;
 * their answers are part of the input.
 */
module AgentStream {
  import opened Common

  /** An opaque value, by its JSON text; an optional one may be `undefined`. */
  datatype Json = Json(text: Text)

  /** A tool's output, with the three internal sentinels it may carry. */
  datatype ToolOutput = ToolOutput(suspend: bool, limit: bool, blocked: bool, value: Option<Json>)

  predicate IsSentinel(o: ToolOutput) {
    o.suspend || o.limit || o.blocked
  }

  datatype Interrupt = Interrupt(record: Json, runId: Option<Text>)

  // ----- events -----

  datatype Event =
    | TextDelta(text: Option<Text>)
    | ReasoningStart(id: Text)
    | ReasoningDelta(id: Text, text: Option<Text>)
    | ReasoningEnd(id: Text)
    | ToolInputStart(toolCallId: Text, toolName: Text)
    | ToolInputDelta(toolCallId: Text, delta: Option<Text>)
    | ToolInputEnd(toolCallId: Text)
    | ToolCall(toolCallId: Text, toolName: Text, input: Option<Json>)
    | ToolResult(toolCallId: Text, toolName: Text, output: ToolOutput)
    | ToolError(toolCallId: Text, toolName: Text, problem: Text)
    | Source(data: Json)
    | File(data: Json)
    | StepStart
    | StepFinish(data: Json)
    | Raw(kind: Text)
    | Interrupts(interrupts: seq<Interrupt>, address: Option<Text>)
    | Error(error: Option<Text>, code: Option<Text>, detail: Option<Json>)
    | Done(runId: Text, finishReason: Option<Json>, usage: Option<Json>)

  function OrEmpty(t: Option<Text>): Text {
    if t.Some? then t.value else []
  }

  // ----- the model's stream -----

  datatype Part =
    | TextDeltaPart(text: Option<Text>, delta: Option<Text>)
    | ToolCallPart(toolCallId: Text, toolName: Text, input: Option<Json>)
    | ToolResultPart(toolCallId: Text, toolName: Text, output: ToolOutput)
    | ReasoningStartPart(id: Text)
    | ReasoningDeltaPart(id: Text, text: Option<Text>, delta: Option<Text>)
    | ReasoningEndPart(id: Text)
    | ToolInputStartPart(callId: Option<Text>, id: Text, toolName: Text)
    | ToolInputDeltaPart(callId: Option<Text>, id: Text, delta: Option<Text>)
    | ToolInputEndPart(callId: Option<Text>, id: Text)
    | SourcePart(data: Json)
    | FilePart(data: Json)
    | StartStepPart
    | FinishStepPart(data: Json)
    | ToolErrorPart(toolCallId: Text, toolName: Text, error: Text)
    | ErrorPart(error: Text)
    | SilentPart
    | UnknownPart(kind: Text)

  /** `a ?? b ?? ''`. */
  function FirstText(a: Option<Text>, b: Option<Text>): Text {
    if a.Some? then a.value else OrEmpty(b)
  }

  function OrElse(a: Option<Text>, b: Text): Text {
    if a.Some? then a.value else b
  }

  /** The switch of `agentStreamEvents`. */
  function EventsOf(p: Part): seq<Event> {
    match p
    case TextDeltaPart(t, d) => if FirstText(t, d) != [] then [TextDelta(Some(FirstText(t, d)))] else []
    case ToolCallPart(id, name, input) => [ToolCall(id, name, input)]
    case ToolResultPart(id, name, out) => if IsSentinel(out) then [] else [ToolResult(id, name, out)]
    case ReasoningStartPart(id) => [ReasoningStart(id)]
    case ReasoningDeltaPart(id, t, d) => if FirstText(t, d) != [] then [ReasoningDelta(id, Some(FirstText(t, d)))] else []
    case ReasoningEndPart(id) => [ReasoningEnd(id)]
    case ToolInputStartPart(c, id, name) => [ToolInputStart(OrElse(c, id), name)]
    case ToolInputDeltaPart(c, id, d) => [ToolInputDelta(OrElse(c, id), d)]
    case ToolInputEndPart(c, id) => [ToolInputEnd(OrElse(c, id))]
    case SourcePart(data) => [Source(data)]
    case FilePart(data) => [File(data)]
    case StartStepPart => [StepStart]
    case FinishStepPart(data) => [StepFinish(data)]
    case ToolErrorPart(id, name, e) => [ToolError(id, name, e)]
    case ErrorPart(e) => [Error(Some(e), None, None)]
    case SilentPart => []
    case UnknownPart(kind) => [Raw(kind)]
  }

  function EventsOfParts(parts: seq<Part>): seq<Event> {
    if parts == [] then [] else EventsOfParts(parts[..|parts| - 1]) + EventsOf(parts[|parts| - 1])
  }

  lemma {:induction false} EventsOfNextPart(parts: seq<Part>, n: nat)
    requires n < |parts|
    ensures EventsOfParts(parts[..n + 1]) == EventsOfParts(parts[..n]) + EventsOf(parts[n])
  {
    assert parts[..n + 1][..n] == parts[..n];
  }

  /** A finished step's content part; a suspended tool result carries the interrupts it surfaces. */
  datatype StepPart = Suspended(surfaced: seq<Interrupt>) | Plain

  datatype Breach = Breach(message: Text, isLoop: bool, detail: Option<Json>)

  datatype Block = Block(message: Text, code: Text, detail: Option<Json>)

  datatype Steps = Steps(content: seq<seq<StepPart>>, breach: Option<Breach>, blocked: Option<Block>)

  /** `steps` is `None` when its promise rejects with `stepsError`; `failure` is what `fullStream` threw after the parts. */
  datatype StreamResult = StreamResult(
    parts: seq<Part>, failure: Option<Text>,
    steps: Option<Steps>, stepsError: Text,
    finishReason: Option<Json>, usage: Option<Json>)

  datatype Codes = Codes(runLimitExceeded: Text, toolLoopDetected: Text, blocked: map<Text, Text>)

  const RUN_BUSY: Text := Ascii("run_busy")

  function SurfacedBy(part: StepPart): seq<Interrupt> {
    if part.Suspended? then part.surfaced else []
  }

  function SurfacedByStep(step: seq<StepPart>): seq<Interrupt> {
    Concat(seq(|step|, i requires 0 <= i < |step| => SurfacedBy(step[i])))
  }

  /** The interrupts of all steps, in order. */
  function InterruptsOf(content: seq<seq<StepPart>>): seq<Interrupt> {
    Concat(seq(|content|, i requires 0 <= i < |content| => SurfacedByStep(content[i])))
  }

  lemma {:induction false} SurfacedSnoc(step: seq<StepPart>, n: nat)
    requires n < |step|
    ensures SurfacedByStep(step[..n + 1]) == SurfacedByStep(step[..n]) + SurfacedBy(step[n])
  {
    var a, b := step[..n], step[..n + 1];
    var pieces := seq(|a|, i requires 0 <= i < |a| => SurfacedBy(a[i]));
    assert seq(|b|, i requires 0 <= i < |b| => SurfacedBy(b[i])) == pieces + [SurfacedBy(step[n])];
    ConcatSnoc(pieces, SurfacedBy(step[n]));
  }

  lemma {:induction false} InterruptsSnoc(content: seq<seq<StepPart>>, n: nat)
    requires n < |content|
    ensures InterruptsOf(content[..n + 1]) == InterruptsOf(content[..n]) + SurfacedByStep(content[n])
  {
    var a, b := content[..n], content[..n + 1];
    var pieces := seq(|a|, i requires 0 <= i < |a| => SurfacedByStep(a[i]));
    assert seq(|b|, i requires 0 <= i < |b| => SurfacedByStep(b[i])) == pieces + [SurfacedByStep(content[n])];
    ConcatSnoc(pieces, SurfacedByStep(content[n]));
  }

  /** agent-stream.ts `interruptsFromSteps`. */
  method InterruptsFromSteps(content: seq<seq<StepPart>>) returns (out: seq<Interrupt>)
    ensures out == InterruptsOf(content)
  {
    out := [];
    for n := 0 to |content|
      invariant out == InterruptsOf(content[..n])
    {
      var step := content[n];
      ghost var before := out;
      for k := 0 to |step|
        invariant out == before + SurfacedByStep(step[..k])
      {
        SurfacedSnoc(step, k);
        out := out + SurfacedBy(step[k]);
      }
      assert step[..|step|] == step;
      InterruptsSnoc(content, n);
    }
    assert content[..|content|] == content;
  }

  /** The error a stream ends in, if it does not end well. */
  function EndingError(r: StreamResult, codes: Codes): (e: Option<Event>)
    ensures e.Some? ==> e.value.Error?
  {
    if r.failure.Some? then Some(Error(r.failure, None, None))
    else if r.steps.None? then Some(Error(Some(r.stepsError), None, None))
    else if r.steps.value.breach.Some? then
      var breach := r.steps.value.breach.value;
      Some(Error(Some(breach.message), Some(if breach.isLoop then codes.toolLoopDetected else codes.runLimitExceeded), breach.detail))
    else if r.steps.value.blocked.Some? then
      var blocked := r.steps.value.blocked.value;
      Some(Error(Some(blocked.message), Some(BlockedCode(blocked.code, codes)), blocked.detail))
    else None
  }

  /** The events after the parts. */
  function Ending(r: StreamResult, runId: Text, codes: Codes): (es: seq<Event>)
    ensures es != []
  {
    var e := EndingError(r, codes);
    if e.Some? then [e.value]
    else
      var interrupts := InterruptsOf(r.steps.value.content);
      (if interrupts != [] then [Interrupts(interrupts, None)] else []) + [Done(runId, r.finishReason, r.usage)]
  }

  function BlockedCode(code: Text, codes: Codes): Text {
    if code in codes.blocked then codes.blocked[code] else RUN_BUSY
  }

  /** Everything the stream says. */
  function StreamEvents(r: StreamResult, runId: Text, codes: Codes): seq<Event> {
    EventsOfParts(r.parts) + Ending(r, runId, codes)
  }

  /** agent-stream.ts `agentStreamEvents`, as the list of what it yields. */
  method AgentStreamEvents(r: StreamResult, runId: Text, codes: Codes) returns (out: seq<Event>)
    ensures out == StreamEvents(r, runId, codes)
  {
    out := [];
    for n := 0 to |r.parts|
      invariant out == EventsOfParts(r.parts[..n])
    {
      EventsOfNextPart(r.parts, n);
      out := out + EventsOf(r.parts[n]);
    }
    assert r.parts[..|r.parts|] == r.parts;
    if r.failure.Some? {
      out := out + [Error(r.failure, None, None)];
      return;
    }
    if r.steps.None? {
      out := out + [Error(Some(r.stepsError), None, None)];
      return;
    }
    var breach, blocked := r.steps.value.breach, r.steps.value.blocked;
    if breach.Some? {
      var code := if breach.value.isLoop then codes.toolLoopDetected else codes.runLimitExceeded;
      out := out + [Error(Some(breach.value.message), Some(code), breach.value.detail)];
      return;
    }
    if blocked.Some? {
      out := out + [Error(Some(blocked.value.message), Some(BlockedCode(blocked.value.code, codes)), blocked.value.detail)];
      return;
    }
    var interrupts := InterruptsFromSteps(r.steps.value.content);
    ghost var body := out;
    if interrupts != [] {
      out := out + [Interrupts(interrupts, None)];
    }
    out := out + [Done(runId, r.finishReason, r.usage)];
    assert out == body + Ending(r, runId, codes);
  }

  // ----- what a consumer may rely on -----

  /** What no part can produce: an ending, or a sentinel dressed as a tool result. */
  predicate IsBodyEvent(e: Event) {
    !e.Done? && !e.Interrupts? && (e.ToolResult? ==> !IsSentinel(e.output))
  }

  lemma {:induction false} PartsYieldBodyEvents(parts: seq<Part>)
    ensures forall i :: 0 <= i < |EventsOfParts(parts)| ==> IsBodyEvent(EventsOfParts(parts)[i])
  {
    if parts != [] {
      PartsYieldBodyEvents(parts[..|parts| - 1]);
    }
  }

  /**
   * Every stream ends in `done` or `error`; `done` comes once and last, and exactly when nothing
   * threw and the steps hold neither a breach nor a block; no sentinel ever shows as a tool result.
   */
  lemma {:induction false} StreamIsWellEnded(r: StreamResult, runId: Text, codes: Codes)
    ensures var es := StreamEvents(r, runId, codes);
            var last := es[|es| - 1];
            && (last.Done? || last.Error?)
            && (last.Done? <==> r.failure.None? && r.steps.Some? && r.steps.value.breach.None? && r.steps.value.blocked.None?)
            && (forall i :: 0 <= i < |es| - 1 ==> !es[i].Done?)
            && (forall i :: 0 <= i < |es| && es[i].ToolResult? ==> !IsSentinel(es[i].output))
  {
    PartsYieldBodyEvents(r.parts);
    var body, end := EventsOfParts(r.parts), Ending(r, runId, codes);
    var es := body + end;
    assert es[|es| - 1] == end[|end| - 1];
    forall i | 0 <= i < |es| - 1 ensures !es[i].Done? {
      if i < |body| {
        assert IsBodyEvent(body[i]);
      } else {
        assert es[i] == end[i - |body|];
      }
    }
    forall i | 0 <= i < |es| && es[i].ToolResult? ensures !IsSentinel(es[i].output) {
      if i < |body| {
        assert IsBodyEvent(body[i]);
      }
    }
  }

  predicate IsError(e: Event) {
    e.Error?
  }

  predicate IsErrorPart(p: Part) {
    p.ErrorPart?
  }

  lemma {:induction false} ErrorsOfPart(p: Part)
    ensures Has(EventsOf(p), IsError) <==> Has([p], IsErrorPart)
  {
    assert IsErrorPart(p) <==> IsErrorPart([p][0]);
    if p.ErrorPart? {
      assert IsError(EventsOf(p)[0]);
    }
  }

  lemma {:induction false} ErrorsOfParts(parts: seq<Part>)
    ensures Has(EventsOfParts(parts), IsError) <==> Has(parts, IsErrorPart)
  {
    if parts != [] {
      var before, p := parts[..|parts| - 1], parts[|parts| - 1];
      assert parts == before + [p];
      ErrorsOfParts(before);
      ErrorsOfPart(p);
      HasAppend(before, [p], IsErrorPart);
      HasAppend(EventsOfParts(before), EventsOf(p), IsError);
    }
  }

  /** `error` is only ever the last word of a stream if and only if no part is an error: one yields `error` in mid-stream. */
  lemma {:induction false} ErrorIsTerminalIff(r: StreamResult, runId: Text, codes: Codes)
    ensures var es := StreamEvents(r, runId, codes);
            es != [] && (Has(es[..|es| - 1], IsError) <==> Has(r.parts, IsErrorPart))
  {
    var body, end := EventsOfParts(r.parts), Ending(r, runId, codes);
    var es, rest := body + end, end[..|end| - 1];
    ErrorsOfParts(r.parts);
    assert es[..|es| - 1] == body + rest;
    HasAppend(body, rest, IsError);
  }

  /** One error part in a run that ends well: `error`, and then `done`. */
  lemma {:induction false} DoneMayFollowError(problem: Text, content: seq<seq<StepPart>>, runId: Text, codes: Codes)
    requires InterruptsOf(content) == []
    ensures StreamEvents(StreamResult([ErrorPart(problem)], None, Some(Steps(content, None, None)), [], None, None), runId, codes)
            == [Error(Some(problem), None, None), Done(runId, None, None)]
  {
    var parts := [ErrorPart(problem)];
    assert parts[..0] == [];
    assert EventsOfParts(parts) == [Error(Some(problem), None, None)];
  }

  // ----- reading the events back -----

  /** `text ?? delta ?? ''` of a text or reasoning part. */
  function OwnText(t: Option<Text>, d: Option<Text>): Text {
    match t
    case Some(text) => text
    case None => match d { case Some(delta) => delta case None => [] }
  }

  function OwnId(callId: Option<Text>, id: Text): Text {
    match callId
    case Some(c) => c
    case None => id
  }

  /** The part a reader takes an event for. */
  function PartOf(e: Event): seq<Part> {
    match e
    case TextDelta(t) => [TextDeltaPart(t, None)]
    case ReasoningStart(id) => [ReasoningStartPart(id)]
    case ReasoningDelta(id, t) => [ReasoningDeltaPart(id, t, None)]
    case ReasoningEnd(id) => [ReasoningEndPart(id)]
    case ToolInputStart(id, name) => [ToolInputStartPart(Some(id), [], name)]
    case ToolInputDelta(id, d) => [ToolInputDeltaPart(Some(id), [], d)]
    case ToolInputEnd(id) => [ToolInputEndPart(Some(id), [])]
    case ToolCall(id, name, input) => [ToolCallPart(id, name, input)]
    case ToolResult(id, name, output) => [ToolResultPart(id, name, output)]
    case ToolError(id, name, problem) => [ToolErrorPart(id, name, problem)]
    case Source(data) => [SourcePart(data)]
    case File(data) => [FilePart(data)]
    case StepStart => [StartStepPart]
    case StepFinish(data) => [FinishStepPart(data)]
    case Raw(kind) => [UnknownPart(kind)]
    case Error(problem, _, _) => [ErrorPart(OrEmpty(problem))]
    case Interrupts(_, _) => []
    case Done(_, _, _) => []
  }

  /** A part as it should come back: with its own text and id made explicit, or not at all if it has nothing to say. */
  function Said(p: Part): seq<Part> {
    match p
    case TextDeltaPart(t, d) => if OwnText(t, d) == [] then [] else [TextDeltaPart(Some(OwnText(t, d)), None)]
    case ReasoningDeltaPart(id, t, d) => if OwnText(t, d) == [] then [] else [ReasoningDeltaPart(id, Some(OwnText(t, d)), None)]
    case ToolResultPart(_, _, out) => if out.suspend || out.limit || out.blocked then [] else [p]
    case ToolInputStartPart(c, id, name) => [ToolInputStartPart(Some(OwnId(c, id)), [], name)]
    case ToolInputDeltaPart(c, id, d) => [ToolInputDeltaPart(Some(OwnId(c, id)), [], d)]
    case ToolInputEndPart(c, id) => [ToolInputEndPart(Some(OwnId(c, id)), [])]
    case SilentPart => []
    case _ => [p]
  }

  lemma {:induction false} PartComesBack(p: Part)
    ensures Gather(EventsOf(p), PartOf) == Said(p)
  {
    var es := EventsOf(p);
    assert |es| <= 1;
    if es == [] {
      GatherNothing(es, PartOf);
    } else {
      GatherAt(es, PartOf, 0);
    }
  }

  lemma {:induction false} PartsComeBack(parts: seq<Part>)
    ensures Gather(EventsOfParts(parts), PartOf) == Gather(parts, Said)
  {
    if parts != [] {
      var before, p := parts[..|parts| - 1], parts[|parts| - 1];
      PartsComeBack(before);
      PartComesBack(p);
      GatherAppend(EventsOfParts(before), EventsOf(p), PartOf);
    }
  }

  lemma {:induction false} EndingComesBack(r: StreamResult, runId: Text, codes: Codes)
    ensures Gather(Ending(r, runId, codes), PartOf) == if EndingError(r, codes).Some? then [ErrorPart(OrEmpty(EndingError(r, codes).value.error))] else []
  {
    if EndingError(r, codes).Some? {
      GatherAt(Ending(r, runId, codes), PartOf, 0);
    } else {
      GatherNothing(Ending(r, runId, codes), PartOf);
    }
  }

  /**
   * For every stream result: read back, the events are the parts of the model's stream, each once and in
   * order with all its data, less those that say nothing; and the error it ends in, if it does.
   */
  lemma {:induction false} StreamSaysEveryPart(r: StreamResult, runId: Text, codes: Codes)
    ensures Gather(StreamEvents(r, runId, codes), PartOf) ==
            Gather(r.parts, Said)
            + if EndingError(r, codes).Some? then [ErrorPart(OrEmpty(EndingError(r, codes).value.error))] else []
  {
    PartsComeBack(r.parts);
    EndingComesBack(r, runId, codes);
    GatherAppend(EventsOfParts(r.parts), Ending(r, runId, codes), PartOf);
  }

  /** A step surfaces what its suspended results carry, in order; other content adds nothing. */
  lemma {:induction false} StepSurfaces(before: seq<StepPart>, part: StepPart, rest: seq<StepPart>)
    ensures SurfacedByStep(before + [part] + rest) ==
            SurfacedByStep(before) + (match part case Suspended(xs) => xs case Plain => []) + SurfacedByStep(rest)
    decreases |rest|
  {
    var all := before + [part] + rest;
    if rest == [] {
      assert all == before + [part] && all[..|before|] == before && all[..|all|] == all;
      SurfacedSnoc(all, |before|);
      assert SurfacedByStep([]) == [];
    } else {
      var init, last := rest[..|rest| - 1], rest[|rest| - 1];
      assert all[..|all| - 1] == before + [part] + init && all[|all| - 1] == last;
      assert all[..|all|] == all && rest[..|rest|] == rest;
      StepSurfaces(before, part, init);
      SurfacedSnoc(all, |all| - 1);
      SurfacedSnoc(rest, |rest| - 1);
      Assoc(SurfacedByStep(before) + (match part case Suspended(xs) => xs case Plain => []), SurfacedByStep(init), SurfacedBy(last));
    }
  }

  /** The interrupts of all steps are those of each step, in order. */
  lemma {:induction false} StepsAddUp(before: seq<seq<StepPart>>, step: seq<StepPart>)
    ensures InterruptsOf(before + [step]) == InterruptsOf(before) + SurfacedByStep(step)
  {
    var all := before + [step];
    assert all[..|before|] == before && all[..|all|] == all;
    InterruptsSnoc(all, |before|);
  }

  /**
   * The last words: a failure as it was thrown; a breach or a block with its message, the code of the
   * surface, and its detail; otherwise the steps' interrupts if there are any, and the run's address.
   */
  lemma {:induction false} LastWords(r: StreamResult, runId: Text, codes: Codes)
    ensures var es := StreamEvents(r, runId, codes);
            var last := es[|es| - 1];
            match (r.failure, r.steps)
            case (Some(thrown), _) => last == Error(Some(thrown), None, None)
            case (None, None) => last == Error(Some(r.stepsError), None, None)
            case (None, Some(steps)) =>
              if steps.breach.Some? then
                last == Error(Some(steps.breach.value.message),
                              Some(if steps.breach.value.isLoop then codes.toolLoopDetected else codes.runLimitExceeded),
                              steps.breach.value.detail)
              else if steps.blocked.Some? then
                var b := steps.blocked.value;
                last == Error(Some(b.message), Some(if b.code in codes.blocked then codes.blocked[b.code] else RUN_BUSY), b.detail)
              else
                && last == Done(runId, r.finishReason, r.usage)
                && es == EventsOfParts(r.parts) + (if InterruptsOf(steps.content) == [] then [] else [Interrupts(InterruptsOf(steps.content), None)]) + [last]
  {
    var body, end := EventsOfParts(r.parts), Ending(r, runId, codes);
    assert (body + end)[|body + end| - 1] == end[|end| - 1];
    if EndingError(r, codes).None? {
      var pending := InterruptsOf(r.steps.value.content);
      Assoc(body, if pending == [] then [] else [Interrupts(pending, None)], [Done(runId, r.finishReason, r.usage)]);
    }
  }
}
