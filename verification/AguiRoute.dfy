/**
 * `pipeAguiStream` (packages/agui/src/route.ts): the second, hand-synchronised copy of the part
 * mapping, composed with the converter. Writing to the response is appending to `written`.
 */
module AguiRoute {
  import opened Common
  import opened AgentStream
  import opened AguiConvert

  /** The approval address travels with the interrupts: in each record and on the envelope. */
  function Stamp(e: Event, runId: Text): Event {
    if e.Interrupts? then
      Interrupts(seq(|e.interrupts|, i requires 0 <= i < |e.interrupts| => e.interrupts[i].(runId := Some(runId))), Some(runId))
    else e
  }

  function StampAll(es: seq<Event>, runId: Text): (r: seq<Event>)
    ensures |r| == |es|
  {
    seq(|es|, i requires 0 <= i < |es| => Stamp(es[i], runId))
  }

  /** What is left of a stream whose client goes away before part `abortAt`: the loop breaks, the rest still runs. */
  function Seen(r: StreamResult, abortAt: Option<nat>): StreamResult {
    if abortAt.Some? && abortAt.value < |r.parts| then r.(parts := r.parts[..abortAt.value], failure := None) else r
  }

  /** The reference: RUN_STARTED, then the converter folded over the events of agent-stream.ts. */
  function RunOutput(r: StreamResult, ctx: Context, codes: Codes): seq<AguiEvent> {
    [RunStarted(ctx.threadId, ctx.runId)]
    + ConvertAll(StampAll(StreamEvents(r, ctx.runId, codes), ctx.runId), ctx, AguiConvert.INITIAL).0
  }

  lemma {:induction false} StampLeavesParts(parts: seq<Part>, runId: Text)
    ensures StampAll(EventsOfParts(parts), runId) == EventsOfParts(parts)
  {
    PartsYieldBodyEvents(parts);
    forall i | 0 <= i < |EventsOfParts(parts)| ensures Stamp(EventsOfParts(parts)[i], runId) == EventsOfParts(parts)[i] {
      assert IsBodyEvent(EventsOfParts(parts)[i]);
    }
  }

  lemma {:induction false} StampAppend(a: seq<Event>, b: seq<Event>, runId: Text)
    ensures StampAll(a + b, runId) == StampAll(a, runId) + StampAll(b, runId)
  {}

  // ----- the program -----

  lemma {:induction false} ConvertAppend(a: seq<Event>, b: seq<Event>, ctx: Context, s: ConvertState)
    ensures var (out, s1) := ConvertAll(a, ctx, s);
            var (more, s2) := ConvertAll(b, ctx, s1);
            ConvertAll(a + b, ctx, s) == (out + more, s2)
    decreases |b|
  {
    var (out, s1) := ConvertAll(a, ctx, s);
    if b == [] {
      assert a + b == a && out + [] == out;
    } else {
      var b0, e := b[..|b| - 1], b[|b| - 1];
      assert a + b == (a + b0) + [e] && b == b0 + [e];
      ConvertAppend(a, b0, ctx, s);
      ConvertSnoc(a + b0, e, ctx, s);
      ConvertSnoc(b0, e, ctx, s1);
      Assoc(out, ConvertAll(b0, ctx, s1).0, ToAguiEvents(e, ctx, ConvertAll(b0, ctx, s1).1).0);
    }
  }

  /** `emit` for a list of events: convert with the current state, keep the new one, write what comes out. */
  method EmitAll(es: seq<Event>, ctx: Context, before: ConvertState, soFar: seq<AguiEvent>)
    returns (state: ConvertState, written: seq<AguiEvent>)
    ensures written == soFar + ConvertAll(es, ctx, before).0
    ensures state == ConvertAll(es, ctx, before).1
  {
    state, written := before, soFar;
    for n := 0 to |es|
      invariant written == soFar + ConvertAll(es[..n], ctx, before).0
      invariant state == ConvertAll(es[..n], ctx, before).1
    {
      assert es[..n + 1] == es[..n] + [es[n]];
      ConvertSnoc(es[..n], es[n], ctx, before);
      var (events, next) := ToAguiEvents(es[n], ctx, state);
      Assoc(soFar, ConvertAll(es[..n], ctx, before).0, events);
      state := next;
      written := written + events;
    }
    assert es[..|es|] == es;
  }

  /** The part switch of route.ts: the events it hands to `emit`. */
  method PartEvents(p: Part) returns (es: seq<Event>)
    ensures es == EventsOf(p)
  {
    es := [];
    match p {
      case TextDeltaPart(t, d) =>
        var text := FirstText(t, d);
        if text != [] { es := [TextDelta(Some(text))]; }
      case ToolCallPart(id, name, input) => es := [ToolCall(id, name, input)];
      case ToolResultPart(id, name, output) =>
        if output.suspend { return; }
        if output.limit { return; }
        if output.blocked { return; }
        es := [ToolResult(id, name, output)];
      case ReasoningStartPart(id) => es := [ReasoningStart(id)];
      case ReasoningDeltaPart(id, t, d) =>
        var text := FirstText(t, d);
        if text != [] { es := [ReasoningDelta(id, Some(text))]; }
      case ReasoningEndPart(id) => es := [ReasoningEnd(id)];
      case ToolInputStartPart(c, id, name) => es := [ToolInputStart(OrElse(c, id), name)];
      case ToolInputDeltaPart(c, id, d) => es := [ToolInputDelta(OrElse(c, id), d)];
      case ToolInputEndPart(c, id) => es := [ToolInputEnd(OrElse(c, id))];
      case SourcePart(data) => es := [Source(data)];
      case FilePart(data) => es := [File(data)];
      case StartStepPart => es := [StepStart];
      case FinishStepPart(data) => es := [StepFinish(data)];
      case ToolErrorPart(id, name, e) => es := [ToolError(id, name, e)];
      case ErrorPart(e) => es := [Error(Some(e), None, None)];
      case SilentPart =>
      case UnknownPart(kind) => es := [Raw(kind)];
    }
  }

  /** What route.ts emits after the part loop: the catch block, the two early returns, or a good end. */
  method EndingEvents(r: StreamResult, runId: Text, codes: Codes) returns (es: seq<Event>)
    ensures es == StampAll(Ending(r, runId, codes), runId)
  {
    if r.failure.Some? {
      return [Error(r.failure, None, None)];
    }
    if r.steps.None? {
      return [Error(Some(r.stepsError), None, None)];
    }
    var steps := r.steps.value;
    if steps.breach.Some? {
      var code := if steps.breach.value.isLoop then codes.toolLoopDetected else codes.runLimitExceeded;
      return [Error(Some(steps.breach.value.message), Some(code), steps.breach.value.detail)];
    }
    if steps.blocked.Some? {
      var b := steps.blocked.value;
      return [Error(Some(b.message), Some(BlockedCode(b.code, codes)), b.detail)];
    }
    var interrupts := InterruptsFromSteps(steps.content);
    es := [];
    if interrupts != [] {
      var stamped := seq(|interrupts|, i requires 0 <= i < |interrupts| => interrupts[i].(runId := Some(runId)));
      es := [Interrupts(stamped, Some(runId))];
    }
    es := es + [Done(runId, r.finishReason, r.usage)];
  }

  lemma {:induction false} StampedStream(r: StreamResult, runId: Text, codes: Codes)
    ensures EventsOfParts(r.parts) + StampAll(Ending(r, runId, codes), runId) == StampAll(StreamEvents(r, runId, codes), runId)
  {
    StampLeavesParts(r.parts, runId);
    StampAppend(EventsOfParts(r.parts), Ending(r, runId, codes), runId);
  }

  /** `state` and `written` are where the converter is after `emitted`. */
  ghost predicate IsEmitted(emitted: seq<Event>, ctx: Context, soFar: seq<AguiEvent>, state: ConvertState, written: seq<AguiEvent>) {
    ConvertAll(emitted, ctx, AguiConvert.INITIAL).1 == state
    && soFar + ConvertAll(emitted, ctx, AguiConvert.INITIAL).0 == written
  }

  method EmitMore(es: seq<Event>, ctx: Context, before: ConvertState, soFar: seq<AguiEvent>,
                  ghost emitted: seq<Event>, ghost start: seq<AguiEvent>)
    returns (state: ConvertState, written: seq<AguiEvent>)
    requires IsEmitted(emitted, ctx, start, before, soFar)
    ensures IsEmitted(emitted + es, ctx, start, state, written)
  {
    ConvertAppend(emitted, es, ctx, AguiConvert.INITIAL);
    Assoc(start, ConvertAll(emitted, ctx, AguiConvert.INITIAL).0, ConvertAll(es, ctx, before).0);
    state, written := EmitAll(es, ctx, before, soFar);
  }

  /** One turn of the part loop. */
  method EmitPart(p: Part, ctx: Context, before: ConvertState, soFar: seq<AguiEvent>,
                  ghost emitted: seq<Event>, ghost start: seq<AguiEvent>)
    returns (state: ConvertState, written: seq<AguiEvent>)
    requires IsEmitted(emitted, ctx, start, before, soFar)
    ensures IsEmitted(emitted + EventsOf(p), ctx, start, state, written)
  {
    var es := PartEvents(p);
    state, written := EmitMore(es, ctx, before, soFar, emitted, start);
  }

  /** The part loop over the parts the client was there for. */
  method EmitParts(parts: seq<Part>, ctx: Context, soFar: seq<AguiEvent>)
    returns (state: ConvertState, written: seq<AguiEvent>)
    ensures IsEmitted(EventsOfParts(parts), ctx, soFar, state, written)
  {
    state, written := AguiConvert.INITIAL, soFar;
    assert IsEmitted([], ctx, soFar, state, written);
    ghost var emitted: seq<Event> := [];
    for n := 0 to |parts|
      invariant emitted == EventsOfParts(parts[..n])
      invariant IsEmitted(emitted, ctx, soFar, state, written)
    {
      state, written := EmitPart(parts[n], ctx, state, written, emitted, soFar);
      EventsOfNextPart(parts, n);
      emitted := EventsOfParts(parts[..n + 1]);
    }
    assert parts[..|parts|] == parts;
  }

  /**
   * route.ts `pipeAguiStream`. The two copies of the mapping agree: what is written is the converter
   * folded over the one agent stream, with the run's address stamped on interrupts.
   */
  method PipeAguiStream(r: StreamResult, runId: Text, threadId: Option<Text>, codes: Codes, abortAt: Option<nat>)
    returns (written: seq<AguiEvent>)
    ensures written == RunOutput(Seen(r, abortAt), Context(OrElse(threadId, runId), runId), codes)
  {
    var ctx := Context(OrElse(threadId, runId), runId);
    var started := [RunStarted(ctx.threadId, ctx.runId)];
    var seen := Seen(r, abortAt);
    var state;
    state, written := EmitParts(seen.parts, ctx, started);
    var es := EndingEvents(seen, runId, codes);
    StampedStream(seen, runId, codes);
    state, written := EmitMore(es, ctx, state, written, EventsOfParts(seen.parts), started);
  }

  // ----- a whole run, as an AG-UI client sees it -----

  lemma {:induction false} LastConverted(es: seq<Event>, ctx: Context)
    requires es != []
    ensures var out := ConvertAll(es, ctx, AguiConvert.INITIAL).0;
            var e := es[|es| - 1];
            && (e.Done? ==> out != [] && out[|out| - 1].RunFinished?)
            && (e.Error? ==> out != [] && out[|out| - 1].RunError?)
  {}

  lemma {:induction false} FinishedMeansDone(es: seq<Event>, ctx: Context, i: nat)
    requires i < |ConvertAll(es, ctx, AguiConvert.INITIAL).0|
    requires ConvertAll(es, ctx, AguiConvert.INITIAL).0[i].RunFinished?
    ensures exists k :: 0 <= k < |es| && es[k].Done?
  {
    var before, e := es[..|es| - 1], es[|es| - 1];
    var (out, s) := ConvertAll(before, ctx, AguiConvert.INITIAL);
    if i < |out| {
      FinishedMeansDone(before, ctx, i);
      var k :| 0 <= k < |before| && before[k].Done?;
      assert es[k].Done?;
    } else {
      assert ToAguiEvents(e, ctx, s).0[i - |out|].RunFinished?;
      assert es[|es| - 1].Done?;
    }
  }

  /**
   * Every run, of any stream result: RUN_STARTED first, text well framed throughout, nothing left
   * open, and RUN_FINISHED or RUN_ERROR last; RUN_FINISHED exactly when nothing threw and the steps
   * hold neither a breach nor a block.
   */
  lemma {:induction false} RunIsWellFormed(r: StreamResult, ctx: Context, codes: Codes)
    ensures var out := RunOutput(r, ctx, codes);
            && |out| >= 2 && out[0] == RunStarted(ctx.threadId, ctx.runId)
            && (var reader := Read(Reading(None, 0), out[1..], ctx.runId); reader.Reading? && reader.open.None?)
            && (out[|out| - 1].RunFinished? || out[|out| - 1].RunError?)
            && (out[|out| - 1].RunFinished? <==>
                r.failure.None? && r.steps.Some? && r.steps.value.breach.None? && r.steps.value.blocked.None?)
  {
    var plain := StreamEvents(r, ctx.runId, codes);
    var es := StampAll(plain, ctx.runId);
    StreamIsWellEnded(r, ctx.runId, codes);
    assert es[|es| - 1] == plain[|plain| - 1];
    TextIsWellFramed(es, ctx);
    LastConverted(es, ctx);
    assert RunOutput(r, ctx, codes)[1..] == ConvertAll(es, ctx, AguiConvert.INITIAL).0;
  }

  /** A run without a proper end never claims one: RUN_FINISHED appears nowhere in it. */
  lemma {:induction false} NoFinishAfterBreachOrBlock(r: StreamResult, ctx: Context, codes: Codes, i: nat)
    requires r.failure.Some? || r.steps.None? || r.steps.value.breach.Some? || r.steps.value.blocked.Some?
    requires i < |RunOutput(r, ctx, codes)|
    ensures !RunOutput(r, ctx, codes)[i].RunFinished?
  {
    var out := RunOutput(r, ctx, codes);
    var plain := StreamEvents(r, ctx.runId, codes);
    var es := StampAll(plain, ctx.runId);
    if out[i].RunFinished? {
      FinishedMeansDone(es, ctx, i - 1);
      var k :| 0 <= k < |es| && es[k].Done?;
      assert plain[k].Done?;
      StreamIsWellEnded(r, ctx.runId, codes);
    }
  }

  predicate IsRunError(e: AguiEvent) {
    e.RunError?
  }

  lemma {:induction false} BoundaryErrors(e: Event, ctx: Context, s: ConvertState)
    requires IsBoundary(e)
    ensures var es := BoundaryEvents(e, ctx, s);
            if e.Error? then |es| == 1 && IsRunError(es[0]) else forall i :: 0 <= i < |es| ==> !IsRunError(es[i])
  {}

  lemma {:induction false} ErrorConverts(e: Event, ctx: Context, s: ConvertState)
    ensures var out := ToAguiEvents(e, ctx, s).0;
            && (Has(out, IsRunError) <==> e.Error?)
            && (out != [] ==> !Has(out[..|out| - 1], IsRunError))
  {
    if IsBoundary(e) {
      var closing, es := CloseText(s).0, BoundaryEvents(e, ctx, s);
      BoundaryErrors(e, ctx, s);
      HasAppend(closing, es, IsRunError);
      if es != [] {
        assert (closing + es)[..|closing + es| - 1] == closing + es[..|es| - 1];
        HasAppend(closing, es[..|es| - 1], IsRunError);
      }
    }
  }

  lemma {:induction false} ErrorsConvert(es: seq<Event>, ctx: Context)
    ensures Has(ConvertAll(es, ctx, AguiConvert.INITIAL).0, IsRunError) <==> Has(es, IsError)
  {
    if es != [] {
      var before, e := es[..|es| - 1], es[|es| - 1];
      var (out, s) := ConvertAll(before, ctx, AguiConvert.INITIAL);
      assert es == before + [e];
      ErrorsConvert(before, ctx);
      ErrorConverts(e, ctx, s);
      assert Has([e], IsError) <==> e.Error? by { assert IsError([e][0]) <==> e.Error?; }
      HasAppend(before, [e], IsError);
      HasAppend(out, ToAguiEvents(e, ctx, s).0, IsRunError);
    }
  }

  lemma {:induction false} StampKeepsErrors(es: seq<Event>, runId: Text)
    ensures Has(StampAll(es, runId), IsError) <==> Has(es, IsError)
  {
    var stamped := StampAll(es, runId);
    if i :| 0 <= i < |es| && IsError(es[i]) {
      assert IsError(stamped[i]);
    }
    if i :| 0 <= i < |stamped| && IsError(stamped[i]) {
      assert IsError(es[i]);
    }
  }

  lemma {:induction false} LastSaysSomething(e: Event, ctx: Context, s: ConvertState)
    requires e.Done? || e.Error?
    ensures ToAguiEvents(e, ctx, s).0 != []
  {}

  /** In the output of events that end well or badly, RUN_ERROR before the end comes from an error before the end. */
  lemma {:induction false} EarlyErrorsConvert(es: seq<Event>, ctx: Context)
    requires es != [] && (es[|es| - 1].Done? || es[|es| - 1].Error?)
    ensures var out := ConvertAll(es, ctx, AguiConvert.INITIAL).0;
            out != [] && (Has(out[..|out| - 1], IsRunError) <==> Has(es[..|es| - 1], IsError))
  {
    var before, e := es[..|es| - 1], es[|es| - 1];
    var (body, s) := ConvertAll(before, ctx, AguiConvert.INITIAL);
    var more := ToAguiEvents(e, ctx, s).0;
    var out := body + more;
    LastSaysSomething(e, ctx, s);
    ErrorConverts(e, ctx, s);
    ErrorsConvert(before, ctx);
    assert out[..|out| - 1] == body + more[..|more| - 1];
    HasAppend(body, more[..|more| - 1], IsRunError);
  }

  lemma {:induction false} StampedEarlyErrors(plain: seq<Event>, runId: Text)
    requires plain != []
    ensures var es := StampAll(plain, runId);
            && (es[|es| - 1].Done? <==> plain[|plain| - 1].Done?) && (es[|es| - 1].Error? <==> plain[|plain| - 1].Error?)
            && (Has(es[..|es| - 1], IsError) <==> Has(plain[..|plain| - 1], IsError))
  {
    var before := plain[..|plain| - 1];
    assert StampAll(plain, runId)[..|before|] == StampAll(before, runId);
    StampKeepsErrors(before, runId);
  }

  lemma {:induction false} StartIsNoError(started: AguiEvent, out: seq<AguiEvent>)
    requires out != [] && !IsRunError(started)
    ensures Has(([started] + out)[..|out|], IsRunError) <==> Has(out[..|out| - 1], IsRunError)
  {
    assert ([started] + out)[..|out|] == [started] + out[..|out| - 1];
    HasAppend([started], out[..|out| - 1], IsRunError);
  }

  lemma {:induction false} EarlyErrorsOfRun(plain: seq<Event>, ctx: Context)
    requires plain != [] && (plain[|plain| - 1].Done? || plain[|plain| - 1].Error?)
    ensures var out := [RunStarted(ctx.threadId, ctx.runId)] + ConvertAll(StampAll(plain, ctx.runId), ctx, AguiConvert.INITIAL).0;
            Has(out[..|out| - 1], IsRunError) <==> Has(plain[..|plain| - 1], IsError)
  {
    var es := StampAll(plain, ctx.runId);
    StampedEarlyErrors(plain, ctx.runId);
    EarlyErrorsConvert(es, ctx);
    StartIsNoError(RunStarted(ctx.threadId, ctx.runId), ConvertAll(es, ctx, AguiConvert.INITIAL).0);
  }

  /** RUN_ERROR is only ever the last word of a run if and only if no part of the stream is an error. */
  lemma {:induction false} RunErrorIsTerminalIff(r: StreamResult, ctx: Context, codes: Codes)
    ensures var out := RunOutput(r, ctx, codes);
            out != [] && (Has(out[..|out| - 1], IsRunError) <==> Has(r.parts, IsErrorPart))
  {
    var plain := StreamEvents(r, ctx.runId, codes);
    assert plain != [] && (plain[|plain| - 1].Done? || plain[|plain| - 1].Error?) by { StreamIsWellEnded(r, ctx.runId, codes); }
    assert Has(plain[..|plain| - 1], IsError) <==> Has(r.parts, IsErrorPart) by { ErrorIsTerminalIff(r, ctx.runId, codes); }
    EarlyErrorsOfRun(plain, ctx);
  }

  /** What closes a run for the client: the error as it was said, or the finish with the run's address. */
  function Verdict(e: Event, ctx: Context): AguiEvent
    requires e.Error? || e.Done?
  {
    match e
    case Error(problem, code, detail) =>
      RunError(match problem { case Some(m) => m case None => UNKNOWN_ERROR },
               if code.Some? && code.value == [] then None else code, detail)
    case Done(_, reason, usage) => RunFinished(ctx.threadId, ctx.runId, reason, usage)
  }

  lemma {:induction false} EndsInVerdict(es: seq<Event>, ctx: Context)
    requires es != [] && (es[|es| - 1].Error? || es[|es| - 1].Done?)
    ensures var out := ConvertAll(es, ctx, AguiConvert.INITIAL).0;
            out != [] && out[|out| - 1] == Verdict(es[|es| - 1], ctx)
  {
    OneVerdict(es[|es| - 1], ctx, ConvertAll(es[..|es| - 1], ctx, AguiConvert.INITIAL).1);
  }

  lemma {:induction false} OneVerdict(e: Event, ctx: Context, s: ConvertState)
    requires e.Error? || e.Done?
    ensures var out := ToAguiEvents(e, ctx, s).0;
            out != [] && out[|out| - 1] == Verdict(e, ctx)
  {
    assert BoundaryEvents(e, ctx, s) == [Verdict(e, ctx)];
  }

  /** The client's last event says what the stream's last event says, and the interrupts before it carry the run's address. */
  lemma {:induction false} RunEndsAsTheStream(r: StreamResult, ctx: Context, codes: Codes)
    ensures var es, out := StreamEvents(r, ctx.runId, codes), RunOutput(r, ctx, codes);
            var last := es[|es| - 1];
            && (last.Error? || last.Done?)
            && out[|out| - 1] == Verdict(last, ctx)
  {
    var plain := StreamEvents(r, ctx.runId, codes);
    assert plain != [] && (plain[|plain| - 1].Done? || plain[|plain| - 1].Error?) by { StreamIsWellEnded(r, ctx.runId, codes); }
    StampedEndsInVerdict(plain, ctx);
  }

  lemma {:induction false} StampedEndsInVerdict(plain: seq<Event>, ctx: Context)
    requires plain != [] && (plain[|plain| - 1].Error? || plain[|plain| - 1].Done?)
    ensures var out := [RunStarted(ctx.threadId, ctx.runId)] + ConvertAll(StampAll(plain, ctx.runId), ctx, AguiConvert.INITIAL).0;
            out[|out| - 1] == Verdict(plain[|plain| - 1], ctx)
  {
    EndsInVerdict(StampAll(plain, ctx.runId), ctx);
  }

  /** The interrupts a client gets: each with the run's address, and the envelope with it. */
  function AddressedIn(e: AguiEvent): seq<Event> {
    if e.Custom? && e.source.Interrupts? then [e.source] else []
  }

  function AskedIn(runId: Text): Event -> seq<Event> {
    (e: Event) => match e
      case Interrupts(xs, _) => [Interrupts(seq(|xs|, i requires 0 <= i < |xs| => Interrupt(xs[i].record, Some(runId))), Some(runId))]
      case _ => []
  }

  lemma {:induction false} OneInterruptArrives(e: Event, ctx: Context, s: ConvertState)
    ensures Gather(ToAguiEvents(Stamp(e, ctx.runId), ctx, s).0, AddressedIn) == AskedIn(ctx.runId)(e)
  {
    var stamped := Stamp(e, ctx.runId);
    var out := ToAguiEvents(stamped, ctx, s).0;
    if e.Interrupts? {
      var xs := e.interrupts;
      assert seq(|xs|, i requires 0 <= i < |xs| => Interrupt(xs[i].record, Some(ctx.runId))) == stamped.interrupts;
      assert BoundaryEvents(stamped, ctx, s) == [Custom(stamped)];
      assert out == CloseText(s).0 + [Custom(stamped)];
      GatherAt(out, AddressedIn, |out| - 1);
    } else {
      OtherwiseNoInterrupt(e, ctx, s);
      GatherNothing(out, AddressedIn);
    }
  }

  lemma {:induction false} OtherwiseNoInterrupt(e: Event, ctx: Context, s: ConvertState)
    requires !e.Interrupts?
    ensures var out := ToAguiEvents(e, ctx, s).0;
            forall i :: 0 <= i < |out| ==> AddressedIn(out[i]) == []
  {
    if IsBoundary(e) {
      var es := BoundaryEvents(e, ctx, s);
      assert forall i :: 0 <= i < |es| ==> AddressedIn(es[i]) == [];
    }
  }

  /** Every interrupt of a run reaches the client once, in order, with the run's address in each record and on the envelope. */
  lemma {:induction false} InterruptsCarryTheAddress(es: seq<Event>, ctx: Context)
    ensures Gather(ConvertAll(StampAll(es, ctx.runId), ctx, AguiConvert.INITIAL).0, AddressedIn) == Gather(es, AskedIn(ctx.runId))
  {
    if es != [] {
      var before, e := es[..|es| - 1], es[|es| - 1];
      var stamped := StampAll(es, ctx.runId);
      assert stamped[..|before|] == StampAll(before, ctx.runId) && stamped[|before|] == Stamp(e, ctx.runId);
      var (out, s) := ConvertAll(stamped[..|before|], ctx, AguiConvert.INITIAL);
      InterruptsCarryTheAddress(before, ctx);
      OneInterruptArrives(e, ctx, s);
      GatherAppend(out, ToAguiEvents(stamped[|before|], ctx, s).0, AddressedIn);
    }
  }
}
