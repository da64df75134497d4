/**
 * The client's chat state (packages/client/src/accumulator.ts), folded over the same events the
 * AG-UI converter reads, and the agreement of the two.
 */
module ChatReducer {
  import opened Common
  import opened AgentStream
  import AguiConvert
  import AguiRoute

  datatype Role = User | Assistant

  datatype Message = Message(role: Role, content: Text, reasoning: Option<Text>)

  datatype ToolFailure = ToolFailure(toolCallId: Text, toolName: Text, error: Text)

  datatype ChatState = ChatState(
    messages: seq<Message>, interrupts: seq<Interrupt>, runId: Option<Text>,
    replayedToolCalls: Option<seq<Json>>, toolErrors: Option<seq<ToolFailure>>)

  /** accumulator.ts `startTurn`. */
  function StartTurn(s: ChatState): ChatState {
    s.(interrupts := [], replayedToolCalls := None, toolErrors := None)
  }

  /** accumulator.ts `appendUserMessage`. */
  function AppendUserMessage(s: ChatState, text: Text): ChatState {
    StartTurn(s).(messages := s.messages + [Message(User, text, None)])
  }

  predicate EndsWithAssistant(ms: seq<Message>) {
    ms != [] && ms[|ms| - 1].role.Assistant?
  }

  /** accumulator.ts `applyStreamEvent`. */
  function ApplyStreamEvent(s: ChatState, e: Event): ChatState {
    match e
    case TextDelta(t) =>
      var text := OrEmpty(t);
      if text == [] then s
      else if EndsWithAssistant(s.messages) then
        var last := s.messages[|s.messages| - 1];
        s.(messages := s.messages[|s.messages| - 1 := last.(content := last.content + text)])
      else s.(messages := s.messages + [Message(Assistant, text, None)])
    case ReasoningDelta(_, t) =>
      var text := OrEmpty(t);
      if text == [] then s
      else if EndsWithAssistant(s.messages) then
        var last := s.messages[|s.messages| - 1];
        s.(messages := s.messages[|s.messages| - 1 := last.(reasoning := Some(OrEmpty(last.reasoning) + text))])
      else s.(messages := s.messages + [Message(Assistant, [], Some(text))])
    case ToolError(id, name, problem) =>
      s.(toolErrors := Some((if s.toolErrors.Some? then s.toolErrors.value else []) + [ToolFailure(id, name, problem)]))
    case Interrupts(pending, _) => s.(interrupts := pending)
    case Done(runId, _, _) => s.(runId := Some(runId), replayedToolCalls := None)
    case _ => s
  }

  function ApplyAll(s: ChatState, es: seq<Event>): ChatState {
    if es == [] then s else ApplyStreamEvent(ApplyAll(s, es[..|es| - 1]), es[|es| - 1])
  }

  // ----- what a turn adds -----

  function TextIn(e: Event): Text {
    if e.TextDelta? then OrEmpty(e.text) else []
  }

  function ReasoningIn(e: Event): Text {
    if e.ReasoningDelta? then OrEmpty(e.text) else []
  }

  function FailuresIn(e: Event): seq<ToolFailure> {
    if e.ToolError? then [ToolFailure(e.toolCallId, e.toolName, e.problem)] else []
  }

  function TextOf(es: seq<Event>): Text {
    Gather(es, TextIn)
  }

  function ReasoningOf(es: seq<Event>): Text {
    Gather(es, ReasoningIn)
  }

  function FailuresOf(es: seq<Event>): seq<ToolFailure> {
    Gather(es, FailuresIn)
  }

  function Answer(text: Text, reasoning: Text): seq<Message> {
    if text == [] && reasoning == [] then []
    else [Message(Assistant, text, if reasoning == [] then None else Some(reasoning))]
  }

  /** The one message a turn's events amount to; none if they say nothing. */
  function AnswerOf(es: seq<Event>): seq<Message> {
    Answer(TextOf(es), ReasoningOf(es))
  }

  lemma {:induction false} ReplaceLast<T>(xs: seq<T>, x: T, y: T)
    ensures (xs + [x])[|xs| := y] == xs + [y]
  {}

  lemma {:induction false} FirstWords(s: ChatState, e: Event)
    requires !EndsWithAssistant(s.messages)
    ensures ApplyStreamEvent(s, e).messages == s.messages + Answer(TextIn(e), ReasoningIn(e))
  {
    assert s.messages + [] == s.messages;
  }

  /** `m` with more text and more reasoning at its end. */
  function WithMore(m: Message, text: Text, reasoning: Text): Message {
    m.(content := m.content + text,
       reasoning := if reasoning == [] then m.reasoning else Some(OrEmpty(m.reasoning) + reasoning))
  }

  lemma {:induction false} MoreWords(ms: seq<Message>, s: ChatState, last: Message, e: Event)
    requires last.role.Assistant? && s.messages == ms + [last]
    ensures ApplyStreamEvent(s, e).messages == ms + [WithMore(last, TextIn(e), ReasoningIn(e))]
  {
    assert s.messages[|s.messages| - 1] == last && |s.messages| - 1 == |ms|;
    assert last.content + [] == last.content;
    ReplaceLast(ms, last, last.(content := last.content + TextIn(e)));
    ReplaceLast(ms, last, last.(reasoning := Some(OrEmpty(last.reasoning) + ReasoningIn(e))));
  }

  lemma {:induction false} AnswerGrows(ms: seq<Message>, s: ChatState, text: Text, reasoning: Text, e: Event)
    requires !EndsWithAssistant(ms) && s.messages == ms + Answer(text, reasoning)
    ensures ApplyStreamEvent(s, e).messages == ms + Answer(text + TextIn(e), reasoning + ReasoningIn(e))
  {
    if Answer(text, reasoning) == [] {
      assert s.messages == ms;
      assert text + TextIn(e) == TextIn(e) && reasoning + ReasoningIn(e) == ReasoningIn(e);
      FirstWords(s, e);
    } else {
      assert reasoning + [] == reasoning;
      MoreWords(ms, s, Answer(text, reasoning)[0], e);
    }
  }

  /** From a state whose last message is not the assistant's: at most one message is added. */
  lemma {:induction false} AnswerIsAdded(s: ChatState, es: seq<Event>)
    requires !EndsWithAssistant(s.messages)
    ensures ApplyAll(s, es).messages == s.messages + AnswerOf(es)
  {
    if es == [] {
      assert s.messages + [] == s.messages;
    } else {
      var before := es[..|es| - 1];
      AnswerIsAdded(s, before);
      AnswerGrows(s.messages, ApplyAll(s, before), TextOf(before), ReasoningOf(before), es[|es| - 1]);
    }
  }

  lemma {:induction false} MoreTwice(m: Message, text: Text, reasoning: Text, text': Text, reasoning': Text)
    ensures WithMore(WithMore(m, text, reasoning), text', reasoning') == WithMore(m, text + text', reasoning + reasoning')
  {
    Assoc(m.content, text, text');
    Assoc(OrEmpty(m.reasoning), reasoning, reasoning');
    assert [] + reasoning' == reasoning' && reasoning + [] == reasoning;
  }

  /**
   * From a state that ends with the assistant's message, as a turn of `{messages}` finds it, the answer
   * is glued onto that message.
   */
  lemma {:induction false} AnswerIsGluedOn(ms: seq<Message>, s: ChatState, last: Message, es: seq<Event>)
    requires last.role.Assistant? && s.messages == ms + [last]
    ensures ApplyAll(s, es).messages == ms + [WithMore(last, TextOf(es), ReasoningOf(es))]
  {
    if es == [] {
      assert last.content + [] == last.content;
    } else {
      var before, e := es[..|es| - 1], es[|es| - 1];
      AnswerIsGluedOn(ms, s, last, before);
      MoreWords(ms, ApplyAll(s, before), WithMore(last, TextOf(before), ReasoningOf(before)), e);
      MoreTwice(last, TextOf(before), ReasoningOf(before), TextIn(e), ReasoningIn(e));
    }
  }

  /**
   * Over any state and any events: earlier messages stay as they are and one message, the concatenated
   * text and reasoning, is added for them, if and only if the last message is not the assistant's or the
   * events say nothing.
   */
  lemma {:induction false} TurnAddsOneAnswer(s: ChatState, es: seq<Event>)
    ensures ApplyAll(s, es).messages == s.messages + AnswerOf(es) <==> !EndsWithAssistant(s.messages) || AnswerOf(es) == []
  {
    if EndsWithAssistant(s.messages) {
      var ms, last := s.messages[..|s.messages| - 1], s.messages[|s.messages| - 1];
      assert s.messages == ms + [last];
      AnswerIsGluedOn(ms, s, last, es);
      assert last.content + [] == last.content;
      assert s.messages + [] == s.messages;
    } else {
      AnswerIsAdded(s, es);
    }
  }

  lemma {:induction false} OneMoreFailure(s: ChatState, e: Event)
    ensures ApplyStreamEvent(s, e).toolErrors ==
            if e.ToolError? then Some((if s.toolErrors.Some? then s.toolErrors.value else []) + FailuresIn(e)) else s.toolErrors
  {}

  /** Per-turn failures: exactly those of this turn's events, in order, whatever earlier turns left behind. */
  lemma {:induction false} TurnShowsItsOwnFailures(s: ChatState, es: seq<Event>)
    ensures ApplyAll(StartTurn(s), es).toolErrors == if FailuresOf(es) == [] then None else Some(FailuresOf(es))
  {
    if es != [] {
      var before, e := es[..|es| - 1], es[|es| - 1];
      TurnShowsItsOwnFailures(s, before);
      OneMoreFailure(ApplyAll(StartTurn(s), before), e);
      assert FailuresOf(es) == FailuresOf(before) + FailuresIn(e);
      if !e.ToolError? {
        assert FailuresOf(before) + [] == FailuresOf(before);
      }
    }
  }

  // ----- the two clients read the same text -----

  function ContentIn(e: AguiConvert.AguiEvent): Text {
    if e.TextContent? then e.delta else []
  }

  /** All the text an AG-UI client receives. */
  function ContentOf(out: seq<AguiConvert.AguiEvent>): Text {
    Gather(out, ContentIn)
  }

  lemma {:induction false} ContentOfEvent(e: Event, ctx: AguiConvert.Context, s: AguiConvert.ConvertState)
    ensures ContentOf(AguiConvert.ToAguiEvents(e, ctx, s).0) == TextIn(e)
  {
    var out := AguiConvert.ToAguiEvents(e, ctx, s).0;
    if e.TextDelta? {
      GatherAt(out, ContentIn, |out| - 1);
    } else {
      GatherNothing(out, ContentIn);
    }
  }

  lemma {:induction false} ContentIsText(es: seq<Event>, ctx: AguiConvert.Context)
    ensures ContentOf(AguiConvert.ConvertAll(es, ctx, AguiConvert.INITIAL).0) == TextOf(es)
  {
    if es != [] {
      var before := es[..|es| - 1];
      var (out, s) := AguiConvert.ConvertAll(before, ctx, AguiConvert.INITIAL);
      ContentIsText(before, ctx);
      GatherAppend(out, AguiConvert.ToAguiEvents(es[|es| - 1], ctx, s).0, ContentIn);
      ContentOfEvent(es[|es| - 1], ctx, s);
    }
  }

  lemma {:induction false} StampKeepsText(es: seq<Event>, runId: Text)
    ensures TextOf(AguiRoute.StampAll(es, runId)) == TextOf(es)
  {
    if es != [] {
      StampKeepsText(es[..|es| - 1], runId);
      var stamped := AguiRoute.StampAll(es, runId);
      assert stamped[..|es| - 1] == AguiRoute.StampAll(es[..|es| - 1], runId);
    }
  }

  /** The text a part of the model's stream brings, and the reasoning. */
  function PartText(p: Part): Text {
    match p
    case TextDeltaPart(t, d) => OwnText(t, d)
    case _ => []
  }

  function PartReasoning(p: Part): Text {
    match p
    case ReasoningDeltaPart(_, t, d) => OwnText(t, d)
    case _ => []
  }

  lemma {:induction false} OnePartSpeaks(p: Part)
    ensures Gather(EventsOf(p), TextIn) == PartText(p) && Gather(EventsOf(p), ReasoningIn) == PartReasoning(p)
  {
    var es := EventsOf(p);
    assert |es| <= 1;
    if es == [] {
      GatherNothing(es, TextIn);
      GatherNothing(es, ReasoningIn);
    } else {
      GatherAt(es, TextIn, 0);
      GatherAt(es, ReasoningIn, 0);
    }
  }

  lemma {:induction false} PartsSpeak(parts: seq<Part>)
    ensures TextOf(EventsOfParts(parts)) == Gather(parts, PartText)
    ensures ReasoningOf(EventsOfParts(parts)) == Gather(parts, PartReasoning)
  {
    if parts != [] {
      var before, p := parts[..|parts| - 1], parts[|parts| - 1];
      PartsSpeak(before);
      OnePartSpeaks(p);
      GatherAppend(EventsOfParts(before), EventsOf(p), TextIn);
      GatherAppend(EventsOfParts(before), EventsOf(p), ReasoningIn);
    }
  }

  /** The stream's text and reasoning are those of the model's parts, whole and in order. */
  lemma {:induction false} StreamSpeaksForItsParts(r: StreamResult, runId: Text, codes: Codes)
    ensures TextOf(StreamEvents(r, runId, codes)) == Gather(r.parts, PartText)
    ensures ReasoningOf(StreamEvents(r, runId, codes)) == Gather(r.parts, PartReasoning)
  {
    EndingIsSilent(r, runId, codes);
    SilentTail(EventsOfParts(r.parts), Ending(r, runId, codes));
    PartsSpeak(r.parts);
  }

  lemma {:induction false} EndingIsSilent(r: StreamResult, runId: Text, codes: Codes)
    ensures var end := Ending(r, runId, codes);
            forall i :: 0 <= i < |end| ==> !end[i].TextDelta? && !end[i].ReasoningDelta?
  {}

  lemma {:induction false} SilentTail(body: seq<Event>, end: seq<Event>)
    requires forall i :: 0 <= i < |end| ==> !end[i].TextDelta? && !end[i].ReasoningDelta?
    ensures TextOf(body + end) == TextOf(body) && ReasoningOf(body + end) == ReasoningOf(body)
  {
    GatherAppend(body, end, TextIn);
    GatherAppend(body, end, ReasoningIn);
    GatherNothing(end, TextIn);
    GatherNothing(end, ReasoningIn);
    assert TextOf(body) + [] == TextOf(body) && ReasoningOf(body) + [] == ReasoningOf(body);
  }

  /**
   * End to end, from the model's parts: for any stream result the GNL client shows after the prompt one
   * answer with their concatenated text and reasoning, and the AG-UI client receives the same text.
   */
  lemma {:induction false} BothClientsShowTheSameText(s: ChatState, prompt: Text, r: StreamResult, ctx: AguiConvert.Context, codes: Codes)
    ensures ApplyAll(AppendUserMessage(s, prompt), StreamEvents(r, ctx.runId, codes)).messages ==
            s.messages + [Message(User, prompt, None)] + Answer(Gather(r.parts, PartText), Gather(r.parts, PartReasoning))
    ensures ContentOf(AguiRoute.RunOutput(r, ctx, codes)) == Gather(r.parts, PartText)
  {
    StreamSpeaksForItsParts(r, ctx.runId, codes);
    AnswerIsAdded(AppendUserMessage(s, prompt), StreamEvents(r, ctx.runId, codes));
    RunContentIsText(StreamEvents(r, ctx.runId, codes), ctx);
  }

  lemma {:induction false} RunContentIsText(es: seq<Event>, ctx: AguiConvert.Context)
    ensures var stamped := AguiRoute.StampAll(es, ctx.runId);
            ContentOf([AguiConvert.RunStarted(ctx.threadId, ctx.runId)]
                      + AguiConvert.ConvertAll(stamped, ctx, AguiConvert.INITIAL).0) == TextOf(es)
  {
    var stamped := AguiRoute.StampAll(es, ctx.runId);
    var started := [AguiConvert.RunStarted(ctx.threadId, ctx.runId)];
    GatherAppend(started, AguiConvert.ConvertAll(stamped, ctx, AguiConvert.INITIAL).0, ContentIn);
    GatherNothing(started, ContentIn);
    ContentIsText(stamped, ctx);
    StampKeepsText(es, ctx.runId);
    assert [] + TextOf(es) == TextOf(es);
  }

  lemma {:induction false} BodyKeepsTheTurn(s: ChatState, parts: seq<Part>)
    ensures var t := ApplyAll(s, EventsOfParts(parts));
            t.interrupts == s.interrupts && t.runId == s.runId && t.replayedToolCalls == s.replayedToolCalls
  {
    PartsYieldBodyEvents(parts);
    QuietEvents(s, EventsOfParts(parts));
  }

  lemma {:induction false} QuietEvents(s: ChatState, es: seq<Event>)
    requires forall i :: 0 <= i < |es| ==> IsBodyEvent(es[i])
    ensures var t := ApplyAll(s, es);
            t.interrupts == s.interrupts && t.runId == s.runId && t.replayedToolCalls == s.replayedToolCalls
  {
    if es != [] {
      QuietEvents(s, es[..|es| - 1]);
      assert IsBodyEvent(es[|es| - 1]);
    }
  }

  lemma {:induction false} ApplyAppend(s: ChatState, a: seq<Event>, b: seq<Event>)
    ensures ApplyAll(s, a + b) == ApplyAll(ApplyAll(s, a), b)
    decreases |b|
  {
    if b == [] {
      assert a + b == a;
    } else {
      assert (a + b)[..|a + b| - 1] == a + b[..|b| - 1];
      ApplyAppend(s, a, b[..|b| - 1]);
    }
  }

  lemma {:induction false} ApplyOne(s: ChatState, e: Event)
    ensures ApplyAll(s, [e]) == ApplyStreamEvent(s, e)
  {
    assert [e][..0] == [];
  }

  lemma {:induction false} AskedAndDone(s: ChatState, asked: Event, done: Event)
    requires asked.Interrupts? && done.Done?
    ensures var t := ApplyAll(s, [asked] + [done]);
            t.interrupts == asked.interrupts && t.runId == Some(done.runId)
  {
    ApplyAppend(s, [asked], [done]);
    ApplyOne(s, asked);
    ApplyOne(ApplyStreamEvent(s, asked), done);
  }

  lemma {:induction false} EndingSettlesTheTurn(s: ChatState, r: StreamResult, runId: Text, codes: Codes)
    ensures var t := ApplyAll(s, Ending(r, runId, codes));
            if EndingError(r, codes).Some? then t.interrupts == s.interrupts && t.runId == s.runId
            else var pending := InterruptsOf(r.steps.value.content);
                 t.interrupts == (if pending == [] then s.interrupts else pending) && t.runId == Some(runId)
  {
    var e := EndingError(r, codes);
    if e.Some? {
      ApplyOne(s, e.value);
    } else {
      var pending, done := InterruptsOf(r.steps.value.content), Done(runId, r.finishReason, r.usage);
      if pending == [] {
        assert Ending(r, runId, codes) == [done];
        ApplyOne(s, done);
      } else {
        AskedAndDone(s, Interrupts(pending, None), done);
      }
    }
  }

  /**
   * What is left pending after a turn: the approvals its steps surfaced if it ended well, none of an
   * earlier turn in any case; and the run's address only once `done` has come.
   */
  lemma {:induction false} TurnLeavesItsApprovals(s: ChatState, r: StreamResult, runId: Text, codes: Codes)
    ensures var t := ApplyAll(StartTurn(s), StreamEvents(r, runId, codes));
            if EndingError(r, codes).Some? then t.interrupts == [] && t.runId == s.runId
            else t.interrupts == InterruptsOf(r.steps.value.content) && t.runId == Some(runId)
  {
    BodyKeepsTheTurn(StartTurn(s), r.parts);
    ApplyAppend(StartTurn(s), EventsOfParts(r.parts), Ending(r, runId, codes));
    EndingSettlesTheTurn(ApplyAll(StartTurn(s), EventsOfParts(r.parts)), r, runId, codes);
  }

  /** The badge of answers from the journal is of this turn: a stream never sets it, and a turn begins without it. */
  lemma {:induction false} NoBadgeFromAnEarlierTurn(s: ChatState, es: seq<Event>)
    ensures ApplyAll(StartTurn(s), es).replayedToolCalls.None?
  {
    if es != [] {
      NoBadgeFromAnEarlierTurn(s, es[..|es| - 1]);
    }
  }

  // ----- a run without a stream -----

  /** accumulator.ts `applyRunResult`. */
  function ApplyRunResult(s: ChatState, runId: Text, text: Option<Text>, interrupts: seq<Interrupt>, replayed: seq<Json>): ChatState {
    ChatState(if OrEmpty(text) != [] then s.messages + [Message(Assistant, text.value, None)] else s.messages,
              interrupts, Some(runId), if replayed != [] then Some(replayed) else None, None)
  }

  /**
   * A streamed answer and the same answer in one piece leave the same messages if and only if nothing was
   * said, or the last message was not the assistant's and there was no reasoning.
   */
  lemma {:induction false} StreamedAndPlainRunsAgree(s: ChatState, runId: Text, es: seq<Event>, interrupts: seq<Interrupt>)
    ensures ApplyAll(s, es).messages == ApplyRunResult(s, runId, Some(TextOf(es)), interrupts, []).messages <==>
            AnswerOf(es) == [] || (!EndsWithAssistant(s.messages) && ReasoningOf(es) == [])
  {
    var streamed, plain := ApplyAll(s, es).messages, ApplyRunResult(s, runId, Some(TextOf(es)), interrupts, []).messages;
    assert s.messages + [] == s.messages;
    if !EndsWithAssistant(s.messages) {
      AnswerIsAdded(s, es);
      LastDiffers(s.messages, AnswerOf(es), if TextOf(es) == [] then [] else [Message(Assistant, TextOf(es), None)]);
    } else {
      var n := |s.messages| - 1;
      var ms, last := s.messages[..n], s.messages[n];
      assert s.messages == ms + [last];
      AnswerIsGluedOn(ms, s, last, es);
      assert last.content + [] == last.content;
      assert streamed[n] == WithMore(last, TextOf(es), ReasoningOf(es)) && |streamed| == |s.messages|;
      if TextOf(es) == [] && ReasoningOf(es) != [] {
        assert |OrEmpty(streamed[n].reasoning)| > |OrEmpty(last.reasoning)|;
      }
    }
  }

  lemma {:induction false} LastDiffers<T>(xs: seq<T>, a: seq<T>, b: seq<T>)
    ensures xs + a == xs + b <==> a == b
  {
    if xs + a == xs + b {
      assert a == (xs + a)[|xs|..] == (xs + b)[|xs|..] == b;
    }
  }

  /**
   * A run that ends well leaves the same state streamed and in one piece, but for the badge of replayed
   * calls, which only the latter brings, and the failures, which only the stream brings: so the same
   * pending approvals and address, and the same messages under the condition above.
   */
  lemma {:induction false} StreamedAndPlainStatesAgree(s: ChatState, r: StreamResult, runId: Text, codes: Codes, replayed: seq<Json>)
    requires EndingError(r, codes).None?
    ensures var streamed := ApplyAll(StartTurn(s), StreamEvents(r, runId, codes));
            var plain := ApplyRunResult(StartTurn(s), runId, Some(Gather(r.parts, PartText)), InterruptsOf(r.steps.value.content), replayed);
            && streamed.interrupts == plain.interrupts && streamed.runId == plain.runId == Some(runId)
            && streamed.replayedToolCalls.None? && (plain.replayedToolCalls.None? <==> replayed == [])
            && (replayed != [] ==> plain.replayedToolCalls == Some(replayed)) && plain.toolErrors.None?
  {
    TurnLeavesItsApprovals(s, r, runId, codes);
    NoBadgeFromAnEarlierTurn(s, StreamEvents(r, runId, codes));
  }
}
