/**
 * The client's event-stream parser (packages/client/src/sse.ts). `TextDecoder` is outside: a read is
 * the text it decoded to. `JSON.parse` is the parameter `json`, `None` when it throws.
 */
module SseParser {
  import opened Common

  // ----- text helpers -----

  const EVENT_FIELD: Text := Ascii("event:")
  const DATA_FIELD: Text := Ascii("data:")
  const MESSAGE: Text := Ascii("message")

  predicate StartsWith(t: Text, prefix: Text) {
    |prefix| <= |t| && t[..|prefix|] == prefix
  }

  /** `frame.split('\n')`. */
  function Lines(t: Text): (ls: seq<Text>)
    ensures ls != []
  {
    if t == [] then [[]]
    else
      var rest := Lines(t[1..]);
      if t[0] == LF then [[]] + rest else [[t[0]] + rest[0]] + rest[1..]
  }

  function JoinedLines(ls: seq<Text>): Text
    requires ls != []
  {
    if |ls| == 1 then ls[0] else ls[0] + [LF] + JoinedLines(ls[1..])
  }

  /** The lines are the text between line feeds: joined by line feeds they are the text, and none holds one. */
  lemma {:induction false} LinesAreTheText(t: Text)
    ensures JoinedLines(Lines(t)) == t
    ensures forall i :: 0 <= i < |Lines(t)| ==> LF !in Lines(t)[i]
  {
    if t != [] {
      var rest := Lines(t[1..]);
      LinesAreTheText(t[1..]);
      if t[0] == LF {
        assert ([[]] + rest)[1..] == rest;
        assert t == [] + [LF] + t[1..];
      } else {
        var first := [t[0]] + rest[0];
        assert ([first] + rest[1..])[1..] == rest[1..];
        if |rest| > 1 {
          Assoc([t[0]], rest[0], [LF] + JoinedLines(rest[1..]));
          Assoc(rest[0], [LF], JoinedLines(rest[1..]));
          Assoc(first, [LF], JoinedLines(rest[1..]));
        }
        assert t == [t[0]] + t[1..];
      }
    }
  }

  // ----- one frame -----

  datatype Payload<V> = Parsed(value: V) | Raw(text: Text)

  datatype Frame<V> = Frame(event: Text, data: Payload<V>)

  /** The value of the last `event:` line; `message` when there is none. */
  function EventOf(lines: seq<Text>): Text {
    if lines == [] then MESSAGE
    else
      var line := lines[|lines| - 1];
      if StartsWith(line, EVENT_FIELD) then Trim(line[|EVENT_FIELD|..]) else EventOf(lines[..|lines| - 1])
  }

  /** The frame's event is what its last event line says, and `message` exactly if there is none. */
  lemma {:induction false} LastEventLineCounts(lines: seq<Text>, i: nat)
    requires i <= |lines| && forall k :: i < k < |lines| ==> !StartsWith(lines[k], EVENT_FIELD)
    ensures i < |lines| && StartsWith(lines[i], EVENT_FIELD) ==> EventOf(lines) == Trim(lines[i][|EVENT_FIELD|..])
    ensures (forall k :: 0 <= k < |lines| ==> !StartsWith(lines[k], EVENT_FIELD)) ==> EventOf(lines) == MESSAGE
    decreases |lines|
  {
    if lines != [] && !StartsWith(lines[|lines| - 1], EVENT_FIELD) {
      LastEventLineCounts(lines[..|lines| - 1], if i < |lines| then i else i - 1);
    }
  }

  function DataOfLine(line: Text): Text {
    if StartsWith(line, DATA_FIELD) then Trim(line[|DATA_FIELD|..]) else []
  }

  /** The values of all `data:` lines, in order, with nothing between them. */
  function DataOf(lines: seq<Text>): Text {
    Concat(seq(|lines|, i requires 0 <= i < |lines| => DataOfLine(lines[i])))
  }

  /** What a frame means; a frame without data means nothing. */
  function Meaning<V>(frame: Text, json: Text -> Option<V>): Option<Frame<V>> {
    var data := DataOf(Lines(frame));
    if data == [] then None
    else
      var parsed := json(data);
      Some(Frame(EventOf(Lines(frame)), if parsed.Some? then Parsed(parsed.value) else Raw(data)))
  }

  lemma {:induction false} DataOfSnoc(lines: seq<Text>, line: Text)
    ensures DataOf(lines + [line]) == DataOf(lines) + DataOfLine(line)
  {
    var pieces := seq(|lines|, i requires 0 <= i < |lines| => DataOfLine(lines[i]));
    var all := lines + [line];
    assert seq(|all|, i requires 0 <= i < |all| => DataOfLine(all[i])) == pieces + [DataOfLine(line)];
    ConcatSnoc(pieces, DataOfLine(line));
  }

  lemma {:induction false} FieldsDiffer(line: Text)
    requires StartsWith(line, EVENT_FIELD)
    ensures !StartsWith(line, DATA_FIELD)
  {
    assert line[0] == line[..|EVENT_FIELD|][0] == 'e' as int;
    assert DATA_FIELD[0] == 'd' as int;
  }

  /** sse.ts `parseFrame`. */
  method ParseFrame<V>(frame: Text, json: Text -> Option<V>) returns (parsed: Option<Frame<V>>)
    ensures parsed == Meaning(frame, json)
  {
    var event := MESSAGE;
    var data: Text := [];
    var lines := Lines(frame);
    for n := 0 to |lines|
      invariant event == EventOf(lines[..n])
      invariant data == DataOf(lines[..n])
    {
      var line := lines[n];
      assert lines[..n + 1] == lines[..n] + [line];
      DataOfSnoc(lines[..n], line);
      if StartsWith(line, EVENT_FIELD) {
        FieldsDiffer(line);
        event := Trim(line[6..]);
      } else if StartsWith(line, DATA_FIELD) {
        data := data + Trim(line[5..]);
      }
    }
    assert lines[..|lines|] == lines;
    if data == [] {
      return None;
    }
    var value := json(data);
    parsed := Some(Frame(event, if value.Some? then Parsed(value.value) else Raw(data)));
  }

  // ----- the data of a frame by section 9.2.6 of the WHATWG HTML Standard -----

  const SPACE: Unit := 0x20
  const DATA_NAME: Text := Ascii("data")

  /** A field's value: what follows the colon, without one leading space. */
  function StandardValue(raw: Text): Text {
    if raw != [] && raw[0] == SPACE then raw[1..] else raw
  }

  /** The value a line contributes to the standard's data buffer; a bare field name counts as an empty value. */
  function StandardData(line: Text): seq<Text> {
    if StartsWith(line, DATA_FIELD) then [StandardValue(line[|DATA_FIELD|..])]
    else if line == DATA_NAME then [[]]
    else []
  }

  /** The values of the data lines of a frame, in order. */
  function StandardValues(lines: seq<Text>): seq<Text> {
    Gather(lines, StandardData)
  }

  /** The standard joins them by line feeds. */
  function JoinLines(values: seq<Text>): Text {
    if values == [] then []
    else if |values| == 1 then values[0]
    else JoinLines(values[..|values| - 1]) + [LF] + values[|values| - 1]
  }

  /** The parser trims them and puts nothing between. */
  function JoinTrimmed(values: seq<Text>): Text {
    if values == [] then [] else JoinTrimmed(values[..|values| - 1]) + Trim(values[|values| - 1])
  }

  lemma {:induction false} TrimShortens(t: Text)
    ensures |Trim(t)| <= |t| && (|Trim(t)| == |t| ==> Trim(t) == t)
    decreases |t|
  {
    if t != [] && IsSpace(t[0]) {
      TrimShortens(t[1..]);
    } else if t != [] && IsSpace(t[|t| - 1]) {
      TrimShortens(t[..|t| - 1]);
    }
  }

  lemma {:induction false} TrimOfValue(line: Text)
    ensures DataOfLine(line) == JoinTrimmed(StandardData(line))
  {
    var values := StandardData(line);
    if values != [] {
      assert values[..0] == [] && JoinTrimmed([]) == [];
      assert JoinTrimmed(values) == Trim(values[0]);
    }
  }

  lemma {:induction false} JoinTrimmedAppend(a: seq<Text>, b: seq<Text>)
    ensures JoinTrimmed(a + b) == JoinTrimmed(a) + JoinTrimmed(b)
    decreases |b|
  {
    if b == [] {
      assert a + b == a;
    } else {
      var b0, v := b[..|b| - 1], b[|b| - 1];
      assert (a + b)[..|a + b| - 1] == a + b0;
      JoinTrimmedAppend(a, b0);
      Assoc(JoinTrimmed(a), JoinTrimmed(b0), Trim(v));
    }
  }

  /** Both readings see the same data lines. */
  lemma {:induction false} DataIsTrimmedValues(lines: seq<Text>)
    ensures DataOf(lines) == JoinTrimmed(StandardValues(lines))
  {
    if lines != [] {
      var before, line := lines[..|lines| - 1], lines[|lines| - 1];
      assert lines == before + [line];
      DataIsTrimmedValues(before);
      DataOfSnoc(before, line);
      TrimOfValue(line);
      JoinTrimmedAppend(StandardValues(before), StandardData(line));
    }
  }

  lemma {:induction false} JoinsDiffer(values: seq<Text>)
    ensures |JoinTrimmed(values)| <= |JoinLines(values)|
    ensures |values| >= 2 ==> |JoinTrimmed(values)| < |JoinLines(values)|
  {
    if values != [] {
      var before, last := values[..|values| - 1], values[|values| - 1];
      JoinsDiffer(before);
      TrimShortens(last);
    }
  }

  lemma {:induction false} JoinsAgreeIff(values: seq<Text>)
    ensures JoinTrimmed(values) == JoinLines(values) <==> |values| <= 1 && (values != [] ==> Trim(values[0]) == values[0])
  {
    JoinsDiffer(values);
    if |values| == 1 {
      var none := values[..0];
      assert JoinTrimmed(none) == [];
      assert JoinTrimmed(values) == [] + Trim(values[0]) == Trim(values[0]);
    }
  }

  /**
   * The data of a frame is what the standard says if and only if the frame has at most one data line and
   * its value has no further white space at either end.
   */
  lemma {:induction false} DataIsStandardIff(lines: seq<Text>)
    ensures var values := StandardValues(lines);
            DataOf(lines) == JoinLines(values) <==> |values| <= 1 && (values != [] ==> Trim(values[0]) == values[0])
  {
    DataIsTrimmedValues(lines);
    JoinsAgreeIff(StandardValues(lines));
  }

  /** What the standard dispatches for a frame: nothing without a data line, otherwise its data, empty or not. */
  function StandardOut(lines: seq<Text>): Option<Text> {
    var values := StandardValues(lines);
    if values == [] then None else Some(JoinLines(values))
  }

  /** What the parser yields for a frame: nothing if the data is empty. */
  function ParserOut(lines: seq<Text>): Option<Text> {
    if DataOf(lines) == [] then None else Some(DataOf(lines))
  }

  /**
   * The parser yields for a frame what the standard dispatches if and only if the frame has no data line,
   * or one whose value is neither empty nor has further white space at an end.
   */
  lemma {:induction false} OutputIsStandardIff(lines: seq<Text>)
    ensures var values := StandardValues(lines);
            ParserOut(lines) == StandardOut(lines) <==>
            values == [] || (|values| == 1 && values[0] != [] && Trim(values[0]) == values[0])
  {
    var values := StandardValues(lines);
    DataIsStandardIff(lines);
    if values == [] {
      assert DataOf(lines) == JoinLines(values);
    }
    JoinsDiffer(values);
    DataIsTrimmedValues(lines);
  }

  /** `ParserOut` is about the frames that come out: it decides whether one does, and its text goes to `JSON.parse`. */
  lemma {:induction false} MeaningIsParserOut<V>(frame: Text, json: Text -> Option<V>)
    ensures var out := ParserOut(Lines(frame));
            && (Meaning(frame, json).None? <==> out.None?)
            && (out.Some? ==>
                  && Meaning(frame, json).value.event == EventOf(Lines(frame))
                  && Meaning(frame, json).value.data ==
                     if json(out.value).Some? then Parsed(json(out.value).value) else Payload<V>.Raw(out.value))
  {}

  /** One empty data line: the standard dispatches empty data, the parser drops the frame. */
  lemma {:induction false} EmptyDataIsDropped()
    ensures ParserOut([DATA_FIELD]) == None && StandardOut([DATA_FIELD]) == Some([])
  {
    DataLine([]);
    assert DATA_FIELD + [] == DATA_FIELD;
    GatherAt([DATA_FIELD], StandardData, 0);
    DataIsTrimmedValues([DATA_FIELD]);
    JoinsAgreeIff(StandardValues([DATA_FIELD]));
  }

  lemma {:induction false} DataLine(raw: Text)
    ensures StandardData(DATA_FIELD + raw) == [StandardValue(raw)]
  {
    assert (DATA_FIELD + raw)[..|DATA_FIELD|] == DATA_FIELD && (DATA_FIELD + raw)[|DATA_FIELD|..] == raw;
  }

  lemma {:induction false} JoinTwo(a: Text, b: Text)
    ensures JoinLines([a, b]) == a + [LF] + b && JoinTrimmed([a, b]) == Trim(a) + Trim(b)
  {
    var both: seq<Text> := [a, b];
    var first := both[..1];
    assert first == [a] && JoinLines(first) == a;
    assert first[..0] == [] && JoinTrimmed(first[..0]) == [];
    assert JoinTrimmed(first) == [] + Trim(a) == Trim(a);
  }

  lemma {:induction false} TwoDataLines(a: Text, b: Text)
    ensures StandardValues([DATA_FIELD + a, DATA_FIELD + b]) == [StandardValue(a), StandardValue(b)]
  {
    var first: seq<Text>, second: seq<Text> := [DATA_FIELD + a], [DATA_FIELD + b];
    DataLine(a);
    DataLine(b);
    GatherAt(first, StandardData, 0);
    GatherAt(second, StandardData, 0);
    GatherAppend(first, second, StandardData);
    assert first + second == [DATA_FIELD + a, DATA_FIELD + b];
  }

  /** Two data lines: the parser reads `ab` where the standard has a line feed in between. */
  lemma {:induction false} TwoDataLinesRunTogether()
    ensures var lines := [DATA_FIELD + [0x61], DATA_FIELD + [0x62]];
            DataOf(lines) == [0x61, 0x62] && JoinLines(StandardValues(lines)) == [0x61, LF, 0x62]
  {
    var a: Text, b: Text := [0x61], [0x62];
    TwoDataLines(a, b);
    DataIsTrimmedValues([DATA_FIELD + a, DATA_FIELD + b]);
    JoinTwo(a, b);
  }

  // ----- cutting the stream into frames -----

  const BREAK: Text := [LF, LF]

  predicate BreakAt(t: Text, i: int) {
    0 <= i < |t| - 1 && t[i] == LF && t[i + 1] == LF
  }

  ghost predicate NoBreak(t: Text) {
    forall i :: !BreakAt(t, i)
  }

  /** `t.indexOf('\n\n')`, searching from `from`. */
  function FirstBreak(t: Text, from: nat): (i: int)
    requires from <= |t|
    ensures i == -1 || (from <= i && BreakAt(t, i))
    ensures forall k :: from <= k && (k < i || i == -1) ==> !BreakAt(t, k)
    decreases |t| - from
  {
    if from == |t| then -1
    else if BreakAt(t, from) then from
    else FirstBreak(t, from + 1)
  }

  /** The pieces between breaks, cut greedily from the left; the last one is not terminated. */
  function Pieces(t: Text): (ps: seq<Text>)
    ensures ps != []
    decreases |t|
  {
    var i := FirstBreak(t, 0);
    if i < 0 then [t] else [t[..i]] + Pieces(t[i + 2..])
  }

  function Join(ps: seq<Text>): Text
    requires ps != []
  {
    if |ps| == 1 then ps[0] else ps[0] + BREAK + Join(ps[1..])
  }

  /** A piece that its break really ends: the first break of `p` + LF LF is that one. */
  ghost predicate Closed(p: Text) {
    NoBreak(p) && (p != [] ==> p[|p| - 1] != LF)
  }

  /** `ps` is a way to read `t` as closed frames followed by an open rest. */
  ghost predicate IsFraming(t: Text, ps: seq<Text>) {
    && ps != []
    && Join(ps) == t
    && (forall i :: 0 <= i < |ps| - 1 ==> Closed(ps[i]))
    && NoBreak(ps[|ps| - 1])
  }

  lemma {:induction false} PiecesAreAFraming(t: Text)
    ensures IsFraming(t, Pieces(t))
    decreases |t|
  {
    var i := FirstBreak(t, 0);
    if i >= 0 {
      var rest := t[i + 2..];
      PiecesAreAFraming(rest);
      assert t == t[..i] + BREAK + rest;
      assert Pieces(t)[1..] == Pieces(rest);
      assert Closed(t[..i]) by {
        forall k ensures !BreakAt(t[..i], k) { assert !BreakAt(t, k) || k >= i; }
        assert i > 0 ==> !BreakAt(t, i - 1);
      }
    } else {
      assert NoBreak(t) by { forall k ensures !BreakAt(t, k) {} }
    }
  }

  lemma {:induction false} ClosedPieceComesFirst(p: Text, rest: Text)
    requires Closed(p)
    ensures FirstBreak(p + BREAK + rest, 0) == |p|
  {
    var t := p + BREAK + rest;
    assert BreakAt(t, |p|);
    forall k | 0 <= k < |p| ensures !BreakAt(t, k) {
      assert !BreakAt(p, k);
    }
  }

  /** The reading is unique: framing is a property of the text, not of the parser. */
  lemma {:induction false} FramingIsUnique(t: Text, ps: seq<Text>)
    requires IsFraming(t, ps)
    ensures ps == Pieces(t)
    decreases |ps|
  {
    if |ps| == 1 {
      assert FirstBreak(t, 0) == -1;
    } else {
      var rest := Join(ps[1..]);
      ClosedPieceComesFirst(ps[0], rest);
      assert t[..|ps[0]|] == ps[0] && t[|ps[0]| + 2..] == rest;
      FramingIsUnique(rest, ps[1..]);
    }
  }

  lemma {:induction false} FirstBreakIsStable(t: Text, more: Text)
    requires FirstBreak(t, 0) >= 0
    ensures FirstBreak(t + more, 0) == FirstBreak(t, 0)
  {
    var i := FirstBreak(t, 0);
    assert BreakAt(t + more, i);
    forall k | 0 <= k < i ensures !BreakAt(t + more, k) {
      assert !BreakAt(t, k);
    }
  }

  /** Later text can only affect the piece that is still open. */
  lemma {:induction false} MoreTextReopensOnlyTheRest(t: Text, closed: seq<Text>, rest: Text, more: Text)
    requires Pieces(t) == closed + [rest]
    ensures Pieces(t + more) == closed + Pieces(rest + more)
    decreases |t|
  {
    var i := FirstBreak(t, 0);
    if i < 0 {
      assert closed == [] by { assert |closed + [rest]| == 1; }
      assert closed + [rest] == [rest];
    } else {
      var tail := t[i + 2..];
      ConsSnoc(t[..i], Pieces(tail), closed, rest);
      MoreTextReopensOnlyTheRest(tail, closed[1..], rest, more);
      FirstBreakIsStable(t, more);
      assert (t + more)[i + 2..] == tail + more && (t + more)[..i] == t[..i];
      Assoc([t[..i]], closed[1..], Pieces(rest + more));
      assert [closed[0]] + closed[1..] == closed;
    }
  }

  // ----- the stream -----

  /** The meaningful frames of a list of pieces, in order. */
  function Meanings<V>(pieces: seq<Text>, json: Text -> Option<V>): seq<Frame<V>> {
    if pieces == [] then []
    else
      Meanings(pieces[..|pieces| - 1], json) + IfAny(Meaning(pieces[|pieces| - 1], json))
  }

  function IfAny<T>(o: Option<T>): seq<T> {
    if o.Some? then [o.value] else []
  }

  lemma {:induction false} MeaningsSnoc<V>(pieces: seq<Text>, p: Text, json: Text -> Option<V>)
    ensures Meanings(pieces + [p], json) ==
            Meanings(pieces, json) + IfAny(Meaning(p, json))
  {
    assert (pieces + [p])[..|pieces|] == pieces;
  }

  lemma {:induction false} TakeOne(closed: seq<Text>, rest: Text, i: nat)
    requires i == FirstBreak(rest, 0)
    ensures closed + Pieces(rest) == (closed + [rest[..i]]) + Pieces(rest[i + 2..])
  {
    Assoc(closed, [rest[..i]], Pieces(rest[i + 2..]));
  }

  /** The inner loop: take every complete frame off the buffer. */
  method Drain<V>(buf: Text, json: Text -> Option<V>) returns (rest: Text, frames: seq<Frame<V>>, ghost closed: seq<Text>)
    ensures NoBreak(rest)
    ensures Pieces(buf) == closed + [rest]
    ensures frames == Meanings(closed, json)
  {
    rest, frames, closed := buf, [], [];
    var i := FirstBreak(rest, 0);
    while i >= 0
      invariant i == FirstBreak(rest, 0)
      invariant Pieces(buf) == closed + Pieces(rest)
      invariant frames == Meanings(closed, json)
      decreases |rest|
    {
      var frame := rest[..i];
      TakeOne(closed, rest, i);
      MeaningsSnoc(closed, frame, json);
      rest := rest[i + 2..];
      var parsed := ParseFrame(frame, json);
      if parsed.Some? {
        frames := frames + [parsed.value];
      }
      closed := closed + [frame];
      i := FirstBreak(rest, 0);
    }
    assert NoBreak(rest) by { forall k ensures !BreakAt(rest, k) {} }
  }

  /**
   * sse.ts `parseSSEStream`. Whatever the chunks are, the frames are those of the whole text: its one
   * framing, the unterminated last piece included.
   */
  method ParseStream<V>(chunks: seq<Text>, json: Text -> Option<V>) returns (frames: seq<Frame<V>>)
    ensures frames == Meanings(Pieces(Concat(chunks)), json)
  {
    frames := [];
    var buf: Text := [];
    ghost var closed: seq<Text> := [];
    for n := 0 to |chunks|
      invariant NoBreak(buf)
      invariant Pieces(Concat(chunks[..n])) == closed + [buf]
      invariant frames == Meanings(closed, json)
    {
      ghost var before := Concat(chunks[..n]);
      assert chunks[..n + 1] == chunks[..n] + [chunks[n]];
      ConcatSnoc(chunks[..n], chunks[n]);
      MoreTextReopensOnlyTheRest(before, closed, buf, chunks[n]);
      var rest, more;
      ghost var newly;
      rest, more, newly := Drain(buf + chunks[n], json);
      MeaningsAppend(closed, newly, json);
      Assoc(closed, newly, [rest]);
      buf, frames, closed := rest, frames + more, closed + newly;
    }
    assert chunks[..|chunks|] == chunks;
    MeaningsSnoc(closed, buf, json);
    var last := ParseFrame(buf, json);
    if last.Some? {
      frames := frames + [last.value];
    }
  }

  /** Every piece with a meaning is among the frames, in its place, and nothing else is. */
  lemma {:induction false} EveryMeaningIsYielded<V>(a: seq<Text>, p: Text, b: seq<Text>, json: Text -> Option<V>)
    ensures Meanings(a + [p] + b, json) ==
            Meanings(a, json) + (match Meaning(p, json) case Some(frame) => [frame] case None => []) + Meanings(b, json)
  {
    MeaningsAppend(a + [p], b, json);
    MeaningsSnoc(a, p, json);
  }

  lemma {:induction false} MeaningsAppend<V>(a: seq<Text>, b: seq<Text>, json: Text -> Option<V>)
    ensures Meanings(a + b, json) == Meanings(a, json) + Meanings(b, json)
    decreases |b|
  {
    if b == [] {
      assert a + b == a;
    } else {
      var b0, p := b[..|b| - 1], b[|b| - 1];
      assert b == b0 + [p];
      Assoc(a, b0, [p]);
      MeaningsSnoc(a + b0, p, json);
      MeaningsSnoc(b0, p, json);
      MeaningsAppend(a, b0, json);
      Assoc(Meanings(a, json), Meanings(b0, json), IfAny(Meaning(p, json)));
    }
  }
}
