/**
 * Viewport and repaint arithmetic of the checkbox prompt (packages/cli/src/prompt.ts).
 *
 * The words of a row are inputs; what is at stake is how many rows a frame has, how wide they are,
 * and whether "cursor up by the lines written last time" lands on the first of them.
 */
module Repaint {
  import opened Common
  import opened Ansi
  import PromptKeys

  function Max(a: int, b: int): int {
    if a >= b then a else b
  }

  function Min(a: int, b: int): int {
    if a <= b then a else b
  }

  /** prompt.ts `drawWidth`; `None` stands for undefined and for values that are not finite. */
  function DrawWidth(columns: Option<int>): (w: nat)
    ensures 20 <= w <= 400
    ensures columns.Some? && columns.value > 0 ==> (w < columns.value <==> columns.value >= 21)
    ensures columns.Some? && 21 <= columns.value <= 401 ==> w == columns.value - 1
    ensures columns.None? || columns.value <= 0 ==> w == 79
  {
    var cols := if columns.Some? && columns.value > 0 then columns.value else 80;
    Min(400, Max(20, cols - 1))
  }

  // ----- the window -----

  /** A height the terminal did not report (undefined or 0) puts no limit on the frame. */
  predicate IsLimited(rows: Option<nat>) {
    rows.Some? && rows.value > 0
  }

  /** prompt.ts `visibleWindow`. */
  function VisibleWindow(count: nat, cursor: nat, rows: Option<nat>, chromeRows: nat): (w: (nat, nat))
    ensures w.0 <= w.1 <= count
  {
    if !IsLimited(rows) || count <= rows.value - chromeRows - 1 then (0, count)
    else
      var capacity := rows.value - chromeRows - 2;
      if capacity < 1 then (0, 0)
      else
        var start := Max(0, Min(cursor - capacity / 2, count - capacity));
        (start, start + capacity)
  }

  /** The window holds the cursor's item as soon as one option row fits. */
  lemma {:induction false} WindowHoldsCursor(count: nat, cursor: nat, rows: Option<nat>, chromeRows: nat)
    requires cursor < count
    ensures var (start, end) := VisibleWindow(count, cursor, rows, chromeRows);
            (start <= cursor < end <==>
                (IsLimited(rows) ==> rows.value >= chromeRows + Min(count, 2) + 1))
  {}

  // ----- the frame -----

  /** What a frame shows: texts of the rows, and the list behind them. */
  datatype View = View(title: Text, help: Text, count: nat, cursor: nat, row: nat -> Text, counter: (nat, nat) -> Text)

  function Chrome(v: View, rows: Option<nat>): (c: seq<Text>)
    ensures 1 <= |c| <= 3
  {
    if !IsLimited(rows) || rows.value >= 6 then [v.title, v.help, []]
    else if rows.value >= 4 then [v.title, v.help]
    else [v.title]
  }

  function OptionRows(v: View, start: nat, end: nat): (r: seq<Text>)
    requires start <= end
    ensures |r| == end - start
  {
    seq(end - start, k requires 0 <= k => v.row(start + k))
  }

  function WindowOf(v: View, rows: Option<nat>): (nat, nat) {
    VisibleWindow(v.count, v.cursor, rows, |Chrome(v, rows)|)
  }

  /** The lines a frame wants to write, before anything is cut off. */
  function Frame(v: View, rows: Option<nat>): seq<Text>
  {
    var (start, end) := WindowOf(v, rows);
    Chrome(v, rows) + OptionRows(v, start, end)
    + if start > 0 || end < v.count then [v.counter(start, v.count - end)] else []
  }

  /** The frame shows the items of the window, each its own row and in its place behind the rows above the list. */
  lemma {:induction false} FrameShowsTheWindow(v: View, rows: Option<nat>, k: nat)
    requires WindowOf(v, rows).0 <= k < WindowOf(v, rows).1
    ensures var at := |Chrome(v, rows)| + k - WindowOf(v, rows).0;
            at < |Frame(v, rows)| && Frame(v, rows)[at] == v.row(k)
  {}

  /**
   * Above the list the title, always, then help and a blank line as far as there is height for them;
   * below it, exactly if items are hidden, the counter with the numbers of those above and below.
   */
  lemma {:induction false} FrameShowsTheRest(v: View, rows: Option<nat>)
    ensures var (start, end) := WindowOf(v, rows);
            var frame, hidden := Frame(v, rows), start + (v.count - end);
            && frame[0] == v.title
            && (!IsLimited(rows) || rows.value >= 4 ==> |frame| >= 2 && frame[1] == v.help)
            && (hidden > 0 ==> frame[|frame| - 1] == v.counter(start, v.count - end))
            && |frame| == |Chrome(v, rows)| + (v.count - hidden) + if hidden > 0 then 1 else 0
  {}

  /** A window with a row to spare is not spared: it shows everything, or the frame leaves just the last row free. */
  lemma {:induction false} WindowUsesTheRoom(v: View, rows: nat)
    requires rows >= |Chrome(v, Some(rows))| + 3
    ensures WindowOf(v, Some(rows)) == (0, v.count) || |Frame(v, Some(rows))| == rows - 1
  {}

  /** The cursor stands in the middle of the window, except where the window has reached an end of the list. */
  lemma {:induction false} WindowIsCentred(v: View, rows: Option<nat>)
    requires v.cursor < v.count
    ensures var (start, end) := WindowOf(v, rows);
            start == end || start == 0 || end == v.count || v.cursor - start == (end - start) / 2
  {}

  /** From two rows up the frame fits as computed: the final slice cuts nothing. */
  lemma {:induction false} FrameFits(v: View, rows: nat)
    requires rows > 0
    ensures |Frame(v, Some(rows))| <= rows <==> rows >= 2 || v.count == 0
  {}

  /**
   * A frame is written with a newline after its last line, so it stays on screen only if it leaves
   * one row. It does exactly from three rows up, and in two rows when the list is empty.
   */
  lemma {:induction false} FrameLeavesARow(v: View, rows: nat)
    requires rows > 0
    ensures |Frame(v, Some(rows))| < rows <==> rows >= 3 || (rows == 2 && v.count == 0)
  {}

  /** prompt.ts `renderLines`. */
  method RenderLines(v: View, width: nat, rows: Option<nat>) returns (lines: seq<Text>)
    ensures |lines| == if IsLimited(rows) then Min(|Frame(v, rows)|, rows.value) else |Frame(v, rows)|
    ensures forall i :: 0 <= i < |lines| ==> IsClamped(Frame(v, rows)[i], width, lines[i])
  {
    var built := Chrome(v, rows);
    var chrome := |built|;
    var (start, end) := VisibleWindow(v.count, v.cursor, rows, chrome);
    for i := start to end
      invariant built == Chrome(v, rows) + OptionRows(v, start, i)
    {
      built := built + [v.row(i)];
    }
    if start > 0 || end < v.count {
      built := built + [v.counter(start, v.count - end)];
    }
    assert built == Frame(v, rows);
    if IsLimited(rows) {
      built := built[..Min(|built|, rows.value)];
    }
    lines := ClampAll(built, width);
  }

  method ClampAll(built: seq<Text>, width: nat) returns (lines: seq<Text>)
    ensures |lines| == |built|
    ensures forall i :: 0 <= i < |lines| ==> IsClamped(built[i], width, lines[i])
  {
    lines := [];
    for i := 0 to |built|
      invariant |lines| == i
      invariant forall k :: 0 <= k < i ==> IsClamped(built[k], width, lines[k])
    {
      var line := Clamp(built[i], width);
      lines := lines + [line];
    }
  }

  // ----- the terminal -----

  /**
   * Every row ever written, the row the cursor is on, and the first row still on screen. Rows above
   * `top` are scrollback: cursor-up stops there.
   */
  datatype Screen = Screen(tape: seq<Text>, cursor: nat, top: nat)

  /** ESC [ n A. */
  function Up(s: Screen, n: nat): Screen {
    s.(cursor := Max(Min(s.top, s.cursor), s.cursor - n))
  }

  /** ESC [ 2K, a line of text, and a newline that scrolls if it leaves the last row of `height`. */
  function Put(s: Screen, line: Text, height: nat): Screen
    requires s.cursor <= |s.tape|
  {
    Screen(if s.cursor < |s.tape| then s.tape[s.cursor := line] else s.tape + [line],
           s.cursor + 1,
           Max(s.top, s.cursor + 2 - height))
  }

  function PutAll(s: Screen, lines: seq<Text>, height: nat): (r: Screen)
    requires s.cursor <= |s.tape|
    ensures r.cursor == s.cursor + |lines| <= |r.tape|
  {
    if lines == [] then s
    else Put(PutAll(s, lines[..|lines| - 1], height), lines[|lines| - 1], height)
  }

  method WriteLines(s: Screen, lines: seq<Text>, height: nat) returns (r: Screen)
    requires s.cursor <= |s.tape|
    ensures r == PutAll(s, lines, height)
  {
    r := s;
    for i := 0 to |lines|
      invariant r.cursor <= |r.tape| && r == PutAll(s, lines[..i], height)
    {
      assert lines[..i + 1][..i] == lines[..i];
      r := Put(r, lines[i], height);
    }
    assert lines[..|lines|] == lines;
  }

  function Blanks(n: nat): seq<Text> {
    seq(n, _ => [])
  }

  /** A change of height keeps the cursor in view; rows pushed out above become scrollback. */
  function Resized(s: Screen, height: nat): Screen {
    s.(top := Max(s.top, s.cursor + 1 - height))
  }

  /** What `draw` does to the screen. */
  function Drawn(s: Screen, prev: nat, lines: seq<Text>, height: nat): (r: Screen)
    requires s.cursor <= |s.tape|
    ensures r.cursor <= |r.tape|
  {
    var s1 := PutAll(Up(s, prev), lines, height);
    if prev <= |lines| then s1
    else Up(PutAll(s1, Blanks(prev - |lines|), height), prev - |lines|)
  }

  /** The writing half of `draw`: back to the block's first row, the lines, and blanks over what is left of a taller frame. */
  method PaintOver(s: Screen, prev: nat, lines: seq<Text>, height: nat) returns (r: Screen)
    requires s.cursor <= |s.tape|
    ensures r == Drawn(s, prev, lines, height)
  {
    r := s;
    if prev > 0 {
      r := Up(r, prev);
    }
    assert r == Up(s, prev);
    r := WriteLines(r, lines, height);
    if prev > |lines| {
      r := WriteLines(r, Blanks(prev - |lines|), height);
      r := Up(r, prev - |lines|);
    }
  }

  /** The block that starts at row `start` is exactly `frame`, with the cursor right below and nothing further down. */
  ghost predicate IsPainted(s: Screen, start: nat, frame: seq<Text>) {
    && s.top <= start
    && s.cursor == start + |frame| <= |s.tape|
    && s.tape[start..s.cursor] == frame
    && forall i :: s.cursor <= i < |s.tape| ==> s.tape[i] == []
  }

  lemma {:induction false} PutAllWrites(s: Screen, lines: seq<Text>, height: nat)
    requires s.cursor <= |s.tape|
    ensures var r := PutAll(s, lines, height);
            && |r.tape| == Max(|s.tape|, r.cursor)
            && (forall i :: 0 <= i < |r.tape| ==>
                  r.tape[i] == if s.cursor <= i < r.cursor then lines[i - s.cursor] else s.tape[i])
            && r.top == if lines == [] then s.top else Max(s.top, r.cursor + 1 - height)
    decreases |lines|
  {
    if lines != [] {
      PutAllWrites(s, lines[..|lines| - 1], height);
    }
  }

  lemma {:induction false} PutAllPaints(s: Screen, start: nat, lines: seq<Text>, height: nat)
    requires s.cursor == start <= |s.tape| && s.top <= start && |lines| < height
    ensures var r := PutAll(s, lines, height);
            && r.top <= start && r.cursor == start + |lines| <= |r.tape|
            && r.tape[start..r.cursor] == lines
            && r.tape[..start] == s.tape[..start]
            && (if r.cursor <= |s.tape| then r.tape[r.cursor..] == s.tape[r.cursor..] else r.cursor == |r.tape|)
  {
    PutAllWrites(s, lines, height);
  }

  /** Blanking the rows left over from a taller frame, and coming back. */
  lemma {:induction false} BlankingRemovesGhosts(s: Screen, start: nat, lines: seq<Text>, extra: nat, height: nat)
    requires s.top <= start && s.cursor == start + |lines| && s.cursor + extra <= |s.tape|
    requires s.tape[start..s.cursor] == lines && |lines| + extra < height
    requires forall i :: s.cursor + extra <= i < |s.tape| ==> s.tape[i] == []
    ensures var r := Up(PutAll(s, Blanks(extra), height), extra);
            IsPainted(r, start, lines) && r.tape[..start] == s.tape[..start]
  {
    var r := PutAll(s, Blanks(extra), height);
    PutAllWrites(s, Blanks(extra), height);
    assert r.tape[start..s.cursor] == s.tape[start..s.cursor];
    assert r.top <= start;
    assert r.tape[..start] == s.tape[..start];
  }

  /** One repaint: if both frames leave a row free, the new frame replaces the old one in place. */
  lemma {:induction false} DrawReplacesFrame(s: Screen, start: nat, frame: seq<Text>, lines: seq<Text>, height: nat)
    requires IsPainted(s, start, frame) && |frame| < height && |lines| < height
    ensures var r := Drawn(Resized(s, height), |frame|, lines, height);
            IsPainted(r, start, lines) && r.tape[..start] == s.tape[..start]
  {
    var s0 := Up(Resized(s, height), |frame|);
    assert s0.cursor == start && s0.top <= start && s0.tape == s.tape;
    var s1 := PutAll(s0, lines, height);
    PutAllPaints(s0, start, lines, height);
    if |frame| > |lines| {
      var extra := |frame| - |lines|;
      assert s1.tape == s1.tape[..s1.cursor] + s.tape[s1.cursor..];
      BlankingRemovesGhosts(s1, start, lines, extra, height);
    } else if s1.cursor <= |s.tape| {
      assert s1.tape == s1.tape[..s1.cursor] + s.tape[s1.cursor..];
    }
  }

  /** If the old frame no longer fits above the cursor, cursor-up stops short and its first rows stay behind as ghosts. */
  lemma {:induction false} ShrinkingLeavesGhosts(s: Screen, start: nat, frame: seq<Text>, lines: seq<Text>, height: nat)
    requires IsPainted(s, start, frame) && 0 < height <= |frame|
    ensures var r := Drawn(Resized(s, height), |frame|, lines, height);
            r.tape[start] == frame[0] && r.top > start
  {
    var prev := |frame|;
    var s0 := Up(Resized(s, height), prev);
    assert s0.cursor > start;
    var s1 := PutAll(s0, lines, height);
    PutAllWrites(s0, lines, height);
    assert s.tape[start..s.cursor][0] == s.tape[start];
    if prev > |lines| {
      PutAllWrites(s1, Blanks(prev - |lines|), height);
    }
  }

  datatype Repainting = Repainting(lines: seq<Text>, height: nat)

  function DrawAll(s: Screen, prev: nat, draws: seq<Repainting>): (Screen, nat)
    requires s.cursor <= |s.tape|
    decreases |draws|
  {
    if draws == [] then (s, prev)
    else
      var d := draws[0];
      DrawAll(Drawn(Resized(s, d.height), prev, d.lines, d.height), |d.lines|, draws[1..])
  }

  /** Every frame leaves a row free, and no resize makes the terminal too small for the frame on it. */
  ghost predicate NeverTooTall(prev: nat, draws: seq<Repainting>)
    decreases |draws|
  {
    draws == []
    || (prev < draws[0].height && |draws[0].lines| < draws[0].height && NeverTooTall(|draws[0].lines|, draws[1..]))
  }

  /** What scrolled away stays away. */
  lemma {:induction false} DrawKeepsTop(s: Screen, prev: nat, lines: seq<Text>, height: nat)
    requires s.cursor <= |s.tape|
    ensures Drawn(s, prev, lines, height).top >= s.top
  {
    PutAllWrites(Up(s, prev), lines, height);
    var s1 := PutAll(Up(s, prev), lines, height);
    if prev > |lines| {
      PutAllWrites(s1, Blanks(prev - |lines|), height);
    }
  }

  lemma {:induction false} DrawsKeepTop(s: Screen, prev: nat, draws: seq<Repainting>)
    requires s.cursor <= |s.tape|
    ensures DrawAll(s, prev, draws).0.top >= s.top
    decreases |draws|
  {
    if draws != [] {
      var d := draws[0];
      var s1 := Resized(s, d.height);
      DrawKeepsTop(s1, prev, d.lines, d.height);
      DrawsKeepTop(Drawn(s1, prev, d.lines, d.height), |d.lines|, draws[1..]);
    }
  }

  /** A draw with the old or the new frame as tall as the terminal scrolls the block's first row away. */
  lemma {:induction false} TooTallLosesTheBlock(s: Screen, start: nat, frame: seq<Text>, lines: seq<Text>, height: nat)
    requires IsPainted(s, start, frame) && (|frame| >= height || |lines| >= height)
    ensures Drawn(Resized(s, height), |frame|, lines, height).top > start
  {
    var prev := |frame|;
    var s0 := Resized(s, height);
    if prev >= height {
      assert s0.top > start;
      DrawKeepsTop(s0, prev, lines, height);
    } else {
      var s1 := Up(s0, prev);
      PutAllWrites(s1, lines, height);
    }
  }

  /**
   * After any sequence of draws and resizes the screen shows exactly the last frame, where the first one
   * began, if and only if no draw met a frame, old or new, as tall as the terminal.
   */
  lemma {:induction false} ScreenShowsLastFrame(s: Screen, start: nat, frame: seq<Text>, draws: seq<Repainting>)
    requires IsPainted(s, start, frame)
    ensures var (r, prev) := DrawAll(s, |frame|, draws);
            var last := if draws == [] then frame else draws[|draws| - 1].lines;
            && prev == |last|
            && (IsPainted(r, start, last) <==> NeverTooTall(|frame|, draws))
            && (NeverTooTall(|frame|, draws) ==> r.tape[..start] == s.tape[..start])
    decreases |draws|
  {
    if draws != [] {
      var d := draws[0];
      var s1 := Drawn(Resized(s, d.height), |frame|, d.lines, d.height);
      if |frame| < d.height && |d.lines| < d.height {
        DrawReplacesFrame(s, start, frame, d.lines, d.height);
        ScreenShowsLastFrame(s1, start, d.lines, draws[1..]);
      } else {
        TooTallLosesTheBlock(s, start, frame, d.lines, d.height);
        DrawsKeepTop(s1, |d.lines|, draws[1..]);
        LastLineCount(s1, |d.lines|, draws[1..]);
      }
    }
  }

  lemma {:induction false} LastLineCount(s: Screen, prev: nat, draws: seq<Repainting>)
    requires s.cursor <= |s.tape|
    ensures DrawAll(s, prev, draws).1 == if draws == [] then prev else |draws[|draws| - 1].lines|
    decreases |draws|
  {
    if draws != [] {
      var d := draws[0];
      LastLineCount(Drawn(Resized(s, d.height), prev, d.lines, d.height), |d.lines|, draws[1..]);
    }
  }

  // ----- the prompt's own frames -----

  /** The texts of one prompt: fixed ones, a row for an item of a state, and the counter line. */
  datatype Words = Words(title: Text, help: Text, row: (PromptKeys.SelectState, nat) -> Text, counter: (nat, nat) -> Text)

  function ViewOf(words: Words, s: PromptKeys.SelectState): View {
    View(words.title, words.help, |s.items|, s.cursor, i => words.row(s, i), words.counter)
  }

  /** `lines` are the frame of `v` for a terminal that reports this size; 0 rows stand for no report. */
  ghost predicate IsRendering(v: View, columns: Option<int>, rows: nat, lines: seq<Text>) {
    var frame := Frame(v, Some(rows));
    && |lines| == (if rows > 0 then Min(|frame|, rows) else |frame|)
    && forall i :: 0 <= i < |lines| ==> IsClamped(frame[i], DrawWidth(columns), lines[i])
  }

  /** The line of item `k` is its clamped row, as far below the top as the item stands behind the window's first. */
  ghost predicate IsOnItsLine(v: View, columns: Option<int>, rows: nat, lines: seq<Text>, k: nat) {
    var at := |Chrome(v, Some(rows))| + k - WindowOf(v, Some(rows)).0;
    0 <= at < |lines| && IsClamped(v.row(k), DrawWidth(columns), lines[at])
  }

  /** Every item of the window is on its line, and the cursor's item is in the window as soon as one option row fits. */
  ghost predicate ShowsItsItems(v: View, columns: Option<int>, rows: nat, lines: seq<Text>) {
    var (start, end) := WindowOf(v, Some(rows));
    && (forall k: nat :: start <= k < end ==> IsOnItsLine(v, columns, rows, lines, k))
    && (v.cursor < v.count && (rows > 0 ==> rows >= |Chrome(v, Some(rows))| + Min(v.count, 2) + 1) ==> start <= v.cursor < end)
  }

  lemma {:induction false} WindowIsNotCut(v: View, rows: nat, k: nat)
    requires WindowOf(v, Some(rows)).0 <= k < WindowOf(v, Some(rows)).1
    ensures rows == 0 || |Frame(v, Some(rows))| <= rows
  {
    if rows > 0 {
      FrameFits(v, rows);
    }
  }

  lemma {:induction false} RowIsDrawn(v: View, columns: Option<int>, rows: nat, lines: seq<Text>, k: nat)
    requires IsRendering(v, columns, rows, lines)
    requires WindowOf(v, Some(rows)).0 <= k < WindowOf(v, Some(rows)).1
    ensures IsOnItsLine(v, columns, rows, lines, k)
  {
    var frame := Frame(v, Some(rows));
    WindowIsNotCut(v, rows, k);
    FrameShowsTheWindow(v, Some(rows), k);
    assert |lines| == |frame|;
  }

  lemma {:induction false} RenderingShowsItsItems(v: View, columns: Option<int>, rows: nat, lines: seq<Text>)
    requires IsRendering(v, columns, rows, lines)
    ensures ShowsItsItems(v, columns, rows, lines)
  {
    var (start, end) := WindowOf(v, Some(rows));
    assert v.cursor < v.count && (rows > 0 ==> rows >= |Chrome(v, Some(rows))| + Min(v.count, 2) + 1) ==> start <= v.cursor < end by {
      if v.cursor < v.count {
        WindowHoldsCursor(v.count, v.cursor, Some(rows), |Chrome(v, Some(rows))|);
      }
    }
    forall k: nat | start <= k < end ensures IsOnItsLine(v, columns, rows, lines, k) {
      RowIsDrawn(v, columns, rows, lines, k);
    }
  }

  datatype Prompt = Prompt(session: PromptKeys.Session, screen: Screen, prevLineCount: nat)

  /**
   * A read, or a resize if there is none: the size the terminal reports, its real height, and the
   * lines that are written if the event redraws.
   */
  datatype Happening = Happening(read: Option<Text>, columns: Option<int>, rows: nat, height: nat, lines: seq<Text>)

  function SessionAfter(u: PromptKeys.Session, h: Happening): PromptKeys.Session {
    if h.read.Some? then PromptKeys.Feed(u, h.read.value) else u
  }

  /** Both listeners are detached together; a read without a key redraws nothing. */
  predicate Redraws(u: PromptKeys.Session, h: Happening) {
    u.listening && (h.read.Some? ==> PromptKeys.DecodeStream(h.read.value, u.carry).0 != [])
  }

  function Next(p: Prompt, h: Happening): Prompt
    requires p.screen.cursor <= |p.screen.tape|
  {
    var u := SessionAfter(p.session, h);
    if Redraws(p.session, h) then
      Prompt(u, Drawn(Resized(p.screen, h.height), p.prevLineCount, h.lines, h.height), |h.lines|)
    else p.(session := u)
  }

  function After(p: Prompt, hs: seq<Happening>): Prompt
    requires p.screen.cursor <= |p.screen.tape|
    decreases |hs|
  {
    if hs == [] then p else After(Next(p, hs[0]), hs[1..])
  }

  /** Every redraw renders the state the prompt is then in. */
  ghost predicate IsHistory(words: Words, u: PromptKeys.Session, hs: seq<Happening>)
    decreases |hs|
  {
    hs == [] ||
    ((Redraws(u, hs[0]) ==>
        IsRendering(ViewOf(words, SessionAfter(u, hs[0]).state), hs[0].columns, hs[0].rows, hs[0].lines))
     && IsHistory(words, SessionAfter(u, hs[0]), hs[1..]))
  }

  /** The terminal reports its height truly or not at all. */
  predicate ReportsTruly(hs: seq<Happening>) {
    forall i :: 0 <= i < |hs| ==> hs[i].height > 0 && (hs[i].rows == 0 || hs[i].rows == hs[i].height)
  }

  /** A terminal of this height has room for a frame of `count` items and a row below it. */
  predicate HasRoom(count: nat, rows: nat, height: nat) {
    if rows == 0 then count + 3 < height else height >= 3 || (height == 2 && count == 0)
  }

  /** Every redraw has room for its frame, and the terminal is taller than the frame still on it. */
  ghost predicate AlwaysHasRoom(u: PromptKeys.Session, prev: nat, hs: seq<Happening>)
    decreases |hs|
  {
    hs == [] ||
    (if Redraws(u, hs[0]) then
       && prev < hs[0].height
       && HasRoom(|u.state.items|, hs[0].rows, hs[0].height)
       && AlwaysHasRoom(SessionAfter(u, hs[0]), |hs[0].lines|, hs[1..])
     else AlwaysHasRoom(SessionAfter(u, hs[0]), prev, hs[1..]))
  }

  function DrawsOf(u: PromptKeys.Session, hs: seq<Happening>): seq<Repainting>
    decreases |hs|
  {
    if hs == [] then []
    else (if Redraws(u, hs[0]) then [Repainting(hs[0].lines, hs[0].height)] else []) + DrawsOf(SessionAfter(u, hs[0]), hs[1..])
  }

  lemma {:induction false} AfterIsDrawAll(p: Prompt, hs: seq<Happening>)
    requires p.screen.cursor <= |p.screen.tape|
    ensures DrawAll(p.screen, p.prevLineCount, DrawsOf(p.session, hs)) == (After(p, hs).screen, After(p, hs).prevLineCount)
    decreases |hs|
  {
    if hs != [] {
      var rest := DrawsOf(SessionAfter(p.session, hs[0]), hs[1..]);
      AfterIsDrawAll(Next(p, hs[0]), hs[1..]);
      if Redraws(p.session, hs[0]) {
        assert ([Repainting(hs[0].lines, hs[0].height)] + rest)[1..] == rest;
      } else {
        assert [] + rest == rest;
      }
    }
  }

  lemma {:induction false} RenderingHasRoom(v: View, columns: Option<int>, rows: nat, height: nat, lines: seq<Text>)
    requires IsRendering(v, columns, rows, lines) && (rows == 0 || rows == height) && height > 0
    ensures |lines| < height <==> HasRoom(v.count, rows, height)
  {
    if rows > 0 {
      FrameLeavesARow(v, rows);
    }
  }

  lemma {:induction false} RoomIsEnough(words: Words, u: PromptKeys.Session, prev: nat, hs: seq<Happening>)
    requires IsHistory(words, u, hs) && ReportsTruly(hs)
    ensures NeverTooTall(prev, DrawsOf(u, hs)) <==> AlwaysHasRoom(u, prev, hs)
    decreases |hs|
  {
    if hs != [] {
      var h, u1 := hs[0], SessionAfter(u, hs[0]);
      var rest := DrawsOf(u1, hs[1..]);
      assert ReportsTruly(hs[1..]);
      if Redraws(u, h) {
        var all := [Repainting(h.lines, h.height)] + rest;
        assert all[1..] == rest;
        SameItems(u, h);
        RenderingHasRoom(ViewOf(words, u1.state), h.columns, h.rows, h.height, h.lines);
        RoomIsEnough(words, u1, |h.lines|, hs[1..]);
      } else {
        assert [] + rest == rest;
        RoomIsEnough(words, u1, prev, hs[1..]);
      }
    }
  }

  lemma {:induction false} SameItems(u: PromptKeys.Session, h: Happening)
    ensures SessionAfter(u, h).state.items == u.state.items
  {
    if h.read.Some? {
      PromptKeys.ReduceKeepsItems(u.state, PromptKeys.DecodeStream(h.read.value, u.carry).0);
    }
  }

  /** What `h` wrote is the latest frame, and renders the state the prompt is in now for the size `h` saw. */
  ghost predicate IsShown(words: Words, p: Prompt, h: Happening) {
    |h.lines| == p.prevLineCount && IsRendering(ViewOf(words, p.session.state), h.columns, h.rows, h.lines)
  }

  /** `last` is the last redraw among `hs`, or `earlier` if there is none. */
  ghost predicate IsLastRedraw(u: PromptKeys.Session, hs: seq<Happening>, earlier: Option<Happening>, last: Option<Happening>) {
    var draws := DrawsOf(u, hs);
    if draws == [] then last == earlier
    else last.Some? && last.value in hs && draws[|draws| - 1] == Repainting(last.value.lines, last.value.height)
  }

  lemma {:induction false} LastRedrawStep(u: PromptKeys.Session, hs: seq<Happening>, earlier: Option<Happening>, last: Option<Happening>)
    requires hs != []
    requires IsLastRedraw(SessionAfter(u, hs[0]), hs[1..], if Redraws(u, hs[0]) then Some(hs[0]) else earlier, last)
    ensures IsLastRedraw(u, hs, earlier, last)
  {
    var tail := hs[1..];
    var rest := DrawsOf(SessionAfter(u, hs[0]), tail);
    var first := if Redraws(u, hs[0]) then [Repainting(hs[0].lines, hs[0].height)] else [];
    assert DrawsOf(u, hs) == first + rest;
    if rest != [] {
      var i :| 0 <= i < |tail| && tail[i] == last.value;
      assert hs[i + 1] == last.value;
    } else if Redraws(u, hs[0]) {
      assert hs[0] == last.value;
    }
  }

  lemma {:induction false} LastDrawIsCurrent(words: Words, p: Prompt, hs: seq<Happening>, earlier: Option<Happening>)
    returns (last: Option<Happening>)
    requires p.screen.cursor <= |p.screen.tape| && IsHistory(words, p.session, hs)
    requires earlier.Some? ==> IsShown(words, p, earlier.value)
    ensures IsLastRedraw(p.session, hs, earlier, last)
    ensures last.Some? ==> IsShown(words, After(p, hs), last.value)
    decreases |hs|
  {
    last := earlier;
    if hs != [] {
      var latest := if Redraws(p.session, hs[0]) then Some(hs[0]) else earlier;
      ShownNext(words, p, hs[0], earlier);
      last := LastDrawIsCurrent(words, Next(p, hs[0]), hs[1..], latest);
      LastRedrawStep(p.session, hs, earlier, last);
    }
  }

  lemma {:induction false} ShownNext(words: Words, p: Prompt, h: Happening, earlier: Option<Happening>)
    requires p.screen.cursor <= |p.screen.tape|
    requires Redraws(p.session, h) ==> IsRendering(ViewOf(words, SessionAfter(p.session, h).state), h.columns, h.rows, h.lines)
    requires earlier.Some? ==> IsShown(words, p, earlier.value)
    ensures var latest := if Redraws(p.session, h) then Some(h) else earlier;
            latest.Some? ==> IsShown(words, Next(p, h), latest.value)
    ensures Next(p, h).session == SessionAfter(p.session, h)
  {
    if !Redraws(p.session, h) {
      QuietKeepsState(p.session, h);
    }
  }

  lemma {:induction false} QuietKeepsState(u: PromptKeys.Session, h: Happening)
    requires !Redraws(u, h)
    ensures SessionAfter(u, h).state == u.state
  {}

  /**
   * Over every sequence of reads and resizes of a prompt: the screen shows exactly the current frame,
   * rendered for the size last seen, where the prompt began, if and only if every redraw had room; and
   * then the lines above it are untouched. The frame shows the items of its window, the cursor's among them.
   */
  lemma {:induction false} PromptShowsItsFrame(words: Words, p: Prompt, hs: seq<Happening>) returns (last: Happening)
    requires IsPainted(p.screen, p.screen.cursor, []) && p.prevLineCount == 0
    requires IsHistory(words, p.session, hs) && ReportsTruly(hs) && DrawsOf(p.session, hs) != []
    ensures last in hs && IsShown(words, After(p, hs), last)
    ensures ShowsItsItems(ViewOf(words, After(p, hs).session.state), last.columns, last.rows, last.lines)
    ensures IsPainted(After(p, hs).screen, p.screen.cursor, last.lines) <==> AlwaysHasRoom(p.session, 0, hs)
    ensures AlwaysHasRoom(p.session, 0, hs) ==>
              After(p, hs).screen.tape[..p.screen.cursor] == p.screen.tape[..p.screen.cursor]
  {
    var found := LastDrawIsCurrent(words, p, hs, None);
    last := found.value;
    RenderingShowsItsItems(ViewOf(words, After(p, hs).session.state), last.columns, last.rows, last.lines);
    AfterIsDrawAll(p, hs);
    RoomIsEnough(words, p.session, 0, hs);
    ScreenShowsLastFrame(p.screen, p.screen.cursor, [], DrawsOf(p.session, hs));
  }

  // ----- the prompt object -----

  datatype Answer = Undecided | Abandoned | Chosen(ids: seq<Text>)

  /** The closure state of `checkboxPrompt`. */
  class CheckboxPrompt {
    const words: Words
    var state: PromptKeys.SelectState
    var prevLineCount: nat
    var carry: Text
    var listening: bool
    var answer: Answer
    var screen: Screen

    ghost predicate Valid()
      reads this
    {
      PromptKeys.CursorInv(state) && screen.cursor <= |screen.tape|
    }

    function Current(): Prompt
      reads this
    {
      Prompt(PromptKeys.Session(state, carry, listening), screen, prevLineCount)
    }

    constructor (items: seq<Text>, preChecked: set<Text>, single: bool, words: Words, screen: Screen)
      requires screen.cursor <= |screen.tape|
      ensures Valid() && this.words == words && answer.Undecided?
      ensures Current() == Prompt(PromptKeys.Session(PromptKeys.InitState(items, preChecked, single), [], true), screen, 0)
    {
      this.words, this.screen := words, screen;
      this.state := PromptKeys.InitState(items, preChecked, single);
      this.prevLineCount, this.carry, this.listening, this.answer := 0, [], true, Undecided;
    }

    /** `draw`, on a terminal that reports `columns` and `rows` and is `height` rows high. */
    method Draw(columns: Option<int>, rows: nat, height: nat) returns (lines: seq<Text>)
      requires Valid()
      modifies this`screen, this`prevLineCount
      ensures Valid()
      ensures IsRendering(ViewOf(words, state), columns, rows, lines)
      ensures screen == Drawn(Resized(old(screen), height), old(prevLineCount), lines, height) && prevLineCount == |lines|
    {
      lines := RenderLines(ViewOf(words, state), DrawWidth(columns), Some(rows));
      screen := PaintOver(Resized(screen, height), prevLineCount, lines, height);
      prevLineCount := |lines|;
    }

    /** The first `draw` and `onResize`, whose listener goes when the prompt ends. */
    method OnResize(columns: Option<int>, rows: nat, height: nat) returns (lines: seq<Text>)
      requires Valid()
      modifies this`screen, this`prevLineCount
      ensures Valid()
      ensures Current() == Next(old(Current()), Happening(None, columns, rows, height, lines))
      ensures listening ==> IsRendering(ViewOf(words, state), columns, rows, lines)
    {
      lines := [];
      if listening {
        lines := Draw(columns, rows, height);
      }
    }

    /** `onData`: every key of one read, one redraw, and the answer once the state is terminal. */
    method OnData(chunk: Text, columns: Option<int>, rows: nat, height: nat) returns (lines: seq<Text>)
      requires Valid()
      modifies this
      ensures Valid()
      ensures Current() == Next(old(Current()), Happening(Some(chunk), columns, rows, height, lines))
      ensures Redraws(old(Current()).session, Happening(Some(chunk), columns, rows, height, lines)) ==>
                IsRendering(ViewOf(words, state), columns, rows, lines)
      ensures if old(listening) && !listening
              then answer == if state.cancelled then Abandoned else Chosen(PromptKeys.Selection(state))
              else answer == old(answer)
    {
      lines := [];
      if !listening {
        return;
      }
      var (keys, rest) := PromptKeys.DecodeStream(chunk, carry);
      carry := rest;
      if keys == [] {
        return;
      }
      PromptKeys.ReduceKeepsCursor(state, keys);
      state := PromptKeys.ApplyKeys(state, keys);
      lines := Draw(columns, rows, height);
      if state.cancelled {
        listening, answer := false, Abandoned;
      } else if state.done {
        listening, answer := false, Chosen(PromptKeys.Selection(state));
      }
    }
  }
}
