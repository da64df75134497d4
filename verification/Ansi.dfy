/**
 * Column-accurate measuring and cutting (packages/cli/src/ansi.ts, `clamp` of prompt.ts).
 *
 * `DisplayWidth` measures by removing the colour sequences first and walking code points after;
 * `truncateToWidth` walks escapes and code points together. The scanner's measure is `ScanWidth`, and
 * the file relates the two.
 */
module Ansi {
  import opened Common

  const BRACKET: Unit := '[' as int
  const FINAL: Unit := 'm' as int
  const ELLIPSIS: Unit := 0x2026

  // ----- colour sequences: ESC [ (digit or ;)* m -----

  predicate IsParam(u: Unit) {
    '0' as int <= u <= '9' as int || u == ';' as int
  }

  /** Where the run of parameters that starts at `i` ends. */
  function ParamsEnd(t: Text, i: nat): (j: nat)
    requires i <= |t|
    ensures i <= j <= |t|
    decreases |t| - i
  {
    if i < |t| && IsParam(t[i]) then ParamsEnd(t, i + 1) else i
  }

  /** Length of the colour sequence `t` starts with; 0 if it starts with none. */
  function EscapeLength(t: Text): (n: nat)
    ensures n <= |t|
  {
    if |t| >= 2 && t[0] == ESC && t[1] == BRACKET then
      var j := ParamsEnd(t, 2);
      if j < |t| && t[j] == FINAL then j + 1 else 0
    else 0
  }

  /** `t` starts with a colour sequence of length `n`, said without the scan. */
  ghost predicate IsEscape(t: Text, n: nat) {
    && 3 <= n <= |t| && t[0] == ESC && t[1] == BRACKET && t[n - 1] == FINAL
    && forall k :: 2 <= k < n - 1 ==> IsParam(t[k])
  }

  lemma {:induction false} ParamsEndIs(t: Text, i: nat)
    requires i <= |t|
    ensures var j := ParamsEnd(t, i);
            (forall k :: i <= k < j ==> IsParam(t[k])) && (j < |t| ==> !IsParam(t[j]))
    decreases |t| - i
  {
    if i < |t| && IsParam(t[i]) {
      ParamsEndIs(t, i + 1);
    }
  }

  lemma {:induction false} EscapeShape(t: Text)
    requires EscapeLength(t) > 0
    ensures IsEscape(t, EscapeLength(t))
  {
    ParamsEndIs(t, 2);
  }

  lemma {:induction false} EscapeUnits(t: Text, n: nat, k: nat)
    requires IsEscape(t, n) && 1 <= k < n
    ensures t[k] == BRACKET || t[k] == FINAL || IsParam(t[k])
  {}

  lemma {:induction false} EscapeLengthIs(t: Text, n: nat)
    requires IsEscape(t, n)
    ensures EscapeLength(t) == n
  {
    ParamsEndIs(t, 2);
    var j := ParamsEnd(t, 2);
    assert j >= n - 1;
    assert j <= n - 1;
  }

  /** ansi.ts `stripAnsi`: every colour sequence removed, left to right. */
  function Strip(t: Text): Text
    decreases |t|
  {
    if t == [] then []
    else if EscapeLength(t) > 0 then Strip(t[EscapeLength(t)..])
    else [t[0]] + Strip(t[1..])
  }

  // ----- code points -----

  predicate IsHigh(u: Unit) {
    0xd800 <= u <= 0xdbff
  }

  predicate IsLow(u: Unit) {
    0xdc00 <= u <= 0xdfff
  }

  predicate StartsWithPair(t: Text) {
    |t| >= 2 && IsHigh(t[0]) && IsLow(t[1])
  }

  /** `t.codePointAt(0)`. */
  function PointAt(t: Text): int
    requires t != []
  {
    if StartsWithPair(t) then (t[0] as int - 0xd800) * 0x400 + (t[1] as int - 0xdc00) + 0x10000 else t[0]
  }

  /** The two halves of a code point beyond the first plane give it back. */
  lemma {:induction false} HalvesGiveThePoint(cp: int, t: Text)
    requires 0x10000 <= cp <= 0x10ffff
    ensures var high, low := 0xd800 + (cp - 0x10000) / 0x400, 0xdc00 + (cp - 0x10000) % 0x400;
            IsHigh(high) && IsLow(low) && StartsWithPair([high, low] + t) && PointAt([high, low] + t) == cp
  {
    var high, low := 0xd800 + (cp - 0x10000) / 0x400, 0xdc00 + (cp - 0x10000) % 0x400;
    assert ([high, low] + t)[0] == high && ([high, low] + t)[1] == low;
  }

  function PointLength(t: Text): nat
    requires t != []
  {
    if StartsWithPair(t) then 2 else 1
  }

  /** ansi.ts `codePointWidth`. */
  function PointWidth(cp: int): (w: nat)
    ensures w <= 2
  {
    if cp == 0x200d || 0x0300 <= cp <= 0x036f || 0xfe00 <= cp <= 0xfe0f then 0
    else if || 0x1100 <= cp <= 0x115f || 0x2e80 <= cp <= 0xa4cf || 0xac00 <= cp <= 0xd7a3
            || 0xf900 <= cp <= 0xfaff || 0xfe30 <= cp <= 0xfe6f || 0xff00 <= cp <= 0xff60
            || 0xffe0 <= cp <= 0xffe6 || 0x1f300 <= cp <= 0x1faff || 0x20000 <= cp <= 0x3fffd then 2
    else 1
  }

  /** The scripts the width is for: two columns for CJK, kana, Hangul, full-width forms and emoji, none for marks, one for Latin. */
  lemma {:induction false} WidthOfScripts(cp: int)
    requires 0x20 <= cp <= 0x10ffff
    ensures (|| 0x4e00 <= cp <= 0x9fff || 0x3040 <= cp <= 0x30ff || 0xac00 <= cp <= 0xd7a3
             || 0xff01 <= cp <= 0xff60 || 0x1f300 <= cp <= 0x1faff || 0x20000 <= cp <= 0x2ffff) ==> PointWidth(cp) == 2
    ensures (0x0300 <= cp <= 0x036f || 0xfe00 <= cp <= 0xfe0f || cp == 0x200d) ==> PointWidth(cp) == 0
    ensures (cp <= 0x24f || cp == ELLIPSIS) ==> PointWidth(cp) == 1
  {}

  function TextWidth(t: Text): nat
    decreases |t|
  {
    if t == [] then 0 else PointWidth(PointAt(t)) + TextWidth(t[PointLength(t)..])
  }

  /** Visible columns: colour costs nothing, wide characters cost two. */
  function DisplayWidth(t: Text): nat {
    TextWidth(Strip(t))
  }

  /** ansi.ts `displayWidth`. */
  method MeasureWidth(s: Text) returns (n: nat)
    ensures n == DisplayWidth(s)
  {
    n := 0;
    var rest := Strip(s);
    while rest != []
      invariant n + TextWidth(rest) == DisplayWidth(s)
      decreases |rest|
    {
      n := n + PointWidth(PointAt(rest));
      rest := rest[PointLength(rest)..];
    }
  }

  // ----- the scanner's tokens -----

  /** One token: a whole colour sequence or one code point. */
  function TokenLength(t: Text): (n: nat)
    requires t != []
    ensures 1 <= n <= |t|
  {
    if EscapeLength(t) > 0 then EscapeLength(t) else PointLength(t)
  }

  function TokenWidth(t: Text): (w: nat)
    requires t != []
    ensures w <= 2
  {
    if EscapeLength(t) > 0 then 0 else PointWidth(PointAt(t))
  }

  function ScanWidth(t: Text): nat
    decreases |t|
  {
    if t == [] then 0 else TokenWidth(t) + ScanWidth(t[TokenLength(t)..])
  }

  /** Some run of whole tokens of `s` ends at `i`. */
  ghost predicate IsBoundary(s: Text, i: nat)
    decreases |s|
  {
    i == 0 || (s != [] && TokenLength(s) <= i && IsBoundary(s[TokenLength(s)..], i - TokenLength(s)))
  }

  lemma {:induction false} NextBoundary(s: Text, i: nat)
    requires IsBoundary(s, i) && i < |s|
    ensures IsBoundary(s, i + TokenLength(s[i..]))
    decreases |s|
  {
    if i == 0 {
      assert s[0..] == s;
      assert IsBoundary(s[TokenLength(s)..], 0);
    } else {
      var m := TokenLength(s);
      assert s[m..][i - m..] == s[i..];
      NextBoundary(s[m..], i - m);
    }
  }

  lemma {:induction false} NextToken(s: Text, i: nat)
    requires i < |s|
    ensures i + TokenLength(s[i..]) <= |s|
    ensures ScanWidth(s[i..]) == TokenWidth(s[i..]) + ScanWidth(s[i + TokenLength(s[i..])..])
  {
    TakeMore(s, i, TokenLength(s[i..]));
  }

  // ----- a cut at a boundary damages nothing -----

  /** A surrogate pair is never split. */
  lemma {:induction false} BoundaryKeepsPairs(s: Text, i: nat)
    requires IsBoundary(s, i) && 0 < i < |s|
    ensures !(IsHigh(s[i - 1]) && IsLow(s[i]))
    decreases |s|
  {
    var m := TokenLength(s);
    if EscapeLength(s) > 0 {
      EscapeShape(s);
    }
    if m < i {
      BoundaryKeepsPairs(s[m..], i - m);
      assert s[m..][i - m - 1] == s[i - 1];
    }
  }

  /** A colour sequence that starts before the cut also ends before it. */
  lemma {:induction false} BoundaryKeepsEscapes(s: Text, i: nat, k: nat)
    requires IsBoundary(s, i) && k < i <= |s|
    ensures k + EscapeLength(s[k..]) <= i
    decreases |s|
  {
    var m := TokenLength(s);
    if k == 0 {
      assert s[0..] == s;
    } else if k < m {
      assert s[k..][0] == s[k];
      if EscapeLength(s) == 0 {
        assert IsLow(s[1]);
      } else {
        EscapeShape(s);
        assert k == 1 || k == m - 1 || IsParam(s[k]);
      }
    } else {
      BoundaryKeepsEscapes(s[m..], i - m, k - m);
      assert s[m..][k - m..] == s[k..];
    }
  }

  /** Text that cannot complete a token begun before it. */
  predicate IsInert(tail: Text) {
    tail == [] || (!IsLow(tail[0]) && !IsParam(tail[0]) && tail[0] != BRACKET && tail[0] != FINAL)
  }

  lemma {:induction false} EscapeSurvivesCut(s: Text, m: nat, tail: Text)
    requires s != [] && TokenLength(s) <= m <= |s| && IsInert(tail)
    ensures EscapeLength(s[..m] + tail) == EscapeLength(s)
  {
    var q := s[..m] + tail;
    var n, e := EscapeLength(s), EscapeLength(q);
    if n > 0 {
      EscapeShape(s);
      assert forall k :: 0 <= k < n ==> q[k] == s[k];
      EscapeLengthIs(q, n);
    } else if e > 0 {
      EscapeShape(q);
      if m < e {
        EscapeUnits(q, e, m);
      }
      assert forall k :: 0 <= k < e ==> q[k] == s[k];
      EscapeLengthIs(s, e);
    }
  }

  lemma {:induction false} TokenSurvivesCut(s: Text, m: nat, tail: Text)
    requires s != [] && TokenLength(s) <= m <= |s| && IsInert(tail)
    ensures TokenLength(s[..m] + tail) == TokenLength(s) && TokenWidth(s[..m] + tail) == TokenWidth(s)
  {
    var q := s[..m] + tail;
    EscapeSurvivesCut(s, m, tail);
    assert q[0] == s[0];
    if m >= 2 {
      assert q[1] == s[1];
    } else if |q| >= 2 {
      assert q[1] == tail[0];
    }
  }

  lemma {:induction false} ScanOfCut(s: Text, i: nat, tail: Text)
    requires IsBoundary(s, i) && i <= |s| && IsInert(tail)
    ensures ScanWidth(s[..i] + tail) + ScanWidth(s[i..]) == ScanWidth(s) + ScanWidth(tail)
    decreases |s|
  {
    if i == 0 {
      assert s[..0] + tail == tail && s[0..] == s;
    } else {
      var m := TokenLength(s);
      TokenSurvivesCut(s, i, tail);
      DropFromCut(s, m, i, tail);
      ScanOfCut(s[m..], i - m, tail);
    }
  }

  /** The tokens before a boundary and those after it share the scanner's width. */
  lemma {:induction false} ScanSplits(s: Text, i: nat)
    requires IsBoundary(s, i) && i <= |s|
    ensures ScanWidth(s) == ScanWidth(s[..i]) + ScanWidth(s[i..])
  {
    ScanOfCut(s, i, []);
    assert s[..i] + [] == s[..i];
  }

  // ----- the two measures -----

  lemma {:induction false} PairStrips(t: Text)
    requires StartsWithPair(t)
    ensures TextWidth(Strip(t)) == PointWidth(PointAt(t)) + TextWidth(Strip(t[2..]))
  {
    var rest := Strip(t[2..]);
    assert t[1..][1..] == t[2..];
    assert Strip(t) == [t[0]] + ([t[1]] + rest);
    var q := [t[0]] + ([t[1]] + rest);
    assert q[2..] == rest && q[0] == t[0] && q[1] == t[1];
  }

  /** `t` starts with a half that an escape severs from the other, and the whole is one column wide. */
  predicate LosesAColumn(t: Text) {
    && t != [] && EscapeLength(t) == 0 && !StartsWithPair(t)
    && var joined := [t[0]] + Strip(t[1..]);
       StartsWithPair(joined) && PointWidth(PointAt(joined)) == 1
  }

  /** How many one-column pairs of `t` are severed by an escape. */
  function ColumnsLost(t: Text): nat
    decreases |t|
  {
    if t == [] then 0 else ColumnsLost(t[TokenLength(t)..]) + if LosesAColumn(t) then 1 else 0
  }

  lemma {:induction false} LoneHalf(u: Unit, x: Text)
    ensures var joined := [u] + x;
            PointWidth(u) + TextWidth(x) == TextWidth(joined)
                                            + if StartsWithPair(joined) && PointWidth(PointAt(joined)) == 1 then 1 else 0
  {
    var joined := [u] + x;
    assert joined[1..] == x;
    if StartsWithPair(joined) {
      assert joined[2..] == x[1..];
      assert !StartsWithPair(x);
    }
  }

  /**
   * The scanner measures one column more than `displayWidth` for each severed one-column pair, and
   * otherwise the same: a severed pair that is two columns wide costs nothing.
   */
  lemma {:induction false} ScanBoundsDisplay(t: Text)
    ensures ScanWidth(t) == DisplayWidth(t) + ColumnsLost(t)
    decreases |t|
  {
    if t != [] {
      ScanBoundsDisplay(t[TokenLength(t)..]);
      if EscapeLength(t) == 0 {
        if StartsWithPair(t) {
          PairStrips(t);
        } else {
          LoneHalf(t[0], Strip(t[1..]));
        }
      }
    }
  }

  lemma {:induction false} LostHere(t: Text, i: nat)
    requires i < |t| && IsBoundary(t, i) && LosesAColumn(t[i..])
    ensures ColumnsLost(t) > 0
    decreases |t|
  {
    if i == 0 {
      assert t[0..] == t;
    } else {
      var m := TokenLength(t);
      assert t[m..][i - m..] == t[i..];
      LostHere(t[m..], i - m);
    }
  }

  lemma {:induction false} WhereLost(t: Text) returns (i: nat)
    requires ColumnsLost(t) > 0
    ensures i < |t| && IsBoundary(t, i) && LosesAColumn(t[i..])
    decreases |t|
  {
    if LosesAColumn(t) {
      i := 0;
      assert t[0..] == t;
    } else {
      var m := TokenLength(t);
      var k := WhereLost(t[m..]);
      i := m + k;
      assert t[m..][k..] == t[i..];
    }
  }

  /** The two measures agree if and only if no escape stands inside a one-column pair. */
  lemma {:induction false} MeasuresAgreeIff(t: Text)
    ensures DisplayWidth(t) == ScanWidth(t) <==> forall i :: 0 <= i < |t| && IsBoundary(t, i) ==> !LosesAColumn(t[i..])
  {
    ScanBoundsDisplay(t);
    if ColumnsLost(t) > 0 {
      var i := WhereLost(t);
    } else {
      forall i | 0 <= i < |t| && IsBoundary(t, i) ensures !LosesAColumn(t[i..]) {
        if LosesAColumn(t[i..]) {
          LostHere(t, i);
        }
      }
    }
  }

  // ----- cutting -----

  /** `i` is the last boundary of `s` within `budget` columns. */
  ghost predicate IsGreedyCut(s: Text, i: nat, budget: nat) {
    && i < |s| && IsBoundary(s, i)
    && ScanWidth(s[..i]) <= budget < ScanWidth(s[..i]) + TokenWidth(s[i..])
  }

  function AtLeastZero(n: int): nat {
    if n < 0 then 0 else n
  }

  const RESET: Text := [ESC, BRACKET, '0' as int, FINAL]

  lemma {:induction false} ResetIsInvisible()
    ensures ScanWidth(RESET) == 0 && IsInert(RESET)
  {
    EscapeLengthIs(RESET, 4);
    assert RESET[4..] == [];
  }

  lemma {:induction false} EllipsisWidth(s: Text, i: nat, tail: Text)
    requires IsBoundary(s, i) && i <= |s|
    requires tail == [ELLIPSIS] || tail == [ELLIPSIS] + RESET
    ensures DisplayWidth(s[..i] + tail) <= ScanWidth(s[..i]) + 1
  {
    ScanOfCut(s, i, tail);
    ScanSplits(s, i);
    ScanBoundsDisplay(s[..i] + tail);
    ResetIsInvisible();
    assert [ELLIPSIS][1..] == [] && ([ELLIPSIS] + RESET)[1..] == RESET;
  }

  /** What the first token contributes to the stripped text. */
  function VisiblePart(t: Text): Text
    requires t != []
  {
    if EscapeLength(t) > 0 then [] else t[..PointLength(t)]
  }

  lemma {:induction false} StripToken(t: Text)
    requires t != []
    ensures Strip(t) == VisiblePart(t) + Strip(t[TokenLength(t)..])
  {
    if EscapeLength(t) == 0 {
      if StartsWithPair(t) {
        assert t[1..][1..] == t[2..];
        assert Strip(t[1..]) == [t[1]] + Strip(t[2..]);
        Assoc([t[0]], [t[1]], Strip(t[2..]));
        assert [t[0]] + [t[1]] == t[..2];
      } else {
        assert [t[0]] == t[..1];
      }
    }
  }

  lemma {:induction false} StripTokenOfCut(s: Text, i: nat)
    requires s != [] && TokenLength(s) <= i <= |s|
    ensures Strip(s[..i]) == VisiblePart(s) + Strip(s[TokenLength(s)..][..i - TokenLength(s)])
  {
    var m := TokenLength(s);
    assert s[..i] + [] == s[..i];
    TokenSurvivesCut(s, i, []);
    EscapeSurvivesCut(s, i, []);
    assert s[..i][m..] == s[m..][..i - m];
    assert s[..i][..m] == s[..m];
    StripToken(s[..i]);
  }

  lemma {:induction false} StripSplits(s: Text, i: nat)
    requires IsBoundary(s, i) && i <= |s|
    ensures Strip(s) == Strip(s[..i]) + Strip(s[i..])
    decreases |s|
  {
    if i == 0 {
      assert s[..0] == [] && s[0..] == s;
    } else {
      var m := TokenLength(s);
      var a, b, c := VisiblePart(s), Strip(s[m..][..i - m]), Strip(s[i..]);
      assert s[m..][i - m..] == s[i..];
      StripSplits(s[m..], i - m);
      StripToken(s);
      StripTokenOfCut(s, i);
      Assoc(a, b, c);
    }
  }

  lemma {:induction false} WidthGrows(a: Text, b: Text)
    ensures TextWidth(a) <= TextWidth(a + b)
    decreases |a|
  {
    if a != [] {
      var n, all := PointLength(a), a + b;
      assert all[0] == a[0];
      if StartsWithPair(a) || !StartsWithPair(all) {
        assert all[n..] == a[n..] + b;
        WidthGrows(a[n..], b);
      } else {
        assert |a| == 1 && a[1..] == [];
      }
    }
  }

  lemma {:induction false} SamePrefix<T>(v: seq<T>, a: seq<T>, b: seq<T>)
    requires a <= b
    ensures v + a <= v + b
  {}

  /** A longer run of whole tokens only adds to the stripped text. */
  lemma {:induction false} StripGrows(s: Text, j: nat, k: nat)
    requires IsBoundary(s, j) && IsBoundary(s, k) && j <= k <= |s|
    ensures Strip(s[..j]) <= Strip(s[..k])
    decreases |s|
  {
    if j == 0 {
      assert s[..0] == [];
    } else {
      var m := TokenLength(s);
      var short, long := Strip(s[m..][..j - m]), Strip(s[m..][..k - m]);
      StripGrows(s[m..], j - m, k - m);
      SamePrefix(VisiblePart(s), short, long);
      StripTokenOfCut(s, j);
      StripTokenOfCut(s, k);
    }
  }

  lemma {:induction false} NoBoundaryInside(s: Text, i: nat, k: nat)
    requires IsBoundary(s, i) && IsBoundary(s, k) && i < k && i < |s|
    ensures i + TokenLength(s[i..]) <= k
    decreases |s|
  {
    var m := TokenLength(s);
    if i == 0 {
      assert s[0..] == s;
    } else {
      var rest := s[m..];
      assert IsBoundary(rest, i - m) && IsBoundary(rest, k - m);
      NoBoundaryInside(rest, i - m, k - m);
      DropTwice(s, m, i);
    }
  }

  lemma {:induction false} DropTwice<T>(s: seq<T>, m: nat, i: nat)
    requires m <= i <= |s|
    ensures s[m..][i - m..] == s[i..]
  {}

  /** No later boundary of `s` leaves a prefix that still fits. */
  ghost predicate IsMaximal(s: Text, i: nat, budget: nat)
    requires i <= |s|
  {
    && DisplayWidth(s[..i]) <= budget
    && forall k :: i < k <= |s| && IsBoundary(s, k) ==> DisplayWidth(s[..k]) > budget
  }

  lemma {:induction false} LaterIsWider(s: Text, j: nat, k: nat)
    requires IsBoundary(s, j) && IsBoundary(s, k) && j <= k <= |s|
    ensures DisplayWidth(s[..j]) <= DisplayWidth(s[..k])
  {
    var short, long := Strip(s[..j]), Strip(s[..k]);
    StripGrows(s, j, k);
    assert long == short + long[|short|..];
    WidthGrows(short, long[|short|..]);
  }

  lemma {:induction false} MaximalIffNextOverflows(s: Text, i: nat, j: nat, budget: nat)
    requires i < |s| && IsBoundary(s, i) && j == i + TokenLength(s[i..]) <= |s| && IsBoundary(s, j)
    requires DisplayWidth(s[..i]) <= budget
    ensures IsMaximal(s, i, budget) <==> DisplayWidth(s[..j]) > budget
  {
    if DisplayWidth(s[..j]) > budget {
      forall k | i < k <= |s| && IsBoundary(s, k) ensures DisplayWidth(s[..k]) > budget {
        NoBoundaryInside(s, i, k);
        LaterIsWider(s, j, k);
      }
    }
  }

  lemma {:induction false} GreedyOverflows(s: Text, i: nat, budget: nat)
    requires IsGreedyCut(s, i, budget)
    ensures var j := i + TokenLength(s[i..]);
            j <= |s| && IsBoundary(s, j) && ScanWidth(s[..j]) > budget
  {
    var j := i + TokenLength(s[i..]);
    var total, used := ScanWidth(s), ScanWidth(s[..i]);
    assert total == used + ScanWidth(s[i..]) by { ScanSplits(s, i); }
    assert j <= |s| && IsBoundary(s, j) by { NextToken(s, i); NextBoundary(s, i); }
    assert total == ScanWidth(s[..j]) + ScanWidth(s[j..]) by { ScanSplits(s, j); }
    NextToken(s, i);
  }

  /**
   * The cut keeps as much as fits if and only if, in the text up to the next token, escapes sever fewer
   * one-column pairs than that token overflows by; so always if they sever none.
   */
  lemma {:induction false} CutIsMaximal(s: Text, i: nat, budget: nat)
    requires IsGreedyCut(s, i, budget)
    ensures var j := i + TokenLength(s[i..]);
            && j <= |s|
            && (IsMaximal(s, i, budget) <==> ColumnsLost(s[..j]) < ScanWidth(s[..j]) - budget)
            && (ColumnsLost(s[..j]) == 0 ==> IsMaximal(s, i, budget))
  {
    var j := i + TokenLength(s[i..]);
    GreedyOverflows(s, i, budget);
    var before, with := s[..i], s[..j];
    ScanBoundsDisplay(before);
    ScanBoundsDisplay(with);
    MaximalIffNextOverflows(s, i, j, budget);
  }

  /** U+10000 cut in two by a colour sequence, then three letters. */
  const SEVERED: Text := [0xd800, ESC, BRACKET, FINAL, 0xdc00, 0x61, 0x61, 0x61]

  /** With a severed pair it need not be: cut for 3 columns, `SEVERED` keeps 2 although 3 would fit. */
  lemma {:induction false} SeveredPairWastesAColumn()
    ensures DisplayWidth(SEVERED) > 3
    ensures IsGreedyCut(SEVERED, 5, 2)
    ensures DisplayWidth(SEVERED[..5] + [ELLIPSIS]) == 2
    ensures IsBoundary(SEVERED, 6) && DisplayWidth(SEVERED[..6] + [ELLIPSIS]) == 3
  {
    SeveredStrips([0x61, 0x61, 0x61]);
    SeveredStrips([0x61, ELLIPSIS]);
    SeveredStrips([ELLIPSIS]);
    assert SEVERED == SEVERED[..5] + [0x61, 0x61, 0x61];
    assert SEVERED[..6] + [ELLIPSIS] == SEVERED[..5] + [0x61, ELLIPSIS];
    PlainWidth([0x61, 0x61, 0x61]);
    PlainWidth([0x61, ELLIPSIS]);
    PlainWidth([ELLIPSIS]);
    SeveredBoundaries();
  }

  lemma {:induction false} SeveredStrips(tail: Text)
    requires tail != [] && forall k :: 0 <= k < |tail| ==> tail[k] == 0x61 || tail[k] == ELLIPSIS
    ensures DisplayWidth(SEVERED[..5] + tail) == 1 + TextWidth(tail)
  {
    var low := [0xdc00] + tail;
    assert SEVERED[..5] + tail == [0xd800] + ([ESC, BRACKET, FINAL] + low);
    EscapeStrips(low);
    PlainStrip(low);
    LoneStrip(0xd800, [ESC, BRACKET, FINAL] + low);
    JoinedPairWidth(tail);
  }

  lemma {:induction false} JoinedPairWidth(tail: Text)
    ensures TextWidth([0xd800] + ([0xdc00] + tail)) == 1 + TextWidth(tail)
  {
    var t := [0xd800] + ([0xdc00] + tail);
    assert t[2..] == tail && PointAt(t) == 0x10000;
  }

  lemma {:induction false} LoneStrip(u: Unit, t: Text)
    requires u != ESC
    ensures Strip([u] + t) == [u] + Strip(t)
  {
    assert ([u] + t)[1..] == t;
  }

  lemma {:induction false} EscapeStrips(t: Text)
    ensures Strip([ESC, BRACKET, FINAL] + t) == Strip(t)
  {
    EscapeLengthIs([ESC, BRACKET, FINAL] + t, 3);
    assert ([ESC, BRACKET, FINAL] + t)[3..] == t;
  }

  lemma {:induction false} PlainStrip(t: Text)
    requires forall k :: 0 <= k < |t| ==> t[k] != ESC
    ensures Strip(t) == t
    decreases |t|
  {
    if t != [] {
      PlainStrip(t[1..]);
    }
  }

  lemma {:induction false} PlainWidth(t: Text)
    requires forall k :: 0 <= k < |t| ==> t[k] == 0x61 || t[k] == ELLIPSIS
    ensures TextWidth(t) == |t|
    decreases |t|
  {
    if t != [] {
      PlainWidth(t[1..]);
    }
  }

  lemma {:induction false} SeveredBoundaries()
    ensures IsGreedyCut(SEVERED, 5, 2) && IsBoundary(SEVERED, 6)
  {
    SeveredTokens();
    FourTokens(SEVERED);
  }

  lemma {:induction false} SeveredTokens()
    ensures TokenLength(SEVERED[0..]) == 1 && TokenWidth(SEVERED[0..]) == 1
    ensures TokenLength(SEVERED[1..]) == 3 && TokenWidth(SEVERED[1..]) == 0
    ensures TokenLength(SEVERED[4..]) == 1 && TokenWidth(SEVERED[4..]) == 1
    ensures TokenLength(SEVERED[5..]) == 1 && TokenWidth(SEVERED[5..]) == 1
  {
    EscapeLengthIs(SEVERED[1..], 3);
  }

  lemma {:induction false} FourTokens(s: Text)
    requires |s| == 8
    requires TokenLength(s[0..]) == 1 && TokenWidth(s[0..]) == 1
    requires TokenLength(s[1..]) == 3 && TokenWidth(s[1..]) == 0
    requires TokenLength(s[4..]) == 1 && TokenWidth(s[4..]) == 1
    requires TokenLength(s[5..]) == 1 && TokenWidth(s[5..]) == 1
    ensures IsGreedyCut(s, 5, 2) && IsBoundary(s, 6)
  {
    NextBoundary(s, 0);
    NextBoundary(s, 1);
    NextBoundary(s, 4);
    NextBoundary(s, 5);
    NextToken(s, 0);
    NextToken(s, 1);
    NextToken(s, 4);
    ScanSplits(s, 5);
    assert s[0..] == s;
  }

  /** `r` is what is left of a text too wide for `width`: its greedy prefix and an ellipsis. */
  ghost predicate IsCut(s: Text, width: int, r: Text) {
    if width <= 0 then r == []
    else if width == 1 then r == [ELLIPSIS]
    else exists i: nat :: IsGreedyCut(s, i, width - 1) && r == s[..i] + [ELLIPSIS]
  }

  /** ansi.ts `truncateToWidth`. */
  method TruncateToWidth(s: Text, width: int) returns (r: Text)
    ensures DisplayWidth(r) <= AtLeastZero(width)
    ensures if DisplayWidth(s) <= width then r == s else IsCut(s, width, r)
  {
    var columns := MeasureWidth(s);
    if columns <= width {
      return s;
    }
    if width <= 0 {
      return [];
    }
    if width == 1 {
      EllipsisWidth([], 0, [ELLIPSIS]);
      assert [] + [ELLIPSIS] == [ELLIPSIS];
      return [ELLIPSIS];
    }
    ScanBoundsDisplay(s);
    var i := CutPosition(s, width - 1);
    r := s[..i] + [ELLIPSIS];
    EllipsisWidth(s, i, [ELLIPSIS]);
  }

  /** The scanner has read whole tokens up to `i`, `used` columns of `total`. */
  ghost predicate IsScanned(s: Text, i: nat, used: nat, total: nat) {
    i <= |s| && IsBoundary(s, i) && used + ScanWidth(s[i..]) == total == ScanWidth(s)
  }

  lemma {:induction false} ScanEnds(s: Text, used: nat, total: nat)
    ensures IsScanned(s, 0, 0, ScanWidth(s))
    ensures IsScanned(s, |s|, used, total) ==> used == total
  {
    assert s[0..] == s && s[|s|..] == [];
  }

  /** One turn of the scanning loop: the next token, taken or left. */
  lemma {:induction false} ScanTurn(s: Text, i: nat, used: nat, total: nat, budget: nat)
    requires i < |s| && IsScanned(s, i, used, total) && used <= budget
    ensures var n, w := TokenLength(s[i..]), TokenWidth(s[i..]);
            && i + n <= |s| && IsScanned(s, i + n, used + w, total)
            && s[..i + n] == s[..i] + s[i..][..n]
            && (used + w > budget ==> IsGreedyCut(s, i, budget))
  {
    ScanSplits(s, i);
    NextBoundary(s, i);
    NextToken(s, i);
    TakeMore(s, i, TokenLength(s[i..]));
  }

  /** An escape is copied whole and costs nothing; anything else is one code point. */
  method NextTokenOf(rest: Text) returns (n: nat, w: nat)
    requires rest != []
    ensures n == TokenLength(rest) && w == TokenWidth(rest)
  {
    var escape := EscapeLength(rest);
    if escape > 0 {
      return escape, 0;
    }
    n, w := PointLength(rest), PointWidth(PointAt(rest));
  }

  /** The scanning loop of `truncateToWidth`; `out` is the text copied so far. */
  method CutPosition(s: Text, budget: nat) returns (i: nat)
    requires ScanWidth(s) > budget
    ensures IsGreedyCut(s, i, budget)
  {
    var out: Text := [];
    var used: nat := 0;
    i := 0;
    ghost var total := ScanWidth(s);
    ScanEnds(s, used, total);
    while i < |s|
      invariant i <= |s| && out == s[..i]
      invariant used <= budget && IsScanned(s, i, used, total)
    {
      var rest := s[i..];
      var n, w := NextTokenOf(rest);
      ScanTurn(s, i, used, total, budget);
      if used + w > budget {
        return;
      }
      used := used + w;
      out := out + rest[..n];
      i := i + n;
    }
    ScanEnds(s, used, total);
    assert false;
  }

  // ----- clamp -----

  /** `r` is `line` made to fit: the line itself, or a cut of it with the colours reset. */
  ghost predicate IsClamped(line: Text, width: nat, r: Text) {
    && DisplayWidth(r) <= width
    && if DisplayWidth(line) <= width then r == line else exists cut :: IsCut(line, width, cut) && r == cut + RESET
  }

  /** prompt.ts `clamp`: a line never takes more columns than the terminal has. */
  method Clamp(line: Text, width: nat) returns (r: Text)
    ensures IsClamped(line, width, r)
  {
    var columns := MeasureWidth(line);
    if columns <= width {
      return line;
    }
    var cut := TruncateToWidth(line, width);
    r := cut + RESET;
    ResetCut(line, width, cut);
  }

  lemma {:induction false} ResetCut(line: Text, width: nat, cut: Text)
    requires IsCut(line, width, cut)
    ensures DisplayWidth(cut + RESET) <= width
  {
    if width == 0 {
      assert cut + RESET == RESET;
      ResetIsInvisible();
      ScanBoundsDisplay(RESET);
    } else if width == 1 {
      EllipsisWidth([], 0, [ELLIPSIS] + RESET);
      assert cut + RESET == [] + ([ELLIPSIS] + RESET);
    } else {
      var i: nat :| IsGreedyCut(line, i, width - 1) && cut == line[..i] + [ELLIPSIS];
      EllipsisWidth(line, i, [ELLIPSIS] + RESET);
      Assoc(line[..i], [ELLIPSIS], RESET);
    }
  }
}
