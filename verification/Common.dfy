/** Small shared vocabulary: optional values and JavaScript text. */
module Common {

  datatype Option<+T> = None | Some(value: T)

  /** A UTF-16 code unit: what `s[i]` and `s.length` are about in JavaScript. */
  type Unit = u: int | 0 <= u < 0x10000

  /** A JavaScript string; lone surrogates are ordinary elements. */
  type Text = seq<Unit>

  const LF: Unit := 0x0a
  const CR: Unit := 0x0d
  const ESC: Unit := 0x1b

  /** The text of an ASCII literal. */
  function Ascii(s: string): (t: Text)
    requires forall i :: 0 <= i < |s| ==> s[i] < 128 as char
    ensures |t| == |s|
    ensures forall i :: 0 <= i < |s| ==> t[i] == s[i] as int
  {
    seq(|s|, i requires 0 <= i < |s| => s[i] as int)
  }

  /** The white space and line terminators that `String.prototype.trim` removes. */
  predicate IsSpace(u: Unit) {
    || 0x09 <= u <= 0x0d || u == 0x20 || u == 0xa0 || u == 0x1680 || 0x2000 <= u <= 0x200a
    || u == 0x2028 || u == 0x2029 || u == 0x202f || u == 0x205f || u == 0x3000 || u == 0xfeff
  }

  function Trim(t: Text): Text {
    if t != [] && IsSpace(t[0]) then Trim(t[1..])
    else if t != [] && IsSpace(t[|t| - 1]) then Trim(t[..|t| - 1])
    else t
  }

  ghost predicate IsBlank(t: Text) {
    forall i :: 0 <= i < |t| ==> IsSpace(t[i])
  }

  /** `t` is `m` between white space. */
  ghost predicate IsAmong(t: Text, a: Text, m: Text, b: Text) {
    t == a + m + b && IsBlank(a) && IsBlank(b)
  }

  lemma {:induction false} AmongFront(t: Text, a: Text, m: Text, b: Text)
    requires t != [] && IsSpace(t[0]) && IsAmong(t[1..], a, m, b)
    ensures IsAmong(t, [t[0]] + a, m, b)
  {
    assert t == [t[0]] + (a + m + b);
  }

  lemma {:induction false} AmongBack(t: Text, a: Text, m: Text, b: Text)
    requires t != [] && IsSpace(t[|t| - 1]) && IsAmong(t[..|t| - 1], a, m, b)
    ensures IsAmong(t, a, m, b + [t[|t| - 1]])
  {
    assert t == (a + m + b) + [t[|t| - 1]];
  }

  /** What is trimmed off is white space, and what is left neither begins nor ends with any. */
  lemma {:induction false} TrimIs(t: Text) returns (a: Text, b: Text)
    ensures IsAmong(t, a, Trim(t), b)
    ensures Trim(t) != [] ==> !IsSpace(Trim(t)[0]) && !IsSpace(Trim(t)[|Trim(t)| - 1])
    decreases |t|
  {
    a, b := [], [];
    if t != [] && IsSpace(t[0]) {
      a, b := TrimIs(t[1..]);
      AmongFront(t, a, Trim(t), b);
      a := [t[0]] + a;
    } else if t != [] && IsSpace(t[|t| - 1]) {
      a, b := TrimIs(t[..|t| - 1]);
      AmongBack(t, a, Trim(t), b);
      b := b + [t[|t| - 1]];
    } else {
      assert t == [] + t + [];
    }
  }

  /** Concatenation of a list of pieces, in order. */
  function Concat<T>(pieces: seq<seq<T>>): seq<T> {
    if pieces == [] then [] else pieces[0] + Concat(pieces[1..])
  }

  lemma {:induction false} ConcatSnoc<T>(pieces: seq<seq<T>>, last: seq<T>)
    ensures Concat(pieces + [last]) == Concat(pieces) + last
  {
    if pieces == [] {
      assert pieces + [last] == [last];
    } else {
      assert (pieces + [last])[1..] == pieces[1..] + [last];
      ConcatSnoc(pieces[1..], last);
    }
  }

  lemma {:induction false} Assoc<T>(a: seq<T>, b: seq<T>, c: seq<T>)
    ensures a + (b + c) == (a + b) + c
  {}

  /** What `pick` finds in each element, in order. */
  function Gather<E, T>(xs: seq<E>, pick: E -> seq<T>): seq<T> {
    if xs == [] then [] else Gather(xs[..|xs| - 1], pick) + pick(xs[|xs| - 1])
  }

  lemma {:induction false} GatherAppend<E, T>(a: seq<E>, b: seq<E>, pick: E -> seq<T>)
    ensures Gather(a + b, pick) == Gather(a, pick) + Gather(b, pick)
    decreases |b|
  {
    if b == [] {
      assert a + b == a;
    } else {
      var b0 := b[..|b| - 1];
      assert (a + b)[..|a + b| - 1] == a + b0;
      GatherAppend(a, b0, pick);
      Assoc(Gather(a, pick), Gather(b0, pick), pick(b[|b| - 1]));
    }
  }

  lemma {:induction false} GatherNothing<E, T>(xs: seq<E>, pick: E -> seq<T>)
    requires forall i :: 0 <= i < |xs| ==> pick(xs[i]) == []
    ensures Gather(xs, pick) == []
  {
    if xs != [] {
      GatherNothing(xs[..|xs| - 1], pick);
    }
  }

  /** Only position `k` has anything to pick. */
  lemma {:induction false} GatherAt<E, T>(xs: seq<E>, pick: E -> seq<T>, k: nat)
    requires k < |xs| && forall i :: 0 <= i < |xs| && i != k ==> pick(xs[i]) == []
    ensures Gather(xs, pick) == pick(xs[k])
  {
    if k == |xs| - 1 {
      GatherNothing(xs[..k], pick);
    } else {
      GatherAt(xs[..|xs| - 1], pick, k);
    }
  }

  lemma {:induction false} GatherThree<E, T>(a: E, b: E, c: E, pick: E -> seq<T>)
    ensures Gather([a, b, c], pick) == pick(a) + pick(b) + pick(c)
  {
    var one: seq<E>, two: seq<E>, three: seq<E> := [a], [a, b], [a, b, c];
    assert three[..2] == two && two[..1] == one && one[..0] == [];
    assert Gather(one, pick) == [] + pick(a) == pick(a);
  }

  /** Some element satisfies `p`. */
  ghost predicate Has<T>(xs: seq<T>, p: T -> bool) {
    exists i :: 0 <= i < |xs| && p(xs[i])
  }

  lemma {:induction false} HasAppend<T>(a: seq<T>, b: seq<T>, p: T -> bool)
    ensures Has(a + b, p) <==> Has(a, p) || Has(b, p)
  {
    var all := a + b;
    if i :| 0 <= i < |a| && p(a[i]) {
      assert p(all[i]);
    }
    if i :| 0 <= i < |b| && p(b[i]) {
      assert p(all[|a| + i]);
    }
    if i :| 0 <= i < |all| && p(all[i]) {
      assert if i < |a| then p(a[i]) else p(b[i - |a|]);
    }
  }

  lemma {:induction false} ConsSnoc<T>(x: T, xs: seq<T>, ys: seq<T>, last: T)
    requires [x] + xs == ys + [last] && xs != []
    ensures ys != [] && ys[0] == x && xs == ys[1..] + [last]
  {
    assert |ys| == |xs|;
    assert ys[0] == (ys + [last])[0] == x;
    assert xs == ([x] + xs)[1..];
    assert (ys + [last])[1..] == ys[1..] + [last];
  }

  lemma {:induction false} TakeMore<T>(s: seq<T>, i: nat, n: nat)
    requires i + n <= |s|
    ensures s[..i + n] == s[..i] + s[i..][..n] && s[i..][n..] == s[i + n..]
  {}

  lemma {:induction false} DropFromCut<T>(s: seq<T>, m: nat, i: nat, tail: seq<T>)
    requires m <= i <= |s|
    ensures (s[..i] + tail)[m..] == s[m..][..i - m] + tail && s[m..][i - m..] == s[i..]
  {}

  /** The decimal digits of a number, as a template literal prints it. */
  function Decimal(n: nat): (t: Text)
    ensures t != []
  {
    if n < 10 then ['0' as int + n] else Decimal(n / 10) + ['0' as int + n % 10]
  }

  /** The number that decimal digits stand for. */
  function DigitsValue(t: Text): int {
    if t == [] then 0 else 10 * DigitsValue(t[..|t| - 1]) + (t[|t| - 1] - '0' as int)
  }

  lemma {:induction false} DecimalReadsBack(n: nat)
    ensures DigitsValue(Decimal(n)) == n
  {
    var t := Decimal(n);
    if n < 10 {
      assert t[..0] == [];
    } else {
      DecimalReadsBack(n / 10);
      assert t[..|t| - 1] == Decimal(n / 10);
    }
  }

  lemma {:induction false} DecimalIsInjective(m: nat, n: nat)
    requires Decimal(m) == Decimal(n)
    ensures m == n
    decreases m
  {
    var dm, dn := Decimal(m), Decimal(n);
    assert dm[|dm| - 1] == '0' as int + m % 10;
    assert dn[|dn| - 1] == '0' as int + n % 10;
    if m >= 10 && n >= 10 {
      assert Decimal(m / 10) == dm[..|dm| - 1] == dn[..|dn| - 1] == Decimal(n / 10);
      DecimalIsInjective(m / 10, n / 10);
    }
  }

  lemma {:induction false} DecimalHasOnlyDigits(n: nat)
    ensures forall i :: 0 <= i < |Decimal(n)| ==> '0' as int <= Decimal(n)[i] <= '9' as int
  {
    if n >= 10 {
      DecimalHasOnlyDigits(n / 10);
    }
  }
}
