/**
 * The edit distance behind "did you mean" (packages/cli/src/cli.ts).
 *
 * `Dist` is the recurrence of the table, shortcut included. It is connected to the thing the name
 * promises, the length of the shortest script of single-element edits, and shown to be a metric.
 */
module EditDistance {
  import opened Common

  // ----- reference: scripts of single edits -----

  datatype Edit<T> = Insert(at: nat, c: T) | Delete(at: nat) | Substitute(at: nat, c: T)

  predicate Applies<T>(e: Edit<T>, s: seq<T>) {
    match e
    case Insert(at, _) => at <= |s|
    case Delete(at) => at < |s|
    case Substitute(at, _) => at < |s|
  }

  function Apply<T>(e: Edit<T>, s: seq<T>): seq<T>
    requires Applies(e, s)
  {
    match e
    case Insert(at, c) => s[..at] + [c] + s[at..]
    case Delete(at) => s[..at] + s[at + 1..]
    case Substitute(at, c) => s[..at] + [c] + s[at + 1..]
  }

  /** Performing the edits of `script` one after the other turns `a` into `b`. */
  ghost predicate Turns<T>(script: seq<Edit<T>>, a: seq<T>, b: seq<T>)
    decreases |script|
  {
    if script == [] then a == b
    else Applies(script[0], a) && Turns(script[1..], Apply(script[0], a), b)
  }

  /** `d` is the least number of edits that turns `a` into `b`. */
  ghost predicate IsEditDistance<T(!new)>(a: seq<T>, b: seq<T>, d: nat) {
    && (exists script :: Turns(script, a, b) && |script| == d)
    && (forall script :: Turns(script, a, b) ==> d <= |script|)
  }

  // ----- the recurrence -----

  function Min3(x: nat, y: nat, z: nat): nat {
    if x <= y && x <= z then x else if y <= z then y else z
  }

  function Init<T>(s: seq<T>): seq<T>
    requires s != []
  {
    s[..|s| - 1]
  }

  function Last<T>(s: seq<T>): T
    requires s != []
  {
    s[|s| - 1]
  }

  /** What the table holds for the pair of prefixes `a`, `b`. */
  function Dist<T(==)>(a: seq<T>, b: seq<T>): nat
    decreases |a| + |b|
  {
    if a == [] then |b|
    else if b == [] then |a|
    else if Last(a) == Last(b) then Dist(Init(a), Init(b))
    else 1 + Min3(Dist(Init(a), b), Dist(a, Init(b)), Dist(Init(a), Init(b)))
  }

  // ----- neighbouring cells differ by at most one -----

  lemma {:induction false} NeighboursWithinOne<T>(a: seq<T>, b: seq<T>)
    ensures a != [] ==> Dist(a, b) <= Dist(Init(a), b) + 1 && Dist(Init(a), b) <= Dist(a, b) + 1
    ensures b != [] ==> Dist(a, b) <= Dist(a, Init(b)) + 1 && Dist(a, Init(b)) <= Dist(a, b) + 1
    decreases |a| + |b|
  {
    if a != [] && b != [] {
      NeighboursWithinOne(Init(a), Init(b));
      NeighboursWithinOne(Init(a), b);
      NeighboursWithinOne(a, Init(b));
    }
  }

  function SubstitutionCost<T(==)>(x: T, y: T): nat {
    if x == y then 0 else 1
  }

  /** The equal-character shortcut loses nothing: `Dist` satisfies the full three-way recurrence. */
  lemma {:induction false} ShortcutIsExact<T>(a: seq<T>, b: seq<T>)
    requires a != [] && b != []
    ensures Dist(a, b) <= Dist(Init(a), b) + 1
    ensures Dist(a, b) <= Dist(a, Init(b)) + 1
    ensures Dist(a, b) <= Dist(Init(a), Init(b)) + SubstitutionCost(Last(a), Last(b))
    ensures || Dist(a, b) == Dist(Init(a), b) + 1
            || Dist(a, b) == Dist(a, Init(b)) + 1
            || Dist(a, b) == Dist(Init(a), Init(b)) + SubstitutionCost(Last(a), Last(b))
  {
    NeighboursWithinOne(a, b);
  }

  // ----- metric -----

  lemma {:induction false} DistZeroIffEqual<T>(a: seq<T>, b: seq<T>)
    ensures Dist(a, b) == 0 <==> a == b
    decreases |a| + |b|
  {
    if a != [] && b != [] {
      DistZeroIffEqual(Init(a), Init(b));
      assert a == Init(a) + [Last(a)] && b == Init(b) + [Last(b)];
    }
  }

  lemma {:induction false} DistSymmetric<T>(a: seq<T>, b: seq<T>)
    ensures Dist(a, b) == Dist(b, a)
    decreases |a| + |b|
  {
    if a != [] && b != [] {
      DistSymmetric(Init(a), Init(b));
      DistSymmetric(Init(a), b);
      DistSymmetric(a, Init(b));
    }
  }

  lemma {:induction false} LengthGap<T>(a: seq<T>, b: seq<T>)
    ensures |a| <= |b| + Dist(a, b) && |b| <= |a| + Dist(a, b)
    decreases |a| + |b|
  {
    if a != [] && b != [] {
      LengthGap(Init(a), Init(b));
      LengthGap(Init(a), b);
      LengthGap(a, Init(b));
    }
  }

  lemma {:induction false} TriangleInequality<T>(a: seq<T>, b: seq<T>, c: seq<T>)
    ensures Dist(a, c) <= Dist(a, b) + Dist(b, c)
    decreases |a| + |b| + |c|
  {
    if a == [] || b == [] || c == [] {
      LengthGap(a, b);
      LengthGap(b, c);
      DistAtMostSum(a, c);
    } else {
      ShortcutIsExact(a, b);
      ShortcutIsExact(b, c);
      ShortcutIsExact(a, c);
      if Dist(a, b) == Dist(Init(a), b) + 1 {
        TriangleInequality(Init(a), b, c);
      } else if Dist(b, c) == Dist(b, Init(c)) + 1 {
        TriangleInequality(a, b, Init(c));
      } else if Dist(a, b) == Dist(a, Init(b)) + 1 && Dist(b, c) == Dist(Init(b), c) + 1 {
        TriangleInequality(a, Init(b), c);
      } else if Dist(a, b) == Dist(a, Init(b)) + 1 {
        TriangleInequality(a, Init(b), Init(c));
      } else if Dist(b, c) == Dist(Init(b), c) + 1 {
        TriangleInequality(Init(a), Init(b), c);
      } else {
        TriangleInequality(Init(a), Init(b), Init(c));
      }
    }
  }

  lemma {:induction false} DistAtMostSum<T>(a: seq<T>, b: seq<T>)
    ensures Dist(a, b) <= |a| + |b|
    decreases |a| + |b|
  {
    if a != [] && b != [] {
      DistAtMostSum(Init(a), b);
      DistAtMostSum(Init(a), Init(b));
    }
  }

  // ----- Dist is the length of a shortest script -----

  lemma {:induction false} CommonSuffix<T>(x: seq<T>, y: seq<T>, t: seq<T>)
    ensures Dist(x + t, y + t) == Dist(x, y)
    decreases |t|
  {
    if t == [] {
      assert x + t == x && y + t == y;
    } else {
      assert Init(x + t) == x + Init(t) && Init(y + t) == y + Init(t);
      CommonSuffix(x, y, Init(t));
    }
  }

  lemma {:induction false} OneEditIsDistanceOne<T>(e: Edit<T>, s: seq<T>)
    requires Applies(e, s)
    ensures Dist(s, Apply(e, s)) <= 1
  {
    var p := s[..e.at];
    DistZeroIffEqual(p, p);
    match e {
      case Insert(at, c) =>
        assert s == p + s[at..];
        assert Init(p + [c]) == p;
        NeighboursWithinOne(p, p + [c]);
        CommonSuffix(p, p + [c], s[at..]);
      case Delete(at) =>
        assert s == (p + [s[at]]) + s[at + 1..];
        assert Init(p + [s[at]]) == p;
        NeighboursWithinOne(p + [s[at]], p);
        CommonSuffix(p + [s[at]], p, s[at + 1..]);
      case Substitute(at, c) =>
        assert s == (p + [s[at]]) + s[at + 1..];
        assert Init(p + [s[at]]) == p && Init(p + [c]) == p;
        CommonSuffix(p + [s[at]], p + [c], s[at + 1..]);
    }
  }

  /** No script is shorter than `Dist`. */
  lemma {:induction false} ScriptsAreNoShorter<T>(script: seq<Edit<T>>, a: seq<T>, b: seq<T>)
    requires Turns(script, a, b)
    ensures Dist(a, b) <= |script|
    decreases |script|
  {
    if script == [] {
      DistZeroIffEqual(a, b);
    } else {
      var a' := Apply(script[0], a);
      ScriptsAreNoShorter(script[1..], a', b);
      OneEditIsDistanceOne(script[0], a);
      TriangleInequality(a, a', b);
    }
  }

  lemma {:induction false} ApplyUnderSuffix<T>(e: Edit<T>, a: seq<T>, t: seq<T>)
    requires Applies(e, a)
    ensures Applies(e, a + t) && Apply(e, a + t) == Apply(e, a) + t
  {
    var at := e.at;
    assert (a + t)[..at] == a[..at];
    assert (a + t)[at..] == a[at..] + t;
    if !e.Insert? {
      assert (a + t)[at + 1..] == a[at + 1..] + t;
    }
  }

  lemma {:induction false} ScriptUnderSuffix<T>(script: seq<Edit<T>>, a: seq<T>, b: seq<T>, t: seq<T>)
    requires Turns(script, a, b)
    ensures Turns(script, a + t, b + t)
    decreases |script|
  {
    if script != [] {
      ScriptUnderSuffix(script[1..], Apply(script[0], a), b, t);
      ApplyUnderSuffix(script[0], a, t);
    }
  }

  lemma {:induction false} EditThenScript<T>(e: Edit<T>, rest: seq<Edit<T>>, a: seq<T>, b: seq<T>)
    requires Applies(e, a) && Turns(rest, Apply(e, a), b)
    ensures Turns([e] + rest, a, b)
  {
    assert ([e] + rest)[1..] == rest;
  }

  lemma {:induction false} DropLastFirst<T>(rest: seq<Edit<T>>, a: seq<T>, b: seq<T>)
    requires a != [] && Turns(rest, Init(a), b)
    ensures Turns([Delete(|a| - 1)] + rest, a, b)
  {
    assert Apply(Delete(|a| - 1), a) == Init(a);
    EditThenScript(Delete(|a| - 1), rest, a, b);
  }

  lemma {:induction false} AddLastFirst<T>(rest: seq<Edit<T>>, a: seq<T>, b: seq<T>)
    requires b != [] && Turns(rest, a, Init(b))
    ensures Turns([Insert(|a|, Last(b))] + rest, a, b)
  {
    var e := Insert(|a|, Last(b));
    assert Apply(e, a) == a + [Last(b)];
    assert Init(b) + [Last(b)] == b;
    ScriptUnderSuffix(rest, a, Init(b), [Last(b)]);
    EditThenScript(e, rest, a, b);
  }

  lemma {:induction false} ChangeLastFirst<T>(rest: seq<Edit<T>>, a: seq<T>, b: seq<T>)
    requires a != [] && b != [] && Turns(rest, Init(a), Init(b))
    ensures Turns([Substitute(|a| - 1, Last(b))] + rest, a, b)
  {
    var e := Substitute(|a| - 1, Last(b));
    assert Apply(e, a) == Init(a) + [Last(b)];
    assert Init(b) + [Last(b)] == b;
    ScriptUnderSuffix(rest, Init(a), Init(b), [Last(b)]);
    EditThenScript(e, rest, a, b);
  }

  lemma {:induction false} KeepLast<T>(rest: seq<Edit<T>>, a: seq<T>, b: seq<T>)
    requires a != [] && b != [] && Last(a) == Last(b) && Turns(rest, Init(a), Init(b))
    ensures Turns(rest, a, b)
  {
    assert Init(a) + [Last(b)] == a && Init(b) + [Last(b)] == b;
    ScriptUnderSuffix(rest, Init(a), Init(b), [Last(b)]);
  }

  /** Some script is exactly that long. */
  lemma {:induction false} ShortestScript<T>(a: seq<T>, b: seq<T>) returns (script: seq<Edit<T>>)
    ensures Turns(script, a, b) && |script| == Dist(a, b)
    decreases |a| + |b|
  {
    if a == [] && b == [] {
      script := [];
    } else if b == [] || (a != [] && Last(a) != Last(b) && Dist(a, b) == 1 + Dist(Init(a), b)) {
      script := ShortestScript(Init(a), b);
      DropLastFirst(script, a, b);
      script := [Delete(|a| - 1)] + script;
    } else if a == [] || (Last(a) != Last(b) && Dist(a, b) == 1 + Dist(a, Init(b))) {
      script := ShortestScript(a, Init(b));
      AddLastFirst(script, a, b);
      script := [Insert(|a|, Last(b))] + script;
    } else {
      script := ShortestScript(Init(a), Init(b));
      if Last(a) == Last(b) {
        KeepLast(script, a, b);
      } else {
        ChangeLastFirst(script, a, b);
        script := [Substitute(|a| - 1, Last(b))] + script;
      }
    }
  }

  lemma {:induction false} DistIsEditDistance<T(!new)>(a: seq<T>, b: seq<T>)
    ensures IsEditDistance(a, b, Dist(a, b))
  {
    var script := ShortestScript(a, b);
    forall other | Turns(other, a, b) ensures Dist(a, b) <= |other| {
      ScriptsAreNoShorter(other, a, b);
    }
  }

  // ----- the program -----

  /** The same recurrence on table indices. */
  function Cell<T(==)>(a: seq<T>, b: seq<T>, i: nat, j: nat): nat
    requires i <= |a| && j <= |b|
  {
    if i == 0 then j
    else if j == 0 then i
    else if a[i - 1] == b[j - 1] then Cell(a, b, i - 1, j - 1)
    else 1 + Min3(Cell(a, b, i - 1, j), Cell(a, b, i, j - 1), Cell(a, b, i - 1, j - 1))
  }

  lemma {:induction false} CellIsDist<T>(a: seq<T>, b: seq<T>, i: nat, j: nat)
    requires i <= |a| && j <= |b|
    ensures Cell(a, b, i, j) == Dist(a[..i], b[..j])
  {
    if i != 0 && j != 0 {
      assert Init(a[..i]) == a[..i - 1] && Init(b[..j]) == b[..j - 1];
      CellIsDist(a, b, i - 1, j - 1);
      CellIsDist(a, b, i - 1, j);
      CellIsDist(a, b, i, j - 1);
    }
  }

  lemma {:induction false} LastCell<T(!new)>(a: seq<T>, b: seq<T>)
    ensures Cell(a, b, |a|, |b|) == Dist(a, b)
  {
    CellIsDist(a, b, |a|, |b|);
    assert a[..|a|] == a && b[..|b|] == b;
  }

  /** cli.ts `levenshtein`: fill the (|a|+1) x (|b|+1) table row by row, answer its last cell. */
  method Levenshtein(a: Text, b: Text) returns (d: nat)
    ensures d == Dist(a, b)
  {
    var dp := new nat[|a| + 1, |b| + 1]((i, j) => if j == 0 && i >= 0 then i else 0);
    for j := 0 to |b| + 1
      invariant forall i :: 0 <= i <= |a| ==> dp[i, 0] == i
      invariant forall k :: 0 <= k < j ==> dp[0, k] == k
    {
      dp[0, j] := j;
    }
    for i := 1 to |a| + 1
      invariant forall r :: 0 <= r <= |a| ==> dp[r, 0] == r
      invariant forall r, k {:trigger dp[r, k]} :: 0 <= r < i && 0 <= k <= |b| ==> dp[r, k] == Cell(a, b, r, k)
    {
      for j := 1 to |b| + 1
        invariant forall r :: 0 <= r <= |a| ==> dp[r, 0] == r
        invariant forall r, k {:trigger dp[r, k]} :: 0 <= r < i && 0 <= k <= |b| ==> dp[r, k] == Cell(a, b, r, k)
        invariant forall k {:trigger dp[i, k]} :: 0 <= k < j ==> dp[i, k] == Cell(a, b, i, k)
      {
        dp[i, j] :=
          if a[i - 1] == b[j - 1] then dp[i - 1, j - 1]
          else 1 + Min3(dp[i - 1, j], dp[i, j - 1], dp[i - 1, j - 1]);
      }
    }
    d := dp[|a|, |b|];
    LastCell(a, b);
  }

  /** `i` is the first of the entries of `d` that nothing in `d` undercuts. */
  ghost predicate FirstLeast(d: seq<nat>, i: nat) {
    && i < |d|
    && (forall k :: 0 <= k < i ==> d[i] < d[k])
    && (forall k :: i <= k < |d| ==> d[i] <= d[k])
  }

  ghost function Distances(name: Text, commands: seq<Text>): seq<nat> {
    seq(|commands|, i requires 0 <= i < |commands| => Dist(name, commands[i]))
  }

  /** cli.ts `suggest`: the first of the nearest command names, unless even that is farther than two edits. */
  method Suggest(name: Text, commands: seq<Text>) returns (hint: Option<Text>)
    ensures hint.None? <==> forall i :: 0 <= i < |commands| ==> Distances(name, commands)[i] > 2
    ensures hint.Some? ==>
              exists i: nat :: FirstLeast(Distances(name, commands), i) && hint.value == commands[i]
                          && Distances(name, commands)[i] <= 2
  {
    ghost var d := Distances(name, commands);
    var best: Option<(Text, nat)> := None;
    ghost var at: nat := 0;
    for n := 0 to |commands|
      invariant best.None? <==> n == 0
      invariant best.Some? ==> FirstLeast(d[..n], at) && at < |d| && best.value == (commands[at], d[at])
    {
      var dist := Levenshtein(name, commands[n]);
      assert dist == d[n];
      if best.None? || dist < best.value.1 {
        best := Some((commands[n], dist));
        at := n;
      }
    }
    assert d[..|commands|] == d;
    hint := if best.Some? && best.value.1 <= 2 then Some(best.value.0) else None;
  }
}
