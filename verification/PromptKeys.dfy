/**
 * Keys of the checkbox prompt (packages/cli/src/prompt.ts): the decoder, its carry across reads, and
 * the reducer the keys are folded into.
 */
module PromptKeys {
  import opened Common

  datatype Key = Up | Down | Space | ToggleAll | Enter | Cancel

  // ----- decoding one text -----

  const BRACKET: Unit := '[' as int
  const BIG_O: Unit := 'O' as int
  const BIG_A: Unit := 'A' as int
  const BIG_D: Unit := 'D' as int

  predicate IsIntroducer(u: Unit) {
    u == BRACKET || u == BIG_O
  }

  predicate IsArrowFinal(u: Unit) {
    BIG_A <= u <= BIG_D
  }

  /** `t` begins with a complete CSI or SS3 arrow sequence. */
  predicate StartsWithArrow(t: Text) {
    |t| >= 3 && t[0] == ESC && IsIntroducer(t[1]) && IsArrowFinal(t[2])
  }

  predicate StartsWithCrlf(t: Text) {
    |t| >= 2 && t[0] == CR && t[1] == LF
  }

  /** How many units the first keystroke of `t` takes. */
  function StrokeLength(t: Text): (n: nat)
    requires t != []
    ensures 1 <= n <= |t|
  {
    if StartsWithArrow(t) then 3 else if StartsWithCrlf(t) then 2 else 1
  }

  function UnitKeys(u: Unit): seq<Key> {
    if u == 0x03 || u == 'q' as int || u == 'Q' as int then [Cancel]
    else if u == CR || u == LF then [Enter]
    else if u == ' ' as int then [Space]
    else if u == 'a' as int || u == 'A' as int then [ToggleAll]
    else if u == 'k' as int then [Up]
    else if u == 'j' as int then [Down]
    else []
  }

  /** What the first keystroke of `t` means; left, right and unknown units mean nothing. */
  function StrokeKeys(t: Text): seq<Key>
    requires t != []
  {
    if StartsWithArrow(t) then
      if t[2] == 'A' as int then [Up] else if t[2] == 'B' as int then [Down] else []
    else UnitKeys(t[0])
  }

  function KeysOf(t: Text): seq<Key>
    decreases |t|
  {
    if t == [] then [] else StrokeKeys(t) + KeysOf(t[StrokeLength(t)..])
  }

  lemma {:induction false} OneStroke(keys: seq<Key>, chunk: Text, i: nat)
    requires i < |chunk|
    ensures var n := StrokeLength(chunk[i..]);
            i + n <= |chunk| && keys + KeysOf(chunk[i..]) == (keys + StrokeKeys(chunk[i..])) + KeysOf(chunk[i + n..])
  {
    var rest := chunk[i..];
    var n := StrokeLength(rest);
    assert rest[n..] == chunk[i + n..];
    Assoc(keys, StrokeKeys(rest), KeysOf(rest[n..]));
  }

  /** prompt.ts `decodeKeys`. */
  method DecodeKeys(chunk: Text) returns (keys: seq<Key>)
    ensures keys == KeysOf(chunk)
  {
    keys := [];
    var i := 0;
    while i < |chunk|
      invariant 0 <= i <= |chunk|
      invariant KeysOf(chunk) == keys + KeysOf(chunk[i..])
    {
      var rest := chunk[i..];
      OneStroke(keys, chunk, i);
      ghost var now, at := keys + StrokeKeys(rest), i + StrokeLength(rest);
      if StartsWithArrow(rest) {
        if rest[2] == 'A' as int {
          keys := keys + [Up];
        } else if rest[2] == 'B' as int {
          keys := keys + [Down];
        }
        i := i + 3;
      } else {
        keys := keys + UnitKeys(chunk[i]);
        i := i + 1;
        if chunk[i - 1] == CR && i < |chunk| && chunk[i] == LF {
          i := i + 1;
        }
      }
      assert keys == now && i == at;
    }
  }

  // ----- where a text may be cut -----

  /** How many units at the end of `t` could be the start of an arrow sequence. */
  function PendingLength(t: Text): (n: nat)
    ensures n <= |t| && n <= 2
  {
    if |t| >= 1 && t[|t| - 1] == ESC then 1
    else if |t| >= 2 && t[|t| - 2] == ESC && IsIntroducer(t[|t| - 1]) then 2
    else 0
  }

  ghost predicate CutsCrlf(x: Text, y: Text) {
    x != [] && y != [] && x[|x| - 1] == CR && y[0] == LF
  }

  ghost predicate CutsArrow(x: Text, y: Text) {
    || (|x| >= 1 && x[|x| - 1] == ESC && |y| >= 2 && IsIntroducer(y[0]) && IsArrowFinal(y[1]))
    || (|x| >= 2 && x[|x| - 2] == ESC && IsIntroducer(x[|x| - 1]) && |y| >= 1 && IsArrowFinal(y[0]))
  }

  lemma {:induction false} FirstStrokeSurvives(x: Text, y: Text)
    requires x != [] && !CutsCrlf(x, y) && !CutsArrow(x, y)
    ensures StrokeLength(x + y) == StrokeLength(x) && StrokeKeys(x + y) == StrokeKeys(x)
    ensures var n := StrokeLength(x);
            !CutsCrlf(x[n..], y) && !CutsArrow(x[n..], y) && (x + y)[n..] == x[n..] + y
  {
    var n := StrokeLength(x);
    assert (x + y)[0] == x[0];
    if |x| == 1 {
      assert |y| >= 1 ==> (x + y)[1] == y[0];
      assert |y| >= 2 ==> (x + y)[2] == y[1];
    } else {
      assert (x + y)[1] == x[1];
      assert |x| == 2 && |y| >= 1 ==> (x + y)[2] == y[0];
      assert |x| >= 3 ==> (x + y)[2] == x[2];
    }
    assert (x + y)[n..] == x[n..] + y;
    assert |x| > n ==> x[n..][|x| - n - 1] == x[|x| - 1];
    assert |x| > n + 1 ==> x[n..][|x| - n - 2] == x[|x| - 2];
  }

  /** A cut that splits no keystroke splits the keys cleanly. */
  lemma {:induction false} CleanCut(x: Text, y: Text)
    requires !CutsCrlf(x, y) && !CutsArrow(x, y)
    ensures KeysOf(x + y) == KeysOf(x) + KeysOf(y)
    decreases |x|
  {
    if x == [] {
      assert x + y == y;
    } else {
      var n := StrokeLength(x);
      FirstStrokeSurvives(x, y);
      CleanCut(x[n..], y);
      Assoc(StrokeKeys(x), KeysOf(x[n..]), KeysOf(y));
    }
  }

  lemma {:induction false} EndsInCr(x: Text)
    requires x != [] && x[|x| - 1] == CR
    ensures KeysOf(x) == KeysOf(x[..|x| - 1]) + [Enter]
  {
    assert x == x[..|x| - 1] + [CR];
    CleanCut(x[..|x| - 1], [CR]);
    assert [CR][1..] == [];
    assert KeysOf([CR]) == [Enter];
  }

  lemma {:induction false} StartsInCrlf(z: Text)
    requires StartsWithCrlf(z)
    ensures KeysOf(z) == [Enter] + KeysOf(z[2..])
  {}

  /** A cut inside CR LF yields one more Enter, right behind the one before the cut. */
  lemma {:induction false} CrlfCut(x: Text, y: Text)
    requires CutsCrlf(x, y)
    ensures KeysOf(x) == KeysOf(x[..|x| - 1]) + [Enter]
    ensures KeysOf(y) == [Enter] + KeysOf(y[1..])
    ensures KeysOf(x + y) == KeysOf(x) + KeysOf(y[1..])
  {
    var x0 := x[..|x| - 1];
    var z := [CR] + y;
    assert x + y == x0 + z && z[2..] == y[1..];
    assert KeysOf(y) == [Enter] + KeysOf(y[1..]);
    EndsInCr(x);
    CleanCut(x0, z);
    StartsInCrlf(z);
    Assoc(KeysOf(x0), [Enter], KeysOf(y[1..]));
  }

  // ----- the reducer -----

  datatype SelectState = SelectState(items: seq<Text>, cursor: nat, checked: set<Text>, done: bool, cancelled: bool, single: bool)

  function InitState(items: seq<Text>, preChecked: set<Text>, single: bool): SelectState {
    SelectState(items, 0, preChecked, false, false, single)
  }

  predicate IsTerminal(s: SelectState) {
    s.done || s.cancelled
  }

  /** prompt.ts `reducer`; an item is its id. */
  function Reducer(s: SelectState, key: Key): SelectState {
    if IsTerminal(s) then s
    else
      var n := |s.items|;
      match key
      case Up => s.(cursor := if n == 0 then 0 else (s.cursor - 1 + n) % n)
      case Down => s.(cursor := if n == 0 then 0 else (s.cursor + 1) % n)
      case Space =>
        if s.cursor >= n then s
        else
          var id := s.items[s.cursor];
          if s.single then s.(checked := if id in s.checked then {} else {id})
          else s.(checked := if id in s.checked then s.checked - {id} else s.checked + {id})
      case ToggleAll =>
        if s.single then s
        else
          var all := n > 0 && forall i :: 0 <= i < n ==> s.items[i] in s.checked;
          s.(checked := if all then {} else set i | 0 <= i < n :: s.items[i])
      case Enter =>
        if s.single && s.checked == {} && s.cursor < n
        then s.(checked := {s.items[s.cursor]}, done := true)
        else s.(done := true)
      case Cancel => s.(cancelled := true)
  }

  function Reduce(s: SelectState, keys: seq<Key>): SelectState
    decreases |keys|
  {
    if keys == [] then s else Reduce(Reducer(s, keys[0]), keys[1..])
  }

  /** prompt.ts `selection`: the marked ids in the order of the list. */
  function Selection(s: SelectState): seq<Text> {
    Marked(s.items, s.checked)
  }

  function Marked(items: seq<Text>, checked: set<Text>): seq<Text> {
    if items == [] then []
    else (if items[0] in checked then [items[0]] else []) + Marked(items[1..], checked)
  }

  lemma {:induction false} ReduceAppend(s: SelectState, a: seq<Key>, b: seq<Key>)
    ensures Reduce(s, a + b) == Reduce(Reduce(s, a), b)
    decreases |a|
  {
    if a == [] {
      assert a + b == b;
    } else {
      assert (a + b)[1..] == a[1..] + b;
      ReduceAppend(Reducer(s, a[0]), a[1..], b);
    }
  }

  lemma {:induction false} TerminalAbsorbs(s: SelectState, keys: seq<Key>)
    requires IsTerminal(s)
    ensures Reduce(s, keys) == s
    decreases |keys|
  {
    if keys != [] {
      TerminalAbsorbs(s, keys[1..]);
    }
  }

  lemma {:induction false} EnterAbsorbs(s: SelectState, before: seq<Key>, after: seq<Key>)
    ensures Reduce(Reduce(s, before + [Enter]), [Enter] + after) == Reduce(Reduce(s, before + [Enter]), after)
  {
    ReduceAppend(s, before, [Enter]);
    var t := Reduce(s, before);
    assert Reduce(t, [Enter]) == Reducer(t, Enter) by { assert Reduce(Reducer(t, Enter), [Enter][1..]) == Reducer(t, Enter); }
    TerminalAbsorbs(Reducer(t, Enter), [Enter] + after);
    TerminalAbsorbs(Reducer(t, Enter), after);
  }

  // ----- decoding a stream of reads -----

  /** prompt.ts `decodeStream`. */
  function DecodeStream(chunk: Text, carry: Text): (r: (seq<Key>, Text))
    ensures |r.1| <= 2
  {
    var all := carry + chunk;
    var cut := |all| - PendingLength(all);
    (KeysOf(all[..cut]), all[cut..])
  }

  /** All the keys of a list of reads, starting with a carry. */
  function StreamKeys(chunks: seq<Text>, carry: Text): seq<Key> {
    if chunks == [] then []
    else
      var (keys, next) := DecodeStream(chunks[0], carry);
      keys + StreamKeys(chunks[1..], next)
  }

  /** How many of the boundaries between reads separate CR from LF; `before` is the text read so far. */
  ghost function CrlfCuts(before: Text, chunks: seq<Text>): nat
    decreases |chunks|
  {
    if chunks == [] then 0
    else (if CutsCrlf(before, chunks[0]) then 1 else 0) + CrlfCuts(before + chunks[0], chunks[1..])
  }

  /** `carry` is what was held back of the text read so far, `done` the part already decoded. */
  ghost predicate CarryInv(done: Text, carry: Text) {
    if carry == [] then PendingLength(done) == 0
    else PendingLength(carry) == |carry|
  }

  lemma {:induction false} PendingHasNoKeys(t: Text)
    requires PendingLength(t) == |t|
    ensures KeysOf(t) == []
  {
    if |t| == 2 {
      assert KeysOf(t[1..]) == UnitKeys(t[1]) + KeysOf(t[1..][1..]);
      assert t[1..][1..] == [];
    } else if |t| == 1 {
      assert t[1..] == [];
    }
  }

  lemma {:induction false} CarryHasNoKeys(done: Text, carry: Text)
    requires CarryInv(done, carry)
    ensures KeysOf(done + carry) == KeysOf(done)
  {
    if carry == [] {
      assert done + carry == done;
    } else {
      CleanCut(done, carry);
      PendingHasNoKeys(carry);
    }
  }

  lemma {:induction false} NextCarry(done: Text, carry: Text, chunk: Text)
    requires CarryInv(done, carry)
    ensures var all := carry + chunk;
            var cut := |all| - PendingLength(all);
            && CarryInv(done + all[..cut], all[cut..])
            && (done + all[..cut]) + all[cut..] == (done + carry) + chunk
            && !CutsArrow(done, all[..cut])
            && (CutsCrlf(done, all[..cut]) <==> CutsCrlf(done + carry, chunk))
  {
    var all := carry + chunk;
    var cut := |all| - PendingLength(all);
    assert all == all[..cut] + all[cut..];
    Assoc(done, all[..cut], all[cut..]);
    Assoc(done, carry, chunk);
    if all[cut..] == [] {
      assert all[..cut] == all;
    }
  }

  /** Keys of a stream against the keys of its whole text, up to Enters doubled by a cut CR LF. */
  ghost predicate SameButForCuts(stream: seq<Key>, whole: seq<Key>, cuts: nat) {
    && |stream| == |whole| + cuts
    && (cuts == 0 ==> stream == whole)
    && forall s :: Reduce(s, stream) == Reduce(s, whole)
  }

  lemma {:induction false} DecodeOne(done: Text, soFar: seq<Key>, cuts: nat, head: Text)
    requires SameButForCuts(soFar, KeysOf(done), cuts) && !CutsArrow(done, head)
    ensures SameButForCuts(soFar + KeysOf(head), KeysOf(done + head), cuts + if CutsCrlf(done, head) then 1 else 0)
  {
    var whole := KeysOf(done);
    if CutsCrlf(done, head) {
      CrlfCut(done, head);
      var before, after := KeysOf(done[..|done| - 1]), KeysOf(head[1..]);
      forall s ensures Reduce(s, soFar + KeysOf(head)) == Reduce(s, KeysOf(done + head)) {
        ReduceAppend(s, soFar, KeysOf(head));
        ReduceAppend(s, before + [Enter], after);
        EnterAbsorbs(s, before, after);
      }
    } else {
      CleanCut(done, head);
      forall s ensures Reduce(s, soFar + KeysOf(head)) == Reduce(s, KeysOf(done + head)) {
        ReduceAppend(s, soFar, KeysOf(head));
        ReduceAppend(s, whole, KeysOf(head));
      }
    }
  }

  lemma {:induction false} StreamAgainstWhole(done: Text, carry: Text, soFar: seq<Key>, cuts: nat, chunks: seq<Text>)
    requires CarryInv(done, carry) && SameButForCuts(soFar, KeysOf(done), cuts)
    ensures SameButForCuts(soFar + StreamKeys(chunks, carry), KeysOf(done + carry + Concat(chunks)),
                           cuts + CrlfCuts(done + carry, chunks))
    decreases |chunks|
  {
    if chunks == [] {
      CarryHasNoKeys(done, carry);
      assert soFar + [] == soFar && done + carry + [] == done + carry;
    } else {
      var all := carry + chunks[0];
      var cut := |all| - PendingLength(all);
      var head, next := all[..cut], all[cut..];
      NextCarry(done, carry, chunks[0]);
      DecodeOne(done, soFar, cuts, head);
      var cuts' := cuts + if CutsCrlf(done, head) then 1 else 0;
      StreamAgainstWhole(done + head, next, soFar + KeysOf(head), cuts', chunks[1..]);
      Assoc(soFar, KeysOf(head), StreamKeys(chunks[1..], next));
      Assoc(done + carry, chunks[0], Concat(chunks[1..]));
    }
  }

  /**
   * For every text and every way of cutting it into reads: the reducer ends in the same state as on
   * the whole text, and the key lists are equal exactly when no cut separates CR from LF (each such
   * cut adds one key).
   */
  lemma {:induction false} ChunkingDoesNotMatter(chunks: seq<Text>)
    ensures forall s :: Reduce(s, StreamKeys(chunks, [])) == Reduce(s, KeysOf(Concat(chunks)))
    ensures |StreamKeys(chunks, [])| == |KeysOf(Concat(chunks))| + CrlfCuts([], chunks)
    ensures StreamKeys(chunks, []) == KeysOf(Concat(chunks)) <==> CrlfCuts([], chunks) == 0
  {
    StreamAgainstWhole([], [], [], 0, chunks);
    assert [] + StreamKeys(chunks, []) == StreamKeys(chunks, []);
    assert [] + [] + Concat(chunks) == Concat(chunks);
  }

  // ----- what the reducer keeps -----

  /** The cursor names an item as long as there is one. */
  ghost predicate CursorInv(s: SelectState) {
    s.cursor < |s.items| || (s.items == [] && s.cursor == 0)
  }

  /** One turn around a list of `n` changes nothing. */
  lemma {:induction false} FullTurn(r: nat, n: nat)
    requires r < n
    ensures (r + n) % n == r
  {
    var q, m := (r + n) / n, (r + n) % n;
    assert q <= 0 ==> n * q <= 0;
    assert q >= 2 ==> n * q >= n * 2;
    assert r + n == n * q + m;
  }

  /** The cursor steps around a list of `n`, in the two forms the arrows use. */
  lemma {:induction false} StepAround(c: nat, n: nat)
    requires c < n
    ensures (c + 1) % n == if c + 1 == n then 0 else c + 1
    ensures (c - 1 + n) % n == if c == 0 then n - 1 else c - 1
  {
    if c + 1 == n {
      FullTurn(0, n);
    }
    if c > 0 {
      FullTurn(c - 1, n);
    }
  }

  /** While the prompt is open each arrow undoes the other, at the ends of the list too. */
  lemma {:induction false} ArrowsUndoEachOther(s: SelectState)
    requires CursorInv(s) && !IsTerminal(s)
    ensures Reducer(Reducer(s, Up), Down) == s && Reducer(Reducer(s, Down), Up) == s
  {
    var n := |s.items|;
    if n > 0 {
      StepAround(s.cursor, n);
      StepAround(if s.cursor + 1 == n then 0 else s.cursor + 1, n);
      StepAround(if s.cursor == 0 then n - 1 else s.cursor - 1, n);
      assert Reducer(s, Up) == s.(cursor := if s.cursor == 0 then n - 1 else s.cursor - 1);
      assert Reducer(s, Down) == s.(cursor := if s.cursor + 1 == n then 0 else s.cursor + 1);
    }
  }

  /** From the top of the list, `k` presses of the down arrow reach item `k`. */
  lemma {:induction false} DownWalksTheList(items: seq<Text>, preChecked: set<Text>, single: bool, k: nat)
    requires k < |items|
    ensures var s := InitState(items, preChecked, single);
            Reduce(s, seq(k, _ => Down)) == s.(cursor := k)
  {
    if k > 0 {
      var s := InitState(items, preChecked, single);
      DownWalksTheList(items, preChecked, single, k - 1);
      assert seq(k, _ => Down) == seq(k - 1, _ => Down) + [Down];
      ReduceAppend(s, seq(k - 1, _ => Down), [Down]);
      StepAround(k - 1, |items|);
      var t := s.(cursor := k - 1);
      assert Reducer(t, Down) == s.(cursor := k);
      assert [Down][1..] == [];
    }
  }

  /** On a multi-select SPACE undoes itself. */
  lemma {:induction false} SpaceUndoesItself(s: SelectState)
    requires !s.single && !IsTerminal(s)
    ensures Reducer(Reducer(s, Space), Space) == s
  {
    if s.cursor < |s.items| {
      var id := s.items[s.cursor];
      assert id in s.checked ==> s.checked - {id} + {id} == s.checked;
      assert id !in s.checked ==> s.checked + {id} - {id} == s.checked;
    }
  }

  lemma {:induction false} MarkedAllOrNone(items: seq<Text>, checked: set<Text>)
    ensures (forall i :: 0 <= i < |items| ==> items[i] in checked) ==> Marked(items, checked) == items
    ensures Marked(items, {}) == []
  {
    if items != [] {
      MarkedAllOrNone(items[1..], checked);
      assert items == [items[0]] + items[1..];
    }
  }

  /** What is handed back: the marked items and no others, in the order of the list. */
  lemma {:induction false} SelectionIsTheMarkedItems(items: seq<Text>, checked: set<Text>, n: nat, id: Text)
    requires n <= |items|
    ensures id in Marked(items, checked) <==> id in items && id in checked
    ensures Marked(items, checked) == Marked(items[..n], checked) + Marked(items[n..], checked)
  {
    if items == [] {
      assert items[..n] == [] && items[n..] == [];
    } else if n == 0 {
      SelectionIsTheMarkedItems(items[1..], checked, 0, id);
      assert items[..0] == [] && items[0..] == items;
    } else {
      SelectionIsTheMarkedItems(items[1..], checked, n - 1, id);
      assert items[..n][1..] == items[1..][..n - 1] && items[1..][n - 1..] == items[n..];
    }
  }

  /** `a` on an open multi-select hands back the whole list, or nothing if everything was marked. */
  lemma {:induction false} ToggleAllIsAllOrNone(s: SelectState)
    requires !s.single && !IsTerminal(s)
    ensures Selection(Reducer(s, ToggleAll)) ==
            if forall i :: 0 <= i < |s.items| ==> s.items[i] in s.checked then [] else s.items
  {
    MarkedAllOrNone(s.items, Reducer(s, ToggleAll).checked);
  }

  lemma {:induction false} ReduceKeepsItems(s: SelectState, keys: seq<Key>)
    ensures Reduce(s, keys).items == s.items
    decreases |keys|
  {
    if keys != [] {
      ReduceKeepsItems(Reducer(s, keys[0]), keys[1..]);
    }
  }

  /** SPACE comes before the first key that ends the prompt. */
  predicate MarksBeforeEnd(keys: seq<Key>) {
    keys != [] && (keys[0].Space? || (!keys[0].Enter? && !keys[0].Cancel? && MarksBeforeEnd(keys[1..])))
  }

  ghost predicate IsOneItem(s: SelectState) {
    exists i :: 0 <= i < |s.items| && s.checked == {s.items[i]}
  }

  /**
   * A one-answer list that began with the marks `preChecked`: untouched they stay; touched, or if there
   * were none, there is at most one mark, on an item, and exactly one once the list is answered.
   */
  ghost predicate SingleInv(s: SelectState, preChecked: set<Text>, touched: bool) {
    && s.single && s.items != [] && CursorInv(s)
    && if touched || preChecked == {} then IsOneItem(s) || (s.checked == {} && !s.done) else s.checked == preChecked
  }

  lemma {:induction false} ReducerKeepsSingle(s: SelectState, preChecked: set<Text>, touched: bool, key: Key)
    requires SingleInv(s, preChecked, touched) && !IsTerminal(s)
    ensures SingleInv(Reducer(s, key), preChecked, touched || key.Space?)
    ensures IsTerminal(Reducer(s, key)) <==> key.Enter? || key.Cancel?
  {
    StepAround(s.cursor, |s.items|);
    if key.Space? || key.Enter? {
      assert Reducer(s, key).items[s.cursor] == s.items[s.cursor];
    }
  }

  lemma {:induction false} ReduceKeepsSingle(s: SelectState, preChecked: set<Text>, touched: bool, keys: seq<Key>)
    requires SingleInv(s, preChecked, touched) && !IsTerminal(s)
    ensures SingleInv(Reduce(s, keys), preChecked, touched || MarksBeforeEnd(keys))
    decreases |keys|
  {
    if keys != [] {
      var s1 := Reducer(s, keys[0]);
      ReducerKeepsSingle(s, preChecked, touched, keys[0]);
      if IsTerminal(s1) {
        TerminalAbsorbs(s1, keys[1..]);
      } else {
        ReduceKeepsSingle(s1, preChecked, touched || keys[0].Space?, keys[1..]);
      }
    }
  }

  /**
   * Arrow-then-Enter is an answer: whatever keys came, a confirmed one-answer list has exactly one of its
   * items marked if and only if SPACE was pressed before, or it began with no mark or with one item's.
   */
  lemma {:induction false} SinglePromptAnswersOnce(items: seq<Text>, preChecked: set<Text>, keys: seq<Key>)
    ensures var s := Reduce(InitState(items, preChecked, true), keys);
            s.done ==>
              (IsOneItem(s) <==>
               items != []
               && (MarksBeforeEnd(keys) || preChecked == {} || exists i :: 0 <= i < |items| && preChecked == {items[i]}))
  {
    var start := InitState(items, preChecked, true);
    ReduceKeepsItems(start, keys);
    if items != [] {
      ReduceKeepsSingle(start, preChecked, false, keys);
    }
  }

  // ----- the shell: one read -----

  /** `state`, `carry` and whether the data listener is still attached. */
  datatype Session = Session(state: SelectState, carry: Text, listening: bool)

  /** What one read does to the session, without the screen. */
  function Feed(u: Session, chunk: Text): Session {
    if !u.listening then u
    else
      var (keys, carry) := DecodeStream(chunk, u.carry);
      var state := Reduce(u.state, keys);
      Session(state, carry, keys == [] || !IsTerminal(state))
  }

  function FeedAll(u: Session, chunks: seq<Text>): Session
    decreases |chunks|
  {
    if chunks == [] then u else FeedAll(Feed(u, chunks[0]), chunks[1..])
  }

  lemma {:induction false} FeedingReducesTheStream(u: Session, chunks: seq<Text>)
    requires u.listening || IsTerminal(u.state)
    ensures FeedAll(u, chunks).state == Reduce(u.state, StreamKeys(chunks, u.carry))
    decreases |chunks|
  {
    if IsTerminal(u.state) {
      TerminalAbsorbs(u.state, StreamKeys(chunks, u.carry));
      TerminalStays(u, chunks);
    } else if chunks != [] {
      var u' := Feed(u, chunks[0]);
      FeedingReducesTheStream(u', chunks[1..]);
      ReduceAppend(u.state, DecodeStream(chunks[0], u.carry).0, StreamKeys(chunks[1..], u'.carry));
    }
  }

  lemma {:induction false} TerminalStays(u: Session, chunks: seq<Text>)
    requires IsTerminal(u.state)
    ensures FeedAll(u, chunks).state == u.state
    decreases |chunks|
  {
    if chunks != [] {
      TerminalAbsorbs(u.state, DecodeStream(chunks[0], u.carry).0);
      TerminalStays(Feed(u, chunks[0]), chunks[1..]);
    }
  }

  /** The key loop of `onData`: stop at the first key that ends the prompt. */
  method ApplyKeys(s: SelectState, keys: seq<Key>) returns (r: SelectState)
    ensures r == Reduce(s, keys)
  {
    r := s;
    for i := 0 to |keys|
      invariant Reduce(s, keys) == Reduce(r, keys[i..])
    {
      assert keys[i..][1..] == keys[i + 1..];
      r := Reducer(r, keys[i]);
      if IsTerminal(r) {
        TerminalAbsorbs(r, keys[i + 1..]);
        return;
      }
    }
  }

  lemma {:induction false} ReduceKeepsCursor(s: SelectState, keys: seq<Key>)
    requires CursorInv(s)
    ensures CursorInv(Reduce(s, keys))
    decreases |keys|
  {
    if keys != [] {
      ReduceKeepsCursor(Reducer(s, keys[0]), keys[1..]);
    }
  }

  /** The prompt's answer depends on the bytes typed, not on how the terminal delivered them. */
  lemma {:induction false} PromptIgnoresChunking(s: SelectState, chunks: seq<Text>)
    ensures FeedAll(Session(s, [], true), chunks).state == Reduce(s, KeysOf(Concat(chunks)))
  {
    FeedingReducesTheStream(Session(s, [], true), chunks);
    ChunkingDoesNotMatter(chunks);
  }
}
