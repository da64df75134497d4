/**
 * What the checkbox prompt answers for what was typed (packages/cli/src/prompt.ts), told from the
 * keystrokes alone: their spellings, the counts of arrows, and the presses of SPACE on an item.
 */
module PromptAnswers {
  import opened Common
  import opened PromptKeys

  // ----- spellings -----

  /** The texts a terminal sends for key `k`: in either cursor mode, and the letters that stand in for it. */
  predicate IsSpelling(t: Text, k: Key) {
    match k
    case Up => t == [ESC, '[' as int, 'A' as int] || t == [ESC, 'O' as int, 'A' as int] || t == ['k' as int]
    case Down => t == [ESC, '[' as int, 'B' as int] || t == [ESC, 'O' as int, 'B' as int] || t == ['j' as int]
    case Space => t == [' ' as int]
    case ToggleAll => t == ['a' as int] || t == ['A' as int]
    case Enter => t == [CR] || t == [LF] || t == [CR, LF]
    case Cancel => t == [0x03] || t == ['q' as int] || t == ['Q' as int]
  }

  /** The first keystroke of a text means a key if and only if it is one of its spellings. */
  lemma {:induction false} StrokeMeans(t: Text, k: Key)
    requires t != []
    ensures StrokeKeys(t) == [k] <==> IsSpelling(t[..StrokeLength(t)], k)
    ensures |StrokeKeys(t)| <= 1
  {
    var stroke := t[..StrokeLength(t)];
    assert stroke[0] == t[0];
    if |stroke| == 3 {
      assert stroke == [ESC, t[1], t[2]];
    } else if |stroke| == 2 {
      assert stroke == [CR, LF];
    } else {
      assert stroke == [t[0]];
    }
  }

  lemma {:induction false} SpellingIsRead(t: Text, k: Key)
    requires IsSpelling(t, k)
    ensures t != [] && KeysOf(t) == [k]
  {
    assert t[..StrokeLength(t)] == t;
    StrokeMeans(t, k);
    assert t[StrokeLength(t)..] == [];
  }

  datatype Typed = Typed(key: Key, spelling: Text)

  function KeysTyped(typed: seq<Typed>): seq<Key> {
    if typed == [] then [] else [typed[0].key] + KeysTyped(typed[1..])
  }

  function TextTyped(typed: seq<Typed>): Text {
    if typed == [] then [] else typed[0].spelling + TextTyped(typed[1..])
  }

  /** Every entry is spelled, and no CR stands right before an LF that was meant as another Enter. */
  ghost predicate IsTyping(typed: seq<Typed>) {
    && (forall i :: 0 <= i < |typed| ==> IsSpelling(typed[i].spelling, typed[i].key))
    && (forall i :: 0 <= i < |typed| - 1 ==> typed[i].spelling != [CR] || typed[i + 1].spelling != [LF])
  }

  /** What is typed is read: any keys, each in any of its spellings. */
  lemma {:induction false} TypedKeysAreRead(typed: seq<Typed>)
    requires IsTyping(typed)
    ensures KeysOf(TextTyped(typed)) == KeysTyped(typed)
  {
    if typed != [] {
      var first, rest := typed[0], typed[1..];
      assert IsTyping(rest) by {
        forall i | 0 <= i < |rest| ensures IsSpelling(rest[i].spelling, rest[i].key) { assert rest[i] == typed[i + 1]; }
        forall i | 0 <= i < |rest| - 1 ensures rest[i].spelling != [CR] || rest[i + 1].spelling != [LF] {
          assert rest[i] == typed[i + 1] && rest[i + 1] == typed[i + 2];
        }
      }
      TypedKeysAreRead(rest);
      SpellingIsRead(first.spelling, first.key);
      if rest != [] {
        assert IsSpelling(rest[0].spelling, rest[0].key);
        SpellingsDoNotMerge(first, rest[0], TextTyped(rest[1..]));
      }
      CleanCut(first.spelling, TextTyped(rest));
    }
  }

  lemma {:induction false} SpellingsDoNotMerge(a: Typed, b: Typed, more: Text)
    requires IsSpelling(a.spelling, a.key) && IsSpelling(b.spelling, b.key)
    requires a.spelling != [CR] || b.spelling != [LF]
    ensures !CutsCrlf(a.spelling, b.spelling + more) && !CutsArrow(a.spelling, b.spelling + more)
  {
    var y := b.spelling + more;
    assert y[0] == b.spelling[0];
    assert b.spelling[0] == LF ==> b.spelling == [LF];
  }

  // ----- the cursor -----

  function Presses(keys: seq<Key>, k: Key): nat {
    if keys == [] then 0 else Presses(keys[..|keys| - 1], k) + if keys[|keys| - 1] == k then 1 else 0
  }

  /** Downs less ups, around the list. */
  function CursorAt(n: nat, keys: seq<Key>): (c: nat)
    requires n > 0
    ensures c < n
  {
    (Presses(keys, Down) - Presses(keys, Up)) % n
  }

  /** None of the keys ends the prompt. */
  ghost predicate IsOpen(keys: seq<Key>) {
    forall i :: 0 <= i < |keys| ==> !keys[i].Enter? && !keys[i].Cancel?
  }

  lemma {:induction false} RemainderIs(x: int, n: nat, q: int, r: nat)
    requires r < n && x == n * q + r
    ensures x % n == r
  {
    var p, m := x / n, x % n;
    assert x == n * p + m;
    assert n * (q - p) == m - r;
    assert q - p >= 1 ==> n * (q - p) >= n * 1;
    assert q - p <= -1 ==> n * (q - p) <= n * -1;
  }

  /** One step from a remainder, in the forms the reducer uses. */
  lemma {:induction false} StepFromRemainder(x: int, n: nat)
    requires n > 0
    ensures (x % n + 1) % n == (x + 1) % n && (x % n - 1 + n) % n == (x - 1) % n
  {
    var q, c := x / n, x % n;
    assert x == n * q + c;
    StepAround(c, n);
    if c + 1 == n {
      assert x + 1 == n * (q + 1) + 0 by { assert n * (q + 1) == n * q + n; }
      RemainderIs(x + 1, n, q + 1, 0);
    } else {
      RemainderIs(x + 1, n, q, c + 1);
    }
    if c == 0 {
      assert x - 1 == n * (q - 1) + (n - 1) by { assert n * (q - 1) == n * q - n; }
      RemainderIs(x - 1, n, q - 1, n - 1);
    } else {
      RemainderIs(x - 1, n, q, c - 1);
    }
  }

  lemma {:induction false} ReduceSnoc(s: SelectState, keys: seq<Key>, k: Key)
    ensures Reduce(s, keys + [k]) == Reducer(Reduce(s, keys), k)
  {
    ReduceAppend(s, keys, [k]);
    assert [k][1..] == [];
    assert Reduce(Reduce(s, keys), [k]) == Reduce(Reducer(Reduce(s, keys), k), []);
  }

  /** As long as the prompt is open the cursor is where the arrows add up to. */
  lemma {:induction false} CursorIsTheSumOfArrows(items: seq<Text>, preChecked: set<Text>, single: bool, keys: seq<Key>)
    requires items != [] && IsOpen(keys)
    ensures var s := Reduce(InitState(items, preChecked, single), keys);
            && s.items == items && s.single == single && !s.done && !s.cancelled
            && s.cursor == CursorAt(|items|, keys)
  {
    if keys != [] {
      var before, k := keys[..|keys| - 1], keys[|keys| - 1];
      assert keys == before + [k];
      CursorIsTheSumOfArrows(items, preChecked, single, before);
      ReduceSnoc(InitState(items, preChecked, single), before, k);
      StepFromRemainder(Presses(before, Down) - Presses(before, Up), |items|);
    } else {
      RemainderIs(0, |items|, 0, 0);
    }
  }

  // ----- a multi-select -----

  /** Where `a` was pressed last; -1 if it was not. */
  function LastToggle(keys: seq<Key>): (a: int)
    ensures -1 <= a < |keys|
  {
    if keys == [] then -1
    else if keys[|keys| - 1].ToggleAll? then |keys| - 1
    else LastToggle(keys[..|keys| - 1])
  }

  /** How often SPACE was pressed with the cursor on `id`, from key number `from` on. */
  function Flips(items: seq<Text>, keys: seq<Key>, from: nat, id: Text): nat
    requires items != []
  {
    if |keys| <= from then 0
    else
      var before := keys[..|keys| - 1];
      Flips(items, before, from, id)
      + if keys[|keys| - 1].Space? && items[CursorAt(|items|, before)] == id then 1 else 0
  }

  /**
   * Item `id` is marked: it was after the last `a`, or at the start if there was none, and SPACE was
   * pressed on it an even number of times since; or it was not, and the number is odd. After an `a`
   * all items are marked, or none if all were before.
   */
  ghost predicate IsMarked(items: seq<Text>, preChecked: set<Text>, keys: seq<Key>, id: Text)
    requires items != []
    decreases |keys|
  {
    var a := LastToggle(keys);
    var since := if a < 0 then id in preChecked else exists i :: 0 <= i < |items| && !IsMarked(items, preChecked, keys[..a], items[i]);
    since <==> Flips(items, keys, a + 1, id) % 2 == 0
  }

  lemma {:induction false} FlipsSnoc(items: seq<Text>, before: seq<Key>, k: Key, from: nat, id: Text)
    requires items != [] && from <= |before|
    ensures var on := k.Space? && items[CursorAt(|items|, before)] == id;
            var flips := Flips(items, before + [k], from, id);
            flips == Flips(items, before, from, id) + (if on then 1 else 0)
            && (flips % 2 == 0 <==> (Flips(items, before, from, id) % 2 == 0) != on)
  {
    assert (before + [k])[..|before|] == before;
  }

  /** A key other than `a` changes the mark of `id` if and only if it is SPACE with the cursor on it. */
  lemma {:induction false} MarkAfterKey(items: seq<Text>, preChecked: set<Text>, before: seq<Key>, k: Key, id: Text)
    requires items != [] && !k.ToggleAll?
    ensures var on := k.Space? && items[CursorAt(|items|, before)] == id;
            IsMarked(items, preChecked, before + [k], id) <==> (IsMarked(items, preChecked, before, id) != on)
  {
    var keys := before + [k];
    var a := LastToggle(before);
    assert keys[..|before|] == before;
    assert LastToggle(keys) == a;
    if a >= 0 {
      assert keys[..a] == before[..a];
    }
    FlipsSnoc(items, before, k, a + 1, id);
  }

  lemma {:induction false} MarkAfterToggle(items: seq<Text>, preChecked: set<Text>, before: seq<Key>, id: Text)
    requires items != []
    ensures IsMarked(items, preChecked, before + [ToggleAll], id) <==>
            exists i :: 0 <= i < |items| && !IsMarked(items, preChecked, before, items[i])
  {
    var keys := before + [ToggleAll];
    assert keys[..|before|] == before && LastToggle(keys) == |before|;
    assert Flips(items, keys, |before| + 1, id) == 0;
  }

  lemma {:induction false} MarksAreTheReducers(items: seq<Text>, preChecked: set<Text>, keys: seq<Key>, id: Text)
    requires items != [] && IsOpen(keys) && id in items
    ensures id in Reduce(InitState(items, preChecked, false), keys).checked <==> IsMarked(items, preChecked, keys, id)
  {
    if keys != [] {
      var before, k := keys[..|keys| - 1], keys[|keys| - 1];
      var s := Reduce(InitState(items, preChecked, false), before);
      assert keys == before + [k];
      CursorIsTheSumOfArrows(items, preChecked, false, before);
      ReduceSnoc(InitState(items, preChecked, false), before, k);
      if k.ToggleAll? {
        forall i | 0 <= i < |items| ensures items[i] in s.checked <==> IsMarked(items, preChecked, before, items[i]) {
          MarksAreTheReducers(items, preChecked, before, items[i]);
        }
        MarkAfterToggle(items, preChecked, before, id);
      } else {
        MarksAreTheReducers(items, preChecked, before, id);
        MarkAfterKey(items, preChecked, before, k, id);
      }
    }
  }

  /** The first key that ends the prompt decides how; what comes after it is ignored, and the marks stay. */
  lemma {:induction false} EndsWith(s: SelectState, keys: seq<Key>, rest: seq<Key>)
    requires !IsTerminal(Reduce(s, keys)) && !Reduce(s, keys).single
    ensures Reduce(s, keys + [Enter] + rest) == Reduce(s, keys).(done := true)
    ensures Reduce(s, keys + [Cancel] + rest) == Reduce(s, keys).(cancelled := true)
  {
    ReduceAppend(s, keys + [Enter], rest);
    ReduceSnoc(s, keys, Enter);
    TerminalAbsorbs(Reducer(Reduce(s, keys), Enter), rest);
    ReduceAppend(s, keys + [Cancel], rest);
    ReduceSnoc(s, keys, Cancel);
    TerminalAbsorbs(Reducer(Reduce(s, keys), Cancel), rest);
  }

  /** Over every list and every keys: a confirmed multi-select hands back exactly its marked items, each in its place. */
  lemma {:induction false} ConfirmedSelection(items: seq<Text>, preChecked: set<Text>, keys: seq<Key>, rest: seq<Key>, id: Text)
    requires items != [] && IsOpen(keys)
    ensures var s := Reduce(InitState(items, preChecked, false), keys + [Enter] + rest);
            && s.done && !s.cancelled && s.items == items
            && (id in Selection(s) <==> id in items && IsMarked(items, preChecked, keys, id))
  {
    CursorIsTheSumOfArrows(items, preChecked, false, keys);
    EndsWith(InitState(items, preChecked, false), keys, rest);
    var s := Reduce(InitState(items, preChecked, false), keys);
    SelectionIsTheMarkedItems(items, s.checked, 0, id);
    if id in items {
      MarksAreTheReducers(items, preChecked, keys, id);
    }
  }

  // ----- a one-answer list -----

  /** The marks of a one-answer list: those it began with, and after a SPACE the item under the cursor or nothing. */
  function MarkOf(items: seq<Text>, preChecked: set<Text>, keys: seq<Key>): set<Text>
    requires items != []
  {
    if keys == [] then preChecked
    else
      var before := keys[..|keys| - 1];
      var marked := MarkOf(items, preChecked, before);
      var here := items[CursorAt(|items|, before)];
      if !keys[|keys| - 1].Space? then marked else if here in marked then {} else {here}
  }

  lemma {:induction false} MarkIsTheReducers(items: seq<Text>, preChecked: set<Text>, keys: seq<Key>)
    requires items != [] && IsOpen(keys)
    ensures Reduce(InitState(items, preChecked, true), keys).checked == MarkOf(items, preChecked, keys)
  {
    if keys != [] {
      var before, k := keys[..|keys| - 1], keys[|keys| - 1];
      assert keys == before + [k];
      CursorIsTheSumOfArrows(items, preChecked, true, before);
      ReduceSnoc(InitState(items, preChecked, true), before, k);
      MarkIsTheReducers(items, preChecked, before);
    }
  }

  /** Enter takes what is marked, and where nothing is, the item the arrows add up to. */
  lemma {:induction false} ConfirmedAnswer(items: seq<Text>, preChecked: set<Text>, keys: seq<Key>, rest: seq<Key>)
    requires items != [] && IsOpen(keys)
    ensures var s := Reduce(InitState(items, preChecked, true), keys + [Enter] + rest);
            var marked := MarkOf(items, preChecked, keys);
            && s.done && !s.cancelled && s.items == items
            && s.checked == if marked == {} then {items[CursorAt(|items|, keys)]} else marked
  {
    var start := InitState(items, preChecked, true);
    CursorIsTheSumOfArrows(items, preChecked, true, keys);
    MarkIsTheReducers(items, preChecked, keys);
    ReduceAppend(start, keys + [Enter], rest);
    ReduceSnoc(start, keys, Enter);
    TerminalAbsorbs(Reducer(Reduce(start, keys), Enter), rest);
  }

  // ----- from what is typed to the answer -----

  lemma {:induction false} KeysTypedAppend(a: seq<Typed>, b: seq<Typed>)
    ensures KeysTyped(a + b) == KeysTyped(a) + KeysTyped(b)
  {
    if a == [] {
      assert a + b == b;
    } else {
      assert (a + b)[1..] == a[1..] + b;
      KeysTypedAppend(a[1..], b);
    }
  }

  /**
   * End to end: whatever keys are typed, in whatever spellings, and however the terminal cuts them into
   * reads, once Enter has come the prompt's state hands back exactly the marked items.
   */
  lemma {:induction false} TypedSelection(items: seq<Text>, preChecked: set<Text>, typed: seq<Typed>, enter: Typed, rest: seq<Typed>,
                                          chunks: seq<Text>, id: Text)
    requires items != [] && IsTyping(typed + [enter] + rest) && enter.key.Enter? && IsOpen(KeysTyped(typed))
    requires Concat(chunks) == TextTyped(typed + [enter] + rest)
    ensures var s := FeedAll(Session(InitState(items, preChecked, false), [], true), chunks).state;
            && s.done && !s.cancelled
            && (id in Selection(s) <==> id in items && IsMarked(items, preChecked, KeysTyped(typed), id))
  {
    PromptIgnoresChunking(InitState(items, preChecked, false), chunks);
    TypedKeysAreRead(typed + [enter] + rest);
    KeysTypedAppend(typed + [enter], rest);
    KeysTypedAppend(typed, [enter]);
    assert KeysTyped([enter]) == [Enter];
    ConfirmedSelection(items, preChecked, KeysTyped(typed), KeysTyped(rest), id);
  }
}
