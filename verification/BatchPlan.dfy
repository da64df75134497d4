/**
 * What a batch freezes (packages/durable/src/batch.ts): the canonical plan of an item list and its
 * token.
 *
 * `argsHash` is the parameter `hash`, assumed injective on canonical values; an item is its canonical
 * text.
 */
module BatchPlan {
  import opened Common

  type Item = Text

  datatype Policy = Skip | SuspendItem | FailBatch

  datatype Keyed = Keyed(key: Text, item: Item)

  // ----- JavaScript string order -----

  /** `a < b`: by the first code unit that differs, a proper prefix first. */
  predicate Less(a: Text, b: Text) {
    b != [] && (a == [] || a[0] < b[0] || (a[0] == b[0] && Less(a[1..], b[1..])))
  }

  lemma {:induction false} LessIsAsymmetric(a: Text, b: Text)
    requires Less(a, b)
    ensures !Less(b, a) && a != b
    decreases |a|
  {
    if a != [] && a[0] == b[0] {
      LessIsAsymmetric(a[1..], b[1..]);
    }
  }

  lemma {:induction false} LessIsTotal(a: Text, b: Text)
    requires a != b
    ensures Less(a, b) || Less(b, a)
    decreases |a|
  {
    if a != [] && b != [] && a[0] == b[0] {
      assert a == [a[0]] + a[1..] && b == [b[0]] + b[1..];
      LessIsTotal(a[1..], b[1..]);
    }
  }

  lemma {:induction false} LessIsTransitive(a: Text, b: Text, c: Text)
    requires Less(a, b) && Less(b, c)
    ensures Less(a, c)
    decreases |a|
  {
    if a != [] && a[0] == b[0] == c[0] {
      LessIsTransitive(a[1..], b[1..], c[1..]);
    }
  }

  // ----- sorting by key -----

  ghost predicate IsAscending(s: seq<Keyed>) {
    forall i, j :: 0 <= i < j < |s| ==> Less(s[i].key, s[j].key)
  }

  function Insert(x: Keyed, s: seq<Keyed>): seq<Keyed> {
    if s == [] || Less(x.key, s[0].key) then [x] + s else [s[0]] + Insert(x, s[1..])
  }

  /** `keyed.sort(...)`. */
  function SortByKey(s: seq<Keyed>): seq<Keyed> {
    if s == [] then [] else Insert(s[|s| - 1], SortByKey(s[..|s| - 1]))
  }

  lemma {:induction false} InsertAdds(x: Keyed, s: seq<Keyed>)
    ensures multiset(Insert(x, s)) == multiset(s) + multiset{x}
  {
    if s != [] && !Less(x.key, s[0].key) {
      InsertAdds(x, s[1..]);
      assert s == [s[0]] + s[1..];
    }
  }

  lemma {:induction false} SortPermutes(s: seq<Keyed>)
    ensures multiset(SortByKey(s)) == multiset(s)
  {
    if s != [] {
      SortPermutes(s[..|s| - 1]);
      InsertAdds(s[|s| - 1], SortByKey(s[..|s| - 1]));
      assert s == s[..|s| - 1] + [s[|s| - 1]];
    }
  }

  lemma {:induction false} InsertAscends(x: Keyed, s: seq<Keyed>)
    requires IsAscending(s) && forall i :: 0 <= i < |s| ==> s[i].key != x.key
    ensures IsAscending(Insert(x, s))
  {
    if s == [] {
    } else if Less(x.key, s[0].key) {
      forall j | 0 <= j < |s| ensures Less(x.key, s[j].key) {
        if j > 0 {
          LessIsTransitive(x.key, s[0].key, s[j].key);
        }
      }
    } else {
      LessIsTotal(x.key, s[0].key);
      InsertAscends(x, s[1..]);
      InsertAdds(x, s[1..]);
      var tail := Insert(x, s[1..]);
      forall j | 0 <= j < |tail| ensures Less(s[0].key, tail[j].key) {
        assert tail[j] in multiset(tail);
        assert tail[j] == x || tail[j] in s[1..];
      }
    }
  }

  ghost predicate HasDistinctKeys(s: seq<Keyed>) {
    forall i, j :: 0 <= i < j < |s| ==> s[i].key != s[j].key
  }

  lemma {:induction false} SortAscends(s: seq<Keyed>)
    requires HasDistinctKeys(s)
    ensures IsAscending(SortByKey(s))
  {
    if s != [] {
      var before, x := s[..|s| - 1], s[|s| - 1];
      SortAscends(before);
      SortPermutes(before);
      forall i | 0 <= i < |SortByKey(before)| ensures SortByKey(before)[i].key != x.key {
        assert SortByKey(before)[i] in multiset(SortByKey(before));
        assert SortByKey(before)[i] in before;
      }
      InsertAscends(x, SortByKey(before));
    }
  }

  /** There is only one ascending arrangement of a collection. */
  lemma {:induction false} AscendingIsCanonical(a: seq<Keyed>, b: seq<Keyed>)
    requires IsAscending(a) && IsAscending(b) && multiset(a) == multiset(b)
    ensures a == b
  {
    if a == [] {
      assert |multiset(b)| == |b|;
    } else {
      assert a[0] in multiset(b) && b != [] by { assert a[0] in multiset(a); }
      SameFirst(a, b);
      assert a == [a[0]] + a[1..] && b == [b[0]] + b[1..];
      assert multiset(a[1..]) == multiset(a) - multiset{a[0]} == multiset(b[1..]);
      AscendingIsCanonical(a[1..], b[1..]);
    }
  }

  lemma {:induction false} SameFirst(a: seq<Keyed>, b: seq<Keyed>)
    requires a != [] && b != [] && IsAscending(a) && IsAscending(b) && multiset(a) == multiset(b)
    ensures a[0] == b[0]
  {
    assert a[0] in multiset(b) by { assert a[0] in multiset(a); }
    assert b[0] in multiset(a) by { assert b[0] in multiset(b); }
    var i :| 0 <= i < |b| && b[i] == a[0];
    var j :| 0 <= j < |a| && a[j] == b[0];
    if i > 0 && j > 0 {
      LessIsAsymmetric(b[0].key, a[0].key);
    }
  }

  // ----- the token -----

  predicate IsSafeUnit(u: Unit) {
    || 'A' as int <= u <= 'Z' as int || 'a' as int <= u <= 'z' as int || '0' as int <= u <= '9' as int
    || u == '_' as int || u == '-' as int
  }

  /** `SAFE_ID`: what may become part of journal keys and run ids. */
  predicate IsSafeId(t: Text) {
    t != [] && forall i :: 0 <= i < |t| ==> IsSafeUnit(t[i])
  }

  datatype Refusal = UnsafeId | DuplicateKeys | PlanMismatch

  datatype Canonical = Plan(keyed: seq<Keyed>) | Refused(why: Refusal)

  function WithKeys(items: seq<Item>, itemKey: Item -> Text): (k: seq<Keyed>)
    ensures |k| == |items|
  {
    seq(|items|, i requires 0 <= i < |items| => Keyed(itemKey(items[i]), items[i]))
  }

  /** batch.ts `tokenOf` up to the hash: the checked, sorted list. */
  function Canonicalize(items: seq<Item>, itemKey: Item -> Text): Canonical {
    var keyed := WithKeys(items, itemKey);
    if exists i :: 0 <= i < |keyed| && !IsSafeId(keyed[i].key) then Refused(UnsafeId)
    else if exists i, j :: 0 <= i < j < |keyed| && keyed[i].key == keyed[j].key then Refused(DuplicateKeys)
    else Plan(SortByKey(keyed))
  }

  /** A list is accepted exactly if its keys are safe and no two of them are equal. */
  lemma {:induction false} PlanIffKeysAreGood(items: seq<Item>, itemKey: Item -> Text)
    ensures Canonicalize(items, itemKey).Plan? <==>
            && (forall x :: x in items ==> IsSafeId(itemKey(x)))
            && (forall i, j :: 0 <= i < j < |items| ==> itemKey(items[i]) != itemKey(items[j]))
  {
    var keyed := WithKeys(items, itemKey);
    assert forall i :: 0 <= i < |items| ==> keyed[i].key == itemKey(items[i]);
  }

  /** The plan lists every item once, under its own key, in strict key order. */
  lemma {:induction false} PlanIsSorted(items: seq<Item>, itemKey: Item -> Text)
    requires Canonicalize(items, itemKey).Plan?
    ensures var keyed := Canonicalize(items, itemKey).keyed;
            IsAscending(keyed) && multiset(keyed) == multiset(WithKeys(items, itemKey))
  {
    SortAscends(WithKeys(items, itemKey));
    SortPermutes(WithKeys(items, itemKey));
  }

  ghost predicate IsInjective(hash: (Policy, seq<Keyed>) -> Text) {
    forall p, k, q, l :: hash(p, k) == hash(q, l) ==> p == q && k == l
  }

  lemma {:induction false} WithKeysPermutes(a: seq<Item>, b: seq<Item>, itemKey: Item -> Text)
    ensures multiset(a) == multiset(b) <==> multiset(WithKeys(a, itemKey)) == multiset(WithKeys(b, itemKey))
  {
    forall k: Keyed ensures multiset(WithKeys(a, itemKey))[k] == (if k.key == itemKey(k.item) then multiset(a)[k.item] else 0) {
      KeyedCount(a, itemKey, k);
    }
    forall k: Keyed ensures multiset(WithKeys(b, itemKey))[k] == (if k.key == itemKey(k.item) then multiset(b)[k.item] else 0) {
      KeyedCount(b, itemKey, k);
    }
    if multiset(WithKeys(a, itemKey)) == multiset(WithKeys(b, itemKey)) {
      forall x: Item ensures multiset(a)[x] == multiset(b)[x] {
        assert multiset(WithKeys(a, itemKey))[Keyed(itemKey(x), x)] == multiset(WithKeys(b, itemKey))[Keyed(itemKey(x), x)];
      }
    }
  }

  lemma {:induction false} KeyedCount(items: seq<Item>, itemKey: Item -> Text, k: Keyed)
    ensures multiset(WithKeys(items, itemKey))[k] == if k.key == itemKey(k.item) then multiset(items)[k.item] else 0
  {
    if items != [] {
      var before, x := items[..|items| - 1], items[|items| - 1];
      KeyedCount(before, itemKey, k);
      assert items == before + [x];
      assert WithKeys(items, itemKey) == WithKeys(before, itemKey) + [Keyed(itemKey(x), x)];
    }
  }

  lemma {:induction false} RefusalIgnoresOrder(a: seq<Keyed>, b: seq<Keyed>)
    requires multiset(a) == multiset(b)
    ensures (exists i :: 0 <= i < |a| && !IsSafeId(a[i].key)) ==> exists i :: 0 <= i < |b| && !IsSafeId(b[i].key)
    ensures HasDistinctKeys(a) ==> HasDistinctKeys(b)
  {
    if exists i :: 0 <= i < |a| && !IsSafeId(a[i].key) {
      var i :| 0 <= i < |a| && !IsSafeId(a[i].key);
      assert a[i] in multiset(b) by { assert a[i] in multiset(a); }
    }
    if HasDistinctKeys(a) {
      SortAscends(a);
      SortPermutes(a);
      forall i, j | 0 <= i < j < |b| ensures b[i].key != b[j].key {
        DistinctFromSorted(SortByKey(a), b, i, j);
      }
    }
  }

  lemma {:induction false} DistinctFromSorted(s: seq<Keyed>, b: seq<Keyed>, i: nat, j: nat)
    requires IsAscending(s) && multiset(s) == multiset(b) && i < j < |b|
    ensures b[i].key != b[j].key
  {
    assert b[i] in multiset(s) && b[j] in multiset(s) by { assert b[i] in multiset(b) && b[j] in multiset(b); }
    var m :| 0 <= m < |s| && s[m] == b[i];
    var n :| 0 <= n < |s| && s[n] == b[j];
    if m < n {
      LessIsAsymmetric(s[m].key, s[n].key);
    } else if n < m {
      LessIsAsymmetric(s[n].key, s[m].key);
    } else {
      TwiceOccurs(b, i, j);
      AscendingOccursOnce(s, m);
    }
  }

  lemma {:induction false} TwiceOccurs(b: seq<Keyed>, i: nat, j: nat)
    requires i < j < |b| && b[i] == b[j]
    ensures multiset(b)[b[i]] >= 2
  {
    assert b == b[..j] + [b[j]] + b[j + 1..];
    assert b[..j][i] == b[i];
  }

  lemma {:induction false} AscendingOccursOnce(s: seq<Keyed>, m: nat)
    requires IsAscending(s) && m < |s|
    ensures multiset(s)[s[m]] == 1
  {
    var low, high := s[..m], s[m + 1..];
    assert s == low + [s[m]] + high;
    forall k | 0 <= k < |low| ensures low[k] != s[m] { LessIsAsymmetric(s[k].key, s[m].key); }
    forall k | 0 <= k < |high| ensures high[k] != s[m] { LessIsAsymmetric(s[m].key, s[m + 1 + k].key); }
  }

  /**
   * The order of the list is not part of its identity, and nothing else is left out of it: two lists
   * get the same canonical plan exactly when they are permutations of each other.
   */
  lemma {:induction false} PlanIdentifiesTheItems(a: seq<Item>, b: seq<Item>, itemKey: Item -> Text)
    ensures multiset(a) == multiset(b) ==> Canonicalize(a, itemKey) == Canonicalize(b, itemKey)
    ensures Canonicalize(a, itemKey).Plan? && Canonicalize(a, itemKey) == Canonicalize(b, itemKey) ==> multiset(a) == multiset(b)
  {
    var ka, kb := WithKeys(a, itemKey), WithKeys(b, itemKey);
    WithKeysPermutes(a, b, itemKey);
    if multiset(a) == multiset(b) {
      RefusalIgnoresOrder(ka, kb);
      RefusalIgnoresOrder(kb, ka);
      if Canonicalize(a, itemKey).Plan? {
        PlanIsSorted(a, itemKey);
        PlanIsSorted(b, itemKey);
        AscendingIsCanonical(SortByKey(ka), SortByKey(kb));
      }
    }
    if Canonicalize(a, itemKey).Plan? && Canonicalize(a, itemKey) == Canonicalize(b, itemKey) {
      SortPermutes(ka);
      SortPermutes(kb);
    }
  }

  /** So the token approves one policy and one collection of items, in any order. */
  lemma {:induction false} TokenApprovesExactlyOnePlan(a: seq<Item>, p: Policy, b: seq<Item>, q: Policy,
                                                       itemKey: Item -> Text, hash: (Policy, seq<Keyed>) -> Text)
    requires IsInjective(hash)
    requires Canonicalize(a, itemKey).Plan? && Canonicalize(b, itemKey).Plan?
    ensures hash(p, Canonicalize(a, itemKey).keyed) == hash(q, Canonicalize(b, itemKey).keyed)
            <==> p == q && multiset(a) == multiset(b)
  {
    PlanIdentifiesTheItems(a, b, itemKey);
  }
}
