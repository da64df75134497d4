/**
 * Sharded counters (packages/durable/src/counter-shard.ts) over a journal whose `incrBy` adds fields
 * atomically. Counts are integers.
 */
module CounterShards {
  import opened Common

  type Counter = map<Text, int>
  type Store = map<Text, Counter>

  const HASH: Unit := '#' as int

  // ----- FNV-1a -----

  const OFFSET_BASIS: nat := 2166136261
  const PRIME: nat := 16777619
  const WORD: nat := 0x1_0000_0000

  /** Exclusive or, bit by bit from the lowest. */
  function Xor(a: nat, b: nat): nat
    decreases a + b
  {
    if a == 0 && b == 0 then 0 else (if a % 2 == b % 2 then 0 else 1) + 2 * Xor(a / 2, b / 2)
  }

  /** One unit into the hash; `Math.imul` multiplies modulo 2^32 (its sign does not survive `>>> 0`). */
  function Mix(h: nat, u: Unit): (r: nat)
    requires h < WORD
    ensures r < WORD
  {
    (Xor(h, u) * PRIME) % WORD
  }

  /** The hash of the first `n` units of `id`. */
  function Fnv(id: Text, n: nat): (h: nat)
    requires n <= |id|
    ensures h < WORD
  {
    if n == 0 then OFFSET_BASIS else Mix(Fnv(id, n - 1), id[n - 1])
  }

  // ----- no two ids that differ in one place collide -----

  function Pow2(n: nat): nat {
    if n == 0 then 1 else 2 * Pow2(n - 1)
  }

  lemma {:induction false} Pow2Adds(m: nat, n: nat)
    ensures Pow2(m + n) == Pow2(m) * Pow2(n)
  {
    if m > 0 {
      Pow2Adds(m - 1, n);
      assert Pow2(m + n) == 2 * Pow2(m - 1 + n);
    }
  }

  lemma {:induction false} WordIsAPower()
    ensures Pow2(32) == WORD
  {
    assert Pow2(1) == 2;
    Pow2Adds(1, 1);
    Pow2Adds(2, 2);
    Pow2Adds(4, 4);
    Pow2Adds(8, 8);
    Pow2Adds(16, 16);
  }

  lemma {:induction false} XorIsBounded(a: nat, b: nat, n: nat)
    requires a < Pow2(n) && b < Pow2(n)
    ensures Xor(a, b) < Pow2(n)
    decreases n
  {
    if n > 0 {
      XorIsBounded(a / 2, b / 2, n - 1);
    }
  }

  lemma {:induction false} XorIsInjective(a: nat, b: nat, c: nat)
    requires Xor(a, c) == Xor(b, c)
    ensures a == b
    decreases a + b + c
  {
    if a + b + c > 0 {
      assert Xor(a, c) == (if a % 2 == c % 2 then 0 else 1) + 2 * Xor(a / 2, c / 2);
      assert Xor(b, c) == (if b % 2 == c % 2 then 0 else 1) + 2 * Xor(b / 2, c / 2);
      XorIsInjective(a / 2, b / 2, c / 2);
    }
  }

  lemma {:induction false} XorCommutes(a: nat, b: nat)
    ensures Xor(a, b) == Xor(b, a)
    decreases a + b
  {
    if a + b > 0 {
      XorCommutes(a / 2, b / 2);
    }
  }

  /** The inverse of the prime modulo 2^32. */
  const INVERSE: nat := 899433627
  const ROUNDS: nat := 3513497

  /** Multiplying by the prime loses nothing. */
  lemma {:induction false} MultiplyIsInjective(a: nat, b: nat)
    requires a < WORD && b < WORD && (a * PRIME) % WORD == (b * PRIME) % WORD
    ensures a == b
  {
    var r := (a * PRIME) / WORD - (b * PRIME) / WORD;
    var d := a - b;
    assert d * PRIME == r * WORD;
    assert PRIME * INVERSE == ROUNDS * WORD + 1;
    assert d * PRIME * INVERSE == r * WORD * INVERSE;
    var m := r * INVERSE - d * ROUNDS;
    assert d == m * WORD;
    assert m >= 1 ==> d >= WORD;
    assert m <= -1 ==> d + WORD <= 0;
  }

  lemma {:induction false} SameBeforeMultiplying(h: nat, u: Unit, g: nat, v: Unit)
    requires h < WORD && g < WORD && Mix(h, u) == Mix(g, v)
    ensures Xor(h, u) == Xor(g, v)
  {
    WordIsAPower();
    XorIsBounded(h, u, 32);
    XorIsBounded(g, v, 32);
    MultiplyIsInjective(Xor(h, u), Xor(g, v));
  }

  lemma {:induction false} MixIsInjective(h: nat, u: Unit, g: nat, v: Unit)
    requires h < WORD && g < WORD && Mix(h, u) == Mix(g, v)
    ensures u == v ==> h == g
    ensures h == g ==> u == v
  {
    SameBeforeMultiplying(h, u, g, v);
    if u == v {
      XorIsInjective(h, g, u);
    } else if h == g {
      XorCommutes(h, u);
      XorCommutes(g, v);
      XorIsInjective(u, v, h);
    }
  }

  /** The hash takes every unit of an id into account: ids of one length that differ in just one place hash differently. */
  lemma {:induction false} OneUnitChangesTheHash(x: Text, y: Text, k: nat, n: nat)
    requires |x| == |y| && k < |x| && x[k] != y[k] && n <= |x|
    requires forall i :: 0 <= i < |x| && i != k ==> x[i] == y[i]
    ensures Fnv(x, n) == Fnv(y, n) <==> n <= k
    decreases n
  {
    if n > 0 {
      OneUnitChangesTheHash(x, y, k, n - 1);
      if Fnv(x, n) == Fnv(y, n) {
        MixIsInjective(Fnv(x, n - 1), x[n - 1], Fnv(y, n - 1), y[n - 1]);
      }
    }
  }

  function ShardIndex(id: Text, shards: int): (i: nat)
    requires shards > 1
    ensures i < shards
  {
    Fnv(id, |id|) % shards
  }

  /** The suffix that spreads a counter; empty when sharding is off. */
  function Suffix(id: Text, shards: int): Text {
    if shards <= 1 then [] else [HASH] + Decimal(ShardIndex(id, shards))
  }

  /** counter-shard.ts `shardSuffix`: the same id and count always give the same shard, below the count. */
  method ShardSuffix(id: Text, shards: int) returns (suffix: Text)
    ensures suffix == Suffix(id, shards)
    ensures shards > 1 ==> exists i :: 0 <= i < shards && suffix == [HASH] + Decimal(i)
  {
    if shards <= 1 {
      return [];
    }
    var h := OFFSET_BASIS;
    for i := 0 to |id|
      invariant h == Fnv(id, i)
    {
      h := Mix(h, id[i]);
    }
    suffix := [HASH] + Decimal(h % shards);
    assert h % shards == ShardIndex(id, shards);
  }

  // ----- adding counters -----

  function Field(c: Counter, f: Text): int {
    if f in c then c[f] else 0
  }

  function AddFields(a: Counter, b: Counter): Counter {
    map f | f in a.Keys + b.Keys :: Field(a, f) + Field(b, f)
  }

  /** Addition where a missing counter counts for nothing. */
  function Plus(a: Option<Counter>, b: Option<Counter>): Option<Counter> {
    if a.None? then b else if b.None? then a else Some(AddFields(a.value, b.value))
  }

  lemma {:induction false} PlusIsCommutative(a: Option<Counter>, b: Option<Counter>)
    ensures Plus(a, b) == Plus(b, a)
  {
    if a.Some? && b.Some? {
      assert AddFields(a.value, b.value) == AddFields(b.value, a.value);
    }
  }

  lemma {:induction false} PlusIsAssociative(a: Option<Counter>, b: Option<Counter>, c: Option<Counter>)
    ensures Plus(Plus(a, b), c) == Plus(a, Plus(b, c))
  {
    if a.Some? && b.Some? && c.Some? {
      assert AddFields(AddFields(a.value, b.value), c.value) == AddFields(a.value, AddFields(b.value, c.value));
    }
  }

  function Lookup(store: Store, key: Text): Option<Counter> {
    if key in store then Some(store[key]) else None
  }

  /** The journal's `incrBy`. */
  function IncrBy(store: Store, key: Text, fields: Counter): Store {
    store[key := AddFields(if key in store then store[key] else map[], fields)]
  }

  lemma {:induction false} IncrByAdds(store: Store, key: Text, fields: Counter, other: Text)
    ensures Lookup(IncrBy(store, key, fields), other) ==
            if other == key then Plus(Lookup(store, key), Some(fields)) else Lookup(store, other)
  {
    assert AddFields(map[], fields) == fields;
  }

  // ----- reading across shards -----

  function ShardKey(key: Text, i: nat): Text {
    key + [HASH] + Decimal(i)
  }

  /** The bare key and the first `shards` shard keys. */
  function ShardKeys(key: Text, shards: int): (keys: seq<Text>)
    ensures |keys| == 1 + if shards <= 1 then 0 else shards
  {
    [key] + seq(if shards <= 1 then 0 else shards, i requires 0 <= i => ShardKey(key, i))
  }

  function SumOf(store: Store, keys: seq<Text>): Option<Counter> {
    if keys == [] then None else Plus(SumOf(store, keys[..|keys| - 1]), Lookup(store, keys[|keys| - 1]))
  }

  /** The fields of `part` that are not in `todo`. */
  ghost function Without(part: Counter, todo: set<Text>): Counter {
    map f | f in part && f !in todo :: part[f]
  }

  lemma {:induction false} AddOneField(out: Counter, part: Counter, todo: set<Text>, f: Text)
    requires f in todo && f in part
    ensures var r := AddFields(out, Without(part, todo));
            r[f := Field(r, f) + part[f]] == AddFields(out, Without(part, todo - {f}))
  {
    var r, p, q := AddFields(out, Without(part, todo)), Without(part, todo), Without(part, todo - {f});
    assert q.Keys == p.Keys + {f};
    assert forall g :: g in q && g != f ==> g in p && q[g] == p[g];
    assert Field(r, f) == Field(out, f);
  }

  lemma {:induction false} AddEnds(out: Counter, part: Counter)
    ensures AddFields(out, Without(part, part.Keys)) == out
    ensures Without(part, {}) == part
  {
    assert Without(part, part.Keys) == map[];
  }

  /** `for (const [f, v] of Object.entries(p)) out[f] = (out[f] ?? 0) + v`. */
  method AddInto(out: Counter, part: Counter) returns (r: Counter)
    ensures r == AddFields(out, part)
  {
    r := out;
    var todo := part.Keys;
    AddEnds(out, part);
    while todo != {}
      invariant todo <= part.Keys
      invariant r == AddFields(out, Without(part, todo))
      decreases |todo|
    {
      var f :| f in todo;
      AddOneField(out, part, todo, f);
      r := r[f := Field(r, f) + part[f]];
      todo := todo - {f};
    }
  }

  /** counter-shard.ts `sumShards`. */
  method SumShards(store: Store, key: Text, shards: int) returns (sum: Option<Counter>)
    ensures sum == SumOf(store, ShardKeys(key, shards))
  {
    var keys := ShardKeys(key, shards);
    sum := None;
    for n := 0 to |keys|
      invariant sum == SumOf(store, keys[..n])
    {
      assert keys[..n + 1][..n] == keys[..n];
      if keys[n] in store {
        var before := if sum.Some? then sum.value else map[];
        var out := AddInto(before, store[keys[n]]);
        if sum.None? {
          assert AddFields(map[], store[keys[n]]) == store[keys[n]];
        }
        sum := Some(out);
      }
    }
    assert keys[..|keys|] == keys;
  }

  // ----- histories -----

  /** One increment of a logical counter, routed by an id under the shard count in force at the time. */
  datatype Increment = Increment(key: Text, id: Text, shards: int, fields: Counter)

  function PhysicalKey(inc: Increment): Text {
    inc.key + Suffix(inc.id, inc.shards)
  }

  function StoreAfter(h: seq<Increment>): Store {
    if h == [] then map[] else IncrBy(StoreAfter(h[..|h| - 1]), PhysicalKey(h[|h| - 1]), h[|h| - 1].fields)
  }

  /** The sum of the increments that landed on one of `keys`; `None` if there are none. */
  function TotalOn(h: seq<Increment>, keys: seq<Text>): Option<Counter> {
    if h == [] then None
    else Plus(TotalOn(h[..|h| - 1], keys), if PhysicalKey(h[|h| - 1]) in keys then Some(h[|h| - 1].fields) else None)
  }

  ghost predicate AreDistinct(keys: seq<Text>) {
    forall i, j :: 0 <= i < j < |keys| ==> keys[i] != keys[j]
  }

  /** One increment moves a sum over distinct keys by its fields if it hits one of them, and not at all otherwise. */
  lemma {:induction false} SumAfterIncr(store: Store, keys: seq<Text>, key: Text, fields: Counter)
    requires AreDistinct(keys)
    ensures SumOf(IncrBy(store, key, fields), keys) ==
            if key in keys then Plus(SumOf(store, keys), Some(fields)) else SumOf(store, keys)
    decreases |keys|
  {
    if keys != [] {
      var before, last := keys[..|keys| - 1], keys[|keys| - 1];
      assert keys == before + [last];
      SumAfterIncr(store, before, key, fields);
      IncrByAdds(store, key, fields, last);
      var s, l, f := SumOf(store, before), Lookup(store, last), Some(fields);
      if key == last {
        assert key !in before;
        PlusIsAssociative(s, l, f);
      } else if key in before {
        PlusIsAssociative(s, f, l);
        PlusIsCommutative(f, l);
        PlusIsAssociative(s, l, f);
      }
    }
  }

  /** What is summed is exactly the increments that landed on the keys read. */
  lemma {:induction false} SumIsTotalOfVisible(h: seq<Increment>, keys: seq<Text>)
    requires AreDistinct(keys)
    ensures SumOf(StoreAfter(h), keys) == TotalOn(h, keys)
    decreases |h|
  {
    if h == [] {
      NothingStored(keys);
    } else {
      var before, inc := h[..|h| - 1], h[|h| - 1];
      SumIsTotalOfVisible(before, keys);
      SumAfterIncr(StoreAfter(before), keys, PhysicalKey(inc), inc.fields);
    }
  }

  lemma {:induction false} NothingStored(keys: seq<Text>)
    ensures SumOf(map[], keys) == None
  {
    if keys != [] {
      NothingStored(keys[..|keys| - 1]);
    }
  }

  // ----- keys do not collide -----

  ghost predicate IsPlain(key: Text) {
    forall i :: 0 <= i < |key| ==> key[i] != HASH
  }

  lemma {:induction false} ShardKeysDiffer(k: Text, i: nat, l: Text, j: nat)
    requires IsPlain(k) && IsPlain(l) && ShardKey(k, i) == ShardKey(l, j)
    ensures k == l && i == j
  {
    var a, b := ShardKey(k, i), ShardKey(l, j);
    assert a[|k|] == HASH && b[|l|] == HASH;
    DecimalHasOnlyDigits(i);
    DecimalHasOnlyDigits(j);
    assert |k| == |l|;
    assert k == a[..|k|] == l;
    assert Decimal(i) == a[|k| + 1..] == Decimal(j);
    DecimalIsInjective(i, j);
  }

  lemma {:induction false} BareKeyDiffers(k: Text, l: Text, j: nat)
    requires IsPlain(k)
    ensures k != ShardKey(l, j)
  {
    assert ShardKey(l, j)[|l|] == HASH;
  }

  lemma {:induction false} ShardKeysAreDistinct(key: Text, shards: int)
    requires IsPlain(key)
    ensures AreDistinct(ShardKeys(key, shards))
  {
    var keys := ShardKeys(key, shards);
    forall i, j | 0 <= i < j < |keys| ensures keys[i] != keys[j] {
      if i == 0 {
        BareKeyDiffers(key, key, j - 1);
      } else if keys[i] == keys[j] {
        ShardKeysDiffer(key, i - 1, key, j - 1);
      }
    }
  }

  /** The reader of `key` under `shards` sees an increment: same counter, and its shard is one it knows. */
  predicate IsVisible(inc: Increment, key: Text, shards: int) {
    inc.key == key && (inc.shards <= 1 || (shards > 1 && ShardIndex(inc.id, inc.shards) < shards))
  }

  lemma {:induction false} VisibleIffKeyIsRead(inc: Increment, key: Text, shards: int)
    requires IsPlain(key) && IsPlain(inc.key)
    ensures PhysicalKey(inc) in ShardKeys(key, shards) <==> IsVisible(inc, key, shards)
  {
    var keys := ShardKeys(key, shards);
    if inc.shards <= 1 {
      assert PhysicalKey(inc) == inc.key;
      assert keys[0] == key;
      if inc.key in keys {
        var i :| 0 <= i < |keys| && keys[i] == inc.key;
        if i > 0 {
          BareKeyDiffers(inc.key, key, i - 1);
        }
      }
    } else {
      var n := ShardIndex(inc.id, inc.shards);
      assert PhysicalKey(inc) == ShardKey(inc.key, n);
      if IsVisible(inc, key, shards) {
        assert keys[n + 1] == PhysicalKey(inc);
      }
      if PhysicalKey(inc) in keys {
        var i :| 0 <= i < |keys| && keys[i] == PhysicalKey(inc);
        if i == 0 {
          BareKeyDiffers(key, inc.key, n);
        } else {
          ShardKeysDiffer(inc.key, n, key, i - 1);
        }
      }
    }
  }

  ghost predicate HasPlainKeys(h: seq<Increment>) {
    forall i :: 0 <= i < |h| ==> IsPlain(h[i].key)
  }

  /** The sum of the increments a reader sees. */
  function VisibleTotal(h: seq<Increment>, key: Text, shards: int): Option<Counter> {
    if h == [] then None
    else Plus(VisibleTotal(h[..|h| - 1], key, shards), if IsVisible(h[|h| - 1], key, shards) then Some(h[|h| - 1].fields) else None)
  }

  lemma {:induction false} TotalsAgree(h: seq<Increment>, key: Text, shards: int)
    requires IsPlain(key) && HasPlainKeys(h)
    ensures TotalOn(h, ShardKeys(key, shards)) == VisibleTotal(h, key, shards)
  {
    if h != [] {
      VisibleIffKeyIsRead(h[|h| - 1], key, shards);
      TotalsAgree(h[..|h| - 1], key, shards);
    }
  }

  /**
   * For any history under varying shard counts, reading with `shards` returns the total of exactly the
   * visible increments, and nothing if there are none.
   */
  lemma {:induction false} SumIsTheVisibleTotal(h: seq<Increment>, key: Text, shards: int)
    requires IsPlain(key) && HasPlainKeys(h)
    ensures SumOf(StoreAfter(h), ShardKeys(key, shards)) == VisibleTotal(h, key, shards)
  {
    ShardKeysAreDistinct(key, shards);
    SumIsTotalOfVisible(h, ShardKeys(key, shards));
    TotalsAgree(h, key, shards);
  }

  /** The same history with sharding off. */
  function Unsharded(h: seq<Increment>): (u: seq<Increment>)
    ensures |u| == |h|
  {
    seq(|h|, i requires 0 <= i < |h| => h[i].(shards := 1))
  }

  lemma {:induction false} UnshardedTotal(h: seq<Increment>, key: Text, shards: int)
    requires forall i :: 0 <= i < |h| && h[i].key == key ==> h[i].shards <= shards
    ensures VisibleTotal(Unsharded(h), key, 1) == VisibleTotal(h, key, shards)
  {
    if h != [] {
      UnshardedTotal(h[..|h| - 1], key, shards);
      assert Unsharded(h)[..|h| - 1] == Unsharded(h[..|h| - 1]);
    }
  }

  /** Sharding is invisible: read with at least the count ever used, the sum is the one unsharded counter. */
  lemma {:induction false} ShardingIsInvisible(h: seq<Increment>, key: Text, shards: int)
    requires IsPlain(key) && HasPlainKeys(h)
    requires forall i :: 0 <= i < |h| && h[i].key == key ==> h[i].shards <= shards
    ensures SumOf(StoreAfter(h), ShardKeys(key, shards)) == Lookup(StoreAfter(Unsharded(h)), key)
  {
    SumIsTheVisibleTotal(h, key, shards);
    UnshardedTotal(h, key, shards);
    SumIsTheVisibleTotal(Unsharded(h), key, 1);
    assert ShardKeys(key, 1) == [key];
    assert [key][..0] == [];
  }

  lemma {:induction false} NothingVisible(h: seq<Increment>, key: Text, shards: int)
    ensures VisibleTotal(h, key, shards).None? <==> forall i :: 0 <= i < |h| ==> !IsVisible(h[i], key, shards)
  {
    if h != [] {
      NothingVisible(h[..|h| - 1], key, shards);
      if VisibleTotal(h, key, shards).Some? && !IsVisible(h[|h| - 1], key, shards) {
        var i :| 0 <= i < |h| - 1 && IsVisible(h[..|h| - 1][i], key, shards);
        assert IsVisible(h[i], key, shards);
      }
    }
  }

  /** What `sumShards` returns is undefined exactly if no increment it can see was ever written. */
  lemma {:induction false} NothingWritten(h: seq<Increment>, key: Text, shards: int)
    requires IsPlain(key) && HasPlainKeys(h)
    ensures SumOf(StoreAfter(h), ShardKeys(key, shards)).None? <==> forall i :: 0 <= i < |h| ==> !IsVisible(h[i], key, shards)
  {
    SumIsTheVisibleTotal(h, key, shards);
    NothingVisible(h, key, shards);
  }
}
