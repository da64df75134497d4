/**
 * The cross-run result cache (packages/cache/src/index.ts): several instances on one shared store,
 * any of whose operations may fail, before or after taking effect.
 *
 * Every stretch of code between two `await`s is one step and every store operation is another, so an
 * event list is one interleaving of calls, store effects, failures and expiries. `argsHash` is outside:
 * a key is its hash, hexadecimal and therefore free of colons.
 */
module ResultCache {
  import opened Common

  const COLON: Unit := ':' as int

  type Hash = t: Text | COLON !in t

  datatype Value = Undefined | Data(json: Text)

  /** `{ v }`, which tells a cached `undefined` from a missing entry. */
  datatype Rec = Rec(v: Value)

  // ----- keys -----

  /** `${namespace}:${argsHash(key)}`. */
  function KeyOf(namespace: Text, h: Hash): Text {
    namespace + [COLON] + h
  }

  /** Two namespaces never meet in one store key, colons in their names included. */
  lemma {:induction false} KeysDiffer(m: Text, g: Hash, n: Text, h: Hash)
    requires KeyOf(m, g) == KeyOf(n, h)
    ensures m == n && g == h
  {
    var a, b := KeyOf(m, g), KeyOf(n, h);
    assert a[|m|] == COLON && b[|n|] == COLON;
    forall j | |m| < j < |a| ensures a[j] != COLON { NoColonBehind(m, g, j); }
    forall j | |n| < j < |b| ensures b[j] != COLON { NoColonBehind(n, h, j); }
    assert m == a[..|m|] == n;
    assert g == a[|m| + 1..] == h;
  }

  lemma {:induction false} NoColonBehind(n: Text, h: Hash, j: nat)
    requires |n| < j < |KeyOf(n, h)|
    ensures KeyOf(n, h)[j] != COLON
  {
    assert KeyOf(n, h)[j] == h[j - |n| - 1];
  }

  // ----- one instance -----

  datatype Instance = Instance(hits: nat, misses: nat, known: set<Text>)

  const NEW := Instance(0, 0, {})

  /** What the instance can learn about a key. */
  datatype What = Found | Missed | Stored | Removed

  function Learn(i: Instance, key: Text, what: What): Instance {
    match what
    case Found => i.(hits := i.hits + 1, known := i.known + {key})
    case Missed => i.(misses := i.misses + 1)
    case Stored => i.(known := i.known + {key})
    case Removed => i.(known := i.known - {key})
  }

  // ----- calls in flight -----

  /** `computed` is what `compute` resolves to; `None` when it throws. */
  datatype Ask =
    | Get(h: Hash)
    | GetOrCompute(h: Hash, computed: Option<Value>)
    | Set(h: Hash, value: Value)
    | Invalidate(h: Hash)
    | InvalidateAll

  datatype Phase =
    | Reading
    | Answered(found: Option<Rec>)
    | Computing
    | Writing(value: Value)
    | Written(ok: bool, value: Value)
    | Deleting(todo: seq<Text>, n: nat)
    | Deleted(ok: bool, todo: seq<Text>, n: nat)
    | Returned(value: Value)
    | Counted(n: nat)
    | Threw

  datatype Job = Job(inst: nat, ask: Ask, phase: Phase)

  datatype Entry = Entry(job: nat, inst: nat, key: Text, what: What)

  datatype State = State(store: map<Text, Rec>, instances: seq<Instance>, jobs: seq<Job>, log: seq<Entry>)

  datatype Effect = Succeeds | FailsBefore | FailsAfter

  /** `order` is the order in which `[...known]` lists the known keys. */
  datatype Event =
    | Call(inst: nat, ask: Ask, order: seq<Text>)
    | StoreActs(job: nat, effect: Effect)
    | Continue(job: nat)
    | Expire(key: Text)

  function Initial(ns: seq<Text>): State {
    State(map[], seq(|ns|, _ => NEW), [], [])
  }

  predicate Lists(order: seq<Text>, known: set<Text>) {
    (set k | k in order) == known && |order| == |known|
  }

  function FirstPhase(ask: Ask, key: Text, order: seq<Text>): Phase {
    match ask
    case Set(_, v) => Writing(v)
    case Invalidate(_) => Deleting([key], 0)
    case InvalidateAll => if order == [] then Counted(0) else Deleting(order, 0)
    case _ => Reading
  }

  function KeyFor(ask: Ask, ns: seq<Text>, inst: nat): Text
    requires inst < |ns|
  {
    if ask.InvalidateAll? then [] else KeyOf(ns[inst], ask.h)
  }

  function WithPhase(s: State, t: nat, p: Phase): State
    requires t < |s.jobs|
  {
    s.(jobs := s.jobs[t := s.jobs[t].(phase := p)])
  }

  /** The instance of job `t` learns something, which goes on record. */
  function Observe(s: State, t: nat, key: Text, what: What): State
    requires t < |s.jobs| && s.jobs[t].inst < |s.instances|
  {
    var i := s.jobs[t].inst;
    s.(instances := s.instances[i := Learn(s.instances[i], key, what)], log := s.log + [Entry(t, i, key, what)])
  }

  /** The store does what it was last asked by job `t`. */
  function StoreStep(s: State, t: nat, effect: Effect, key: Text): State
    requires t < |s.jobs|
  {
    var ok, happens := effect.Succeeds?, !effect.FailsBefore?;
    match s.jobs[t].phase
    case Reading => WithPhase(s, t, Answered(if ok && key in s.store then Some(s.store[key]) else None))
    case Writing(v) => WithPhase(s, t, Written(ok, v)).(store := if happens then s.store[key := Rec(v)] else s.store)
    case Deleting(todo, n) =>
      if todo == [] then s
      else WithPhase(s, t, Deleted(ok, todo, n)).(store := if happens then s.store - {todo[0]} else s.store)
    case _ => s
  }

  /** What job `t` learns when it goes on. */
  function Learned(job: Job, key: Text): Option<(Text, What)> {
    match job.phase
    case Answered(found) => Some((key, if found.Some? then Found else Missed))
    case Written(ok, _) => if ok then Some((key, Stored)) else None
    case Deleted(ok, todo, _) => if ok && todo != [] then Some((todo[0], Removed)) else None
    case _ => None
  }

  /** Where it then is. */
  function NextPhase(job: Job): Phase {
    match job.phase
    case Answered(found) =>
      if found.Some? then Returned(found.value.v)
      else if job.ask.GetOrCompute? then Computing
      else Returned(Undefined)
    case Computing =>
      if job.ask.GetOrCompute? && job.ask.computed.Some? then Writing(job.ask.computed.value) else Threw
    case Written(_, v) => Returned(if job.ask.GetOrCompute? then v else Undefined)
    case Deleted(ok, todo, n) =>
      var n' := if ok && todo != [] then n + 1 else n;
      if |todo| <= 1 then Counted(n') else Deleting(todo[1..], n')
    case p => p
  }

  function ContinueStep(s: State, t: nat, key: Text): State
    requires t < |s.jobs| && s.jobs[t].inst < |s.instances|
  {
    var learned := Learned(s.jobs[t], key);
    var s1 := if learned.Some? then Observe(s, t, learned.value.0, learned.value.1) else s;
    WithPhase(s1, t, NextPhase(s.jobs[t]))
  }

  predicate IsJob(s: State, t: nat, ns: seq<Text>) {
    t < |s.jobs| && s.jobs[t].inst < |s.instances| && s.jobs[t].inst < |ns|
  }

  /** One step; an event that is not enabled changes nothing. */
  function Step(s: State, e: Event, ns: seq<Text>): State {
    match e
    case Call(i, ask, order) =>
      if i < |s.instances| && i < |ns| && (ask.InvalidateAll? ==> Lists(order, s.instances[i].known))
      then s.(jobs := s.jobs + [Job(i, ask, FirstPhase(ask, KeyFor(ask, ns, i), order))]) else s
    case StoreActs(t, effect) =>
      if IsJob(s, t, ns) then StoreStep(s, t, effect, KeyFor(s.jobs[t].ask, ns, s.jobs[t].inst)) else s
    case Continue(t) =>
      if IsJob(s, t, ns) then ContinueStep(s, t, KeyFor(s.jobs[t].ask, ns, s.jobs[t].inst)) else s
    case Expire(key) => s.(store := s.store - {key})
  }

  function RunFrom(s: State, events: seq<Event>, ns: seq<Text>): State
    decreases |events|
  {
    if events == [] then s else RunFrom(Step(s, events[0], ns), events[1..], ns)
  }

  function Run(events: seq<Event>, ns: seq<Text>): State {
    RunFrom(Initial(ns), events, ns)
  }

  // ----- the cache agrees with the function it caches -----

  /** A pure function of namespace and key. */
  type Cached = (Text, Text) -> Value

  predicate AskAgrees(ask: Ask, namespace: Text, f: Cached) {
    && (ask.GetOrCompute? && ask.computed.Some? ==> ask.computed.value == f(namespace, ask.h))
    && (ask.Set? ==> ask.value == f(namespace, ask.h))
  }

  /** Every `set` and every `compute` of the run agrees with `f`. */
  ghost predicate CallersAgree(events: seq<Event>, ns: seq<Text>, f: Cached) {
    forall i :: 0 <= i < |events| && events[i].Call? && events[i].inst < |ns| ==> AskAgrees(events[i].ask, ns[events[i].inst], f)
  }

  ghost predicate StoreAgrees(store: map<Text, Rec>, f: Cached) {
    forall n: Text, h: Hash :: KeyOf(n, h) in store ==> store[KeyOf(n, h)] == Rec(f(n, h))
  }

  predicate IsLookup(ask: Ask) {
    ask.Get? || ask.GetOrCompute?
  }

  ghost predicate JobAgrees(job: Job, ns: seq<Text>, f: Cached) {
    && job.inst < |ns|
    && AskAgrees(job.ask, ns[job.inst], f)
    && match job.phase
       case Reading => IsLookup(job.ask)
       case Answered(found) => IsLookup(job.ask) && (found.Some? ==> found.value.v == f(ns[job.inst], job.ask.h))
       case Computing => job.ask.GetOrCompute?
       case Writing(v) => (job.ask.GetOrCompute? || job.ask.Set?) && v == f(ns[job.inst], job.ask.h)
       case Written(_, v) => (job.ask.GetOrCompute? || job.ask.Set?) && v == f(ns[job.inst], job.ask.h)
       case Returned(v) =>
         && (job.ask.GetOrCompute? ==> v == f(ns[job.inst], job.ask.h))
         && (job.ask.Get? ==> v == Undefined || v == f(ns[job.inst], job.ask.h))
       case _ => true
  }

  ghost predicate Agrees(s: State, ns: seq<Text>, f: Cached) {
    StoreAgrees(s.store, f) && forall t :: 0 <= t < |s.jobs| ==> JobAgrees(s.jobs[t], ns, f)
  }

  lemma {:induction false} WriteAgrees(store: map<Text, Rec>, f: Cached, n: Text, h: Hash)
    requires StoreAgrees(store, f)
    ensures StoreAgrees(store[KeyOf(n, h) := Rec(f(n, h))], f)
  {
    forall m: Text, g: Hash | KeyOf(m, g) == KeyOf(n, h) ensures m == n && g == h {
      KeysDiffer(m, g, n, h);
    }
  }

  lemma {:induction false} RemoveAgrees(store: map<Text, Rec>, f: Cached, key: Text)
    requires StoreAgrees(store, f)
    ensures StoreAgrees(store - {key}, f)
  {}

  lemma {:induction false} StoreStepAgrees(s: State, t: nat, effect: Effect, ns: seq<Text>, f: Cached)
    requires Agrees(s, ns, f) && IsJob(s, t, ns)
    ensures Agrees(StoreStep(s, t, effect, KeyFor(s.jobs[t].ask, ns, s.jobs[t].inst)), ns, f)
  {
    var job := s.jobs[t];
    var s' := StoreStep(s, t, effect, KeyFor(job.ask, ns, job.inst));
    assert JobAgrees(job, ns, f);
    if job.phase.Writing? {
      WriteAgrees(s.store, f, ns[job.inst], job.ask.h);
    } else if job.phase.Deleting? && job.phase.todo != [] {
      RemoveAgrees(s.store, f, job.phase.todo[0]);
    }
    assert JobAgrees(s'.jobs[t], ns, f);
  }

  lemma {:induction false} ContinueStepAgrees(s: State, t: nat, ns: seq<Text>, f: Cached)
    requires Agrees(s, ns, f) && IsJob(s, t, ns)
    ensures Agrees(ContinueStep(s, t, KeyFor(s.jobs[t].ask, ns, s.jobs[t].inst)), ns, f)
  {
    var s' := ContinueStep(s, t, KeyFor(s.jobs[t].ask, ns, s.jobs[t].inst));
    assert JobAgrees(s.jobs[t], ns, f);
    assert JobAgrees(s'.jobs[t], ns, f);
  }

  lemma {:induction false} StepAgrees(s: State, e: Event, ns: seq<Text>, f: Cached)
    requires Agrees(s, ns, f)
    requires e.Call? && e.inst < |ns| ==> AskAgrees(e.ask, ns[e.inst], f)
    ensures Agrees(Step(s, e, ns), ns, f)
  {
    match e {
      case Call(_, _, _) =>
      case StoreActs(t, effect) => if IsJob(s, t, ns) { StoreStepAgrees(s, t, effect, ns, f); }
      case Continue(t) => if IsJob(s, t, ns) { ContinueStepAgrees(s, t, ns, f); }
      case Expire(key) => RemoveAgrees(s.store, f, key);
    }
  }

  lemma {:induction false} RunAgrees(s: State, events: seq<Event>, ns: seq<Text>, f: Cached)
    requires Agrees(s, ns, f) && CallersAgree(events, ns, f)
    ensures Agrees(RunFrom(s, events, ns), ns, f)
    decreases |events|
  {
    if events != [] {
      StepAgrees(s, events[0], ns, f);
      RunAgrees(Step(s, events[0], ns), events[1..], ns, f);
    }
  }

  /**
   * The cache is transparent: over every interleaving of instances on one store, with any failures,
   * expiries and invalidations, a call of `getOrCompute` that returns gives `f` of its key, and `get`
   * gives that or a miss.
   */
  lemma {:induction false} CacheIsTransparent(events: seq<Event>, ns: seq<Text>, f: Cached, t: nat)
    requires CallersAgree(events, ns, f)
    requires t < |Run(events, ns).jobs| && Run(events, ns).jobs[t].phase.Returned?
    ensures var job := Run(events, ns).jobs[t];
            && job.inst < |ns|
            && (job.ask.GetOrCompute? ==> job.phase.value == f(ns[job.inst], job.ask.h))
            && (job.ask.Get? ==> job.phase.value == Undefined || job.phase.value == f(ns[job.inst], job.ask.h))
  {
    RunAgrees(Initial(ns), events, ns, f);
    assert JobAgrees(Run(events, ns).jobs[t], ns, f);
  }

  // ----- counters and known keys, for any callers -----

  datatype Selector = HitsOf(inst: nat) | MissesOf(inst: nat) | LookupsBy(job: nat) | MissesBy(job: nat) | RemovalsBy(job: nat)

  predicate Selects(sel: Selector, e: Entry) {
    match sel
    case HitsOf(i) => e.inst == i && e.what.Found?
    case MissesOf(i) => e.inst == i && e.what.Missed?
    case LookupsBy(t) => e.job == t && (e.what.Found? || e.what.Missed?)
    case MissesBy(t) => e.job == t && e.what.Missed?
    case RemovalsBy(t) => e.job == t && e.what.Removed?
  }

  function Count(log: seq<Entry>, sel: Selector): nat {
    if log == [] then 0 else Count(log[..|log| - 1], sel) + if Selects(sel, log[|log| - 1]) then 1 else 0
  }

  lemma {:induction false} CountSnoc(log: seq<Entry>, e: Entry, sel: Selector)
    ensures Count(log + [e], sel) == Count(log, sel) + if Selects(sel, e) then 1 else 0
  {
    assert (log + [e])[..|log|] == log;
  }

  /** Instance `i` saw `key` in the store at entry `j`, and has not deleted it since. */
  ghost predicate SeenSince(log: seq<Entry>, i: nat, key: Text, j: nat) {
    && j < |log| && log[j].inst == i && log[j].key == key && (log[j].what.Found? || log[j].what.Stored?)
    && forall k :: j < k < |log| ==> log[k] != Entry(log[k].job, i, key, Removed)
  }

  ghost predicate IsKnown(log: seq<Entry>, i: nat, key: Text) {
    exists j: nat :: SeenSince(log, i, key, j)
  }

  lemma {:induction false} KnownSnoc(log: seq<Entry>, e: Entry, i: nat, key: Text)
    ensures IsKnown(log + [e], i, key) <==>
            if e.inst == i && e.key == key && !e.what.Missed? then !e.what.Removed? else IsKnown(log, i, key)
  {
    var all := log + [e];
    if e.inst == i && e.key == key && (e.what.Found? || e.what.Stored?) {
      assert SeenSince(all, i, key, |log|);
    } else {
      if IsKnown(log, i, key) && !(e.inst == i && e.key == key && e.what.Removed?) {
        var j: nat :| SeenSince(log, i, key, j);
        assert SeenSince(all, i, key, j);
      }
      if IsKnown(all, i, key) {
        var j: nat :| SeenSince(all, i, key, j);
        assert all[|log|] == e && j < |log|;
        assert forall k :: j < k < |log| ==> log[k] == all[k];
        assert SeenSince(log, i, key, j);
      }
    }
  }

  ghost predicate InstanceInv(s: State, i: nat)
    requires i < |s.instances|
  {
    && s.instances[i].hits == Count(s.log, HitsOf(i))
    && s.instances[i].misses == Count(s.log, MissesOf(i))
    && forall k :: k in s.instances[i].known <==> IsKnown(s.log, i, k)
  }

  predicate IsAnswered(job: Job) {
    IsLookup(job.ask) && !job.phase.Reading? && !job.phase.Answered?
  }

  /** The job went on after a miss and has not returned yet. */
  predicate IsPastMiss(job: Job) {
    job.ask.GetOrCompute? && (job.phase.Computing? || job.phase.Writing? || job.phase.Written? || job.phase.Threw?)
  }

  function RemovedSoFar(p: Phase): nat {
    if p.Deleting? || p.Deleted? || p.Counted? then p.n else 0
  }

  ghost predicate IsShaped(job: Job) {
    match job.phase
    case Reading => IsLookup(job.ask)
    case Answered(_) => IsLookup(job.ask)
    case Computing => job.ask.GetOrCompute?
    case Writing(_) => job.ask.GetOrCompute? || job.ask.Set?
    case Written(_, _) => job.ask.GetOrCompute? || job.ask.Set?
    case Deleting(todo, _) => !IsLookup(job.ask) && !job.ask.Set? && todo != []
    case Deleted(_, todo, _) => !IsLookup(job.ask) && !job.ask.Set? && todo != []
    case Returned(_) => IsLookup(job.ask) || job.ask.Set?
    case Counted(_) => !IsLookup(job.ask) && !job.ask.Set?
    case Threw => job.ask.GetOrCompute?
  }

  /** What the log says about one job: its lookups, the misses among them, and its deletions. */
  datatype Ledger = Ledger(lookups: nat, misses: nat, removals: nat)

  function LedgerOf(log: seq<Entry>, t: nat): Ledger {
    Ledger(Count(log, LookupsBy(t)), Count(log, MissesBy(t)), Count(log, RemovalsBy(t)))
  }

  ghost predicate Balances(job: Job, l: Ledger) {
    && IsShaped(job)
    && l.lookups == (if IsAnswered(job) then 1 else 0)
    && l.misses <= l.lookups
    && (IsPastMiss(job) ==> l.misses == 1)
    && l.removals == RemovedSoFar(job.phase)
  }

  ghost predicate JobInv(s: State, t: nat) {
    if t < |s.jobs| then Balances(s.jobs[t], LedgerOf(s.log, t)) else LedgerOf(s.log, t) == Ledger(0, 0, 0)
  }

  ghost predicate Inv(s: State) {
    (forall i :: 0 <= i < |s.instances| ==> InstanceInv(s, i)) && forall t: nat :: JobInv(s, t)
  }

  lemma {:induction false} ObserveKeepsInstance(s: State, t: nat, key: Text, what: What, i: nat)
    requires t < |s.jobs| && s.jobs[t].inst < |s.instances| && i < |s.instances| && InstanceInv(s, i)
    ensures InstanceInv(Observe(s, t, key, what), i)
  {
    var e := Entry(t, s.jobs[t].inst, key, what);
    CountSnoc(s.log, e, HitsOf(i));
    CountSnoc(s.log, e, MissesOf(i));
    forall k ensures IsKnown(s.log + [e], i, k) <==> k in Observe(s, t, key, what).instances[i].known {
      KnownSnoc(s.log, e, i, k);
    }
  }

  function Entered(l: Ledger, what: What): Ledger {
    match what
    case Found => l.(lookups := l.lookups + 1)
    case Missed => l.(lookups := l.lookups + 1, misses := l.misses + 1)
    case Stored => l
    case Removed => l.(removals := l.removals + 1)
  }

  lemma {:induction false} LedgerSnoc(log: seq<Entry>, e: Entry, t: nat)
    ensures LedgerOf(log + [e], t) == if e.job == t then Entered(LedgerOf(log, t), e.what) else LedgerOf(log, t)
  {
    CountSnoc(log, e, LookupsBy(t));
    CountSnoc(log, e, MissesBy(t));
    CountSnoc(log, e, RemovalsBy(t));
  }

  lemma {:induction false} ContinueBalances(job: Job, key: Text, l: Ledger)
    requires Balances(job, l)
    ensures var learned := Learned(job, key);
            Balances(job.(phase := NextPhase(job)), if learned.Some? then Entered(l, learned.value.1) else l)
  {}

  lemma {:induction false} ContinueKeepsJob(s: State, t: nat, key: Text, u: nat)
    requires t < |s.jobs| && s.jobs[t].inst < |s.instances| && JobInv(s, t) && JobInv(s, u)
    ensures JobInv(ContinueStep(s, t, key), u)
  {
    var learned := Learned(s.jobs[t], key);
    ContinueBalances(s.jobs[t], key, LedgerOf(s.log, t));
    if learned.Some? {
      LedgerSnoc(s.log, Entry(t, s.jobs[t].inst, learned.value.0, learned.value.1), u);
    }
  }

  lemma {:induction false} ContinueKeepsInv(s: State, t: nat, key: Text)
    requires Inv(s) && t < |s.jobs| && s.jobs[t].inst < |s.instances|
    ensures Inv(ContinueStep(s, t, key)) && |ContinueStep(s, t, key).instances| == |s.instances|
  {
    var s' := ContinueStep(s, t, key);
    var learned := Learned(s.jobs[t], key);
    forall i | 0 <= i < |s'.instances| ensures InstanceInv(s', i) {
      assert InstanceInv(s, i);
      if learned.Some? {
        ObserveKeepsInstance(s, t, learned.value.0, learned.value.1, i);
        assert InstanceInv(Observe(s, t, learned.value.0, learned.value.1), i);
      }
    }
    forall u: nat ensures JobInv(s', u) {
      assert JobInv(s, t) && JobInv(s, u);
      ContinueKeepsJob(s, t, key, u);
    }
  }

  lemma {:induction false} QuietStepKeepsInv(s: State, e: Event, ns: seq<Text>)
    requires Inv(s) && !e.Continue?
    ensures Inv(Step(s, e, ns)) && |Step(s, e, ns).instances| == |s.instances|
  {
    var s' := Step(s, e, ns);
    assert s'.log == s.log && s'.instances == s.instances;
    forall i | 0 <= i < |s'.instances| ensures InstanceInv(s', i) {
      assert InstanceInv(s, i);
    }
    forall u: nat ensures JobInv(s', u) {
      assert JobInv(s, u);
    }
  }

  lemma {:induction false} StepKeepsInv(s: State, e: Event, ns: seq<Text>)
    requires Inv(s)
    ensures Inv(Step(s, e, ns)) && |Step(s, e, ns).instances| == |s.instances|
  {
    if e.Continue? {
      if IsJob(s, e.job, ns) {
        ContinueKeepsInv(s, e.job, KeyFor(s.jobs[e.job].ask, ns, s.jobs[e.job].inst));
      }
    } else {
      QuietStepKeepsInv(s, e, ns);
    }
  }

  lemma {:induction false} RunKeepsInv(s: State, events: seq<Event>, ns: seq<Text>)
    requires Inv(s)
    ensures Inv(RunFrom(s, events, ns)) && |RunFrom(s, events, ns).instances| == |s.instances|
    decreases |events|
  {
    if events != [] {
      StepKeepsInv(s, events[0], ns);
      RunKeepsInv(Step(s, events[0], ns), events[1..], ns);
    }
  }

  lemma {:induction false} RunInv(events: seq<Event>, ns: seq<Text>)
    ensures Inv(Run(events, ns)) && |Run(events, ns).instances| == |ns|
  {
    RunKeepsInv(Initial(ns), events, ns);
  }

  /**
   * `known` holds exactly the keys the instance has read or written successfully and not deleted since,
   * in the order in which it learned of these things.
   */
  lemma {:induction false} KnownIsExact(events: seq<Event>, ns: seq<Text>, i: nat, key: Text)
    requires i < |ns|
    ensures |Run(events, ns).instances| == |ns|
    ensures key in Run(events, ns).instances[i].known <==> IsKnown(Run(events, ns).log, i, key)
  {
    RunInv(events, ns);
    assert InstanceInv(Run(events, ns), i);
  }

  /** Every lookup that was answered is counted once, as a hit or as a miss; `compute` runs only after a miss. */
  lemma {:induction false} LookupsAreCounted(events: seq<Event>, ns: seq<Text>, i: nat, t: nat)
    requires i < |ns| && t < |Run(events, ns).jobs|
    ensures var s := Run(events, ns);
            && |s.instances| == |ns|
            && s.instances[i].hits == Count(s.log, HitsOf(i)) && s.instances[i].misses == Count(s.log, MissesOf(i))
            && Count(s.log, LookupsBy(t)) == (if IsAnswered(s.jobs[t]) then 1 else 0)
            && (IsPastMiss(s.jobs[t]) ==> Count(s.log, MissesBy(t)) == 1)
  {
    RunInv(events, ns);
    assert InstanceInv(Run(events, ns), i);
    assert JobInv(Run(events, ns), t);
  }

  /** How many lookups of instance `i` have been answered. */
  function AnsweredOf(jobs: seq<Job>, i: nat): nat {
    if jobs == [] then 0
    else AnsweredOf(jobs[..|jobs| - 1], i) + if jobs[|jobs| - 1].inst == i && IsAnswered(jobs[|jobs| - 1]) then 1 else 0
  }

  lemma {:induction false} AnsweredUpdate(jobs: seq<Job>, t: nat, p: Phase, i: nat)
    requires t < |jobs|
    ensures AnsweredOf(jobs[t := jobs[t].(phase := p)], i) + (if jobs[t].inst == i && IsAnswered(jobs[t]) then 1 else 0)
            == AnsweredOf(jobs, i) + if jobs[t].inst == i && IsAnswered(jobs[t].(phase := p)) then 1 else 0
  {
    var last := |jobs| - 1;
    var all := jobs[t := jobs[t].(phase := p)];
    if t == last {
      assert all[..last] == jobs[..last];
    } else {
      AnsweredUpdate(jobs[..last], t, p, i);
      assert all[..last] == jobs[..last][t := jobs[t].(phase := p)];
    }
  }

  ghost predicate CountsAnswers(s: State) {
    forall i :: 0 <= i < |s.instances| ==> s.instances[i].hits + s.instances[i].misses == AnsweredOf(s.jobs, i)
  }

  lemma {:induction false} StoreStepAnswersNothing(s: State, t: nat, effect: Effect, key: Text, i: nat)
    requires t < |s.jobs|
    ensures AnsweredOf(StoreStep(s, t, effect, key).jobs, i) == AnsweredOf(s.jobs, i)
  {
    AnsweredUpdate(s.jobs, t, StoreStep(s, t, effect, key).jobs[t].phase, i);
  }

  lemma {:induction false} ContinueCountsAnswers(s: State, t: nat, key: Text, i: nat)
    requires CountsAnswers(s) && i < |s.instances|
    requires t < |s.jobs| && s.jobs[t].inst < |s.instances| && JobInv(s, t)
    ensures var s' := ContinueStep(s, t, key);
            s'.instances[i].hits + s'.instances[i].misses == AnsweredOf(s'.jobs, i)
  {
    AnsweredUpdate(s.jobs, t, NextPhase(s.jobs[t]), i);
  }

  lemma {:induction false} StepCountsAnswers(s: State, e: Event, ns: seq<Text>, i: nat)
    requires CountsAnswers(s) && Inv(s) && i < |s.instances|
    ensures var s' := Step(s, e, ns);
            |s'.instances| == |s.instances| && s'.instances[i].hits + s'.instances[i].misses == AnsweredOf(s'.jobs, i)
  {
    match e {
      case Call(_, _, _) =>
        var s' := Step(s, e, ns);
        assert |s'.jobs| > |s.jobs| ==> s'.jobs[..|s.jobs|] == s.jobs;
      case StoreActs(t, effect) =>
        if IsJob(s, t, ns) { StoreStepAnswersNothing(s, t, effect, KeyFor(s.jobs[t].ask, ns, s.jobs[t].inst), i); }
      case Continue(t) =>
        if IsJob(s, t, ns) { ContinueCountsAnswers(s, t, KeyFor(s.jobs[t].ask, ns, s.jobs[t].inst), i); }
      case Expire(_) =>
    }
  }

  lemma {:induction false} RunCountsAnswers(s: State, events: seq<Event>, ns: seq<Text>)
    requires CountsAnswers(s) && Inv(s)
    ensures CountsAnswers(RunFrom(s, events, ns))
    decreases |events|
  {
    if events != [] {
      var s' := Step(s, events[0], ns);
      StepKeepsInv(s, events[0], ns);
      forall i | 0 <= i < |s'.instances| ensures s'.instances[i].hits + s'.instances[i].misses == AnsweredOf(s'.jobs, i) {
        StepCountsAnswers(s, events[0], ns, i);
      }
      RunCountsAnswers(s', events[1..], ns);
    }
  }

  /** The counters of an instance add up to the lookups it has had answered, failed ones included. */
  lemma {:induction false} HitsAndMissesAreTheLookups(events: seq<Event>, ns: seq<Text>, i: nat)
    requires i < |ns|
    ensures var s := Run(events, ns);
            |s.instances| == |ns| && s.instances[i].hits + s.instances[i].misses == AnsweredOf(s.jobs, i)
  {
    RunInv(events, ns);
    RunCountsAnswers(Initial(ns), events, ns);
  }

  /** `invalidate` returns the number of deletions that were acknowledged to it, one key or all. */
  lemma {:induction false} InvalidateCountsItsDeletions(events: seq<Event>, ns: seq<Text>, t: nat)
    requires t < |Run(events, ns).jobs| && Run(events, ns).jobs[t].phase.Counted?
    ensures Run(events, ns).jobs[t].phase.n == Count(Run(events, ns).log, RemovalsBy(t))
  {
    RunInv(events, ns);
    assert JobInv(Run(events, ns), t);
  }

  // ----- operations that nobody interrupts -----

  /** A lookup, the store's answer to it, and what the instance makes of it. */
  function Looked(s: State, i: nat, ask: Ask, effect: Effect, ns: seq<Text>): State {
    Step(Step(Step(s, Call(i, ask, []), ns), StoreActs(|s.jobs|, effect), ns), Continue(|s.jobs|), ns)
  }

  /** `get` returns what the store holds, `undefined` included, and counts a hit; where there is nothing, or the store fails, a miss. */
  lemma {:induction false} LoneGet(s: State, i: nat, h: Hash, effect: Effect, ns: seq<Text>)
    requires i < |s.instances| == |ns|
    ensures var key, t := KeyOf(ns[i], h), Looked(s, i, Get(h), effect, ns);
            var found := effect.Succeeds? && key in s.store;
            && |t.jobs| == |s.jobs| + 1 && |t.instances| == |s.instances| && t.store == s.store
            && t.jobs[|s.jobs|].phase == Returned(if found then s.store[key].v else Undefined)
            && t.instances[i] == if found then s.instances[i].(hits := s.instances[i].hits + 1, known := s.instances[i].known + {key})
                                 else s.instances[i].(misses := s.instances[i].misses + 1)
  {}

  /** `getOrCompute` returns what the store holds without computing; otherwise it goes on to compute. */
  lemma {:induction false} LoneLookup(s: State, i: nat, h: Hash, computed: Option<Value>, effect: Effect, ns: seq<Text>)
    requires i < |s.instances| == |ns|
    ensures var key, t := KeyOf(ns[i], h), Looked(s, i, GetOrCompute(h, computed), effect, ns);
            var found := effect.Succeeds? && key in s.store;
            && |t.jobs| == |s.jobs| + 1 && |t.instances| == |s.instances| && t.store == s.store
            && t.jobs[|s.jobs|] == Job(i, GetOrCompute(h, computed), if found then Returned(s.store[key].v) else Computing)
            && t.instances[i] == if found then s.instances[i].(hits := s.instances[i].hits + 1, known := s.instances[i].known + {key})
                                 else s.instances[i].(misses := s.instances[i].misses + 1)
  {}

  /** What is computed is stored and returned, and returned even if it could not be stored; a `compute` that throws stores nothing. */
  lemma {:induction false} LoneCompute(s: State, j: nat, effect: Effect, ns: seq<Text>)
    requires IsJob(s, j, ns) && s.jobs[j].ask.GetOrCompute? && s.jobs[j].phase.Computing?
    ensures var job := s.jobs[j];
            var key := KeyOf(ns[job.inst], job.ask.h);
            var t := Step(Step(Step(s, Continue(j), ns), StoreActs(j, effect), ns), Continue(j), ns);
            && |t.jobs| == |s.jobs| && |t.instances| == |s.instances|
            && (match job.ask.computed
                case Some(v) =>
                  && t.jobs[j].phase == Returned(v)
                  && t.store == (if effect.FailsBefore? then s.store else s.store[key := Rec(v)])
                  && t.instances[job.inst].known == s.instances[job.inst].known + if effect.Succeeds? then {key} else {}
                case None =>
                  t.jobs[j].phase == Threw && t.store == s.store && t.instances[job.inst] == s.instances[job.inst])
  {
    var s1 := Step(s, Continue(j), ns);
    assert s1.instances == s.instances && s1.store == s.store;
    var s2 := Step(s1, StoreActs(j, effect), ns);
    assert s2.instances == s.instances;
  }

  /** `set` stores the value, and the key is known, unless the store fails. */
  lemma {:induction false} LoneSet(s: State, i: nat, h: Hash, v: Value, effect: Effect, ns: seq<Text>)
    requires i < |s.instances| == |ns|
    ensures var key, t := KeyOf(ns[i], h), Looked(s, i, Set(h, v), effect, ns);
            && |t.instances| == |s.instances|
            && t.store == (if effect.FailsBefore? then s.store else s.store[key := Rec(v)])
            && t.instances[i] == s.instances[i].(known := s.instances[i].known + if effect.Succeeds? then {key} else {})
  {}

  /** What was set is what is got, by any instance of the same namespace, with the same key; until then nothing else is changed. */
  lemma {:induction false} SetThenGet(s: State, i: nat, j: nat, h: Hash, v: Value, ns: seq<Text>)
    requires i < |s.instances| == |ns| && j < |ns| && ns[i] == ns[j]
    ensures var t := Looked(s, i, Set(h, v), Succeeds, ns);
            var u := Looked(t, j, Get(h), Succeeds, ns);
            |u.jobs| == |t.jobs| + 1 && u.jobs[|t.jobs|].phase == Returned(v)
  {
    LoneSet(s, i, h, v, Succeeds, ns);
    LoneGet(Looked(s, i, Set(h, v), Succeeds, ns), j, h, Succeeds, ns);
  }

  /** One deletion of a job that deletes: the store's part and its acknowledgement. */
  function Removal(s: State, j: nat, effect: Effect, ns: seq<Text>): State {
    Step(Step(s, StoreActs(j, effect), ns), Continue(j), ns)
  }

  lemma {:induction false} OneRemoval(s: State, j: nat, effect: Effect, ns: seq<Text>)
    requires IsJob(s, j, ns) && s.jobs[j].phase.Deleting? && s.jobs[j].phase.todo != []
    ensures var i, todo, n := s.jobs[j].inst, s.jobs[j].phase.todo, s.jobs[j].phase.n;
            var t := Removal(s, j, effect, ns);
            var n' := if effect.Succeeds? then n + 1 else n;
            && IsJob(t, j, ns) && t.jobs[j].inst == i && |t.instances| == |s.instances|
            && t.store == (if effect.FailsBefore? then s.store else s.store - {todo[0]})
            && t.instances[i] == s.instances[i].(known := s.instances[i].known - if effect.Succeeds? then {todo[0]} else {})
            && t.jobs[j].phase == if |todo| == 1 then Counted(n') else Deleting(todo[1..], n')
  {
    var s1 := Step(s, StoreActs(j, effect), ns);
    assert s1.instances == s.instances && s1.jobs[j].inst == s.jobs[j].inst;
  }

  function Removals(s: State, j: nat, m: nat, ns: seq<Text>): State
    decreases m
  {
    if m == 0 then s else Removals(Removal(s, j, Succeeds, ns), j, m - 1, ns)
  }

  function KeySet(keys: seq<Text>): set<Text> {
    set k | k in keys
  }

  lemma {:induction false} RemoveInTurn(store: map<Text, Rec>, known: set<Text>, todo: seq<Text>)
    requires todo != []
    ensures store - {todo[0]} - KeySet(todo[1..]) == store - KeySet(todo)
    ensures known - {todo[0]} - KeySet(todo[1..]) == known - KeySet(todo)
  {
    assert todo == [todo[0]] + todo[1..];
    assert KeySet(todo) == {todo[0]} + KeySet(todo[1..]);
  }

  lemma {:induction false} AllRemovals(s: State, j: nat, ns: seq<Text>)
    requires IsJob(s, j, ns) && s.jobs[j].phase.Deleting? && s.jobs[j].phase.todo != []
    ensures var i, todo, n := s.jobs[j].inst, s.jobs[j].phase.todo, s.jobs[j].phase.n;
            var t := Removals(s, j, |todo|, ns);
            && IsJob(t, j, ns) && t.jobs[j].inst == i
            && t.jobs[j].phase == Counted(n + |todo|)
            && t.store == s.store - KeySet(todo)
            && t.instances[i].known == s.instances[i].known - KeySet(todo)
    decreases |s.jobs[j].phase.todo|
  {
    var i, todo := s.jobs[j].inst, s.jobs[j].phase.todo;
    var t := Removal(s, j, Succeeds, ns);
    OneRemoval(s, j, Succeeds, ns);
    RemoveInTurn(s.store, s.instances[i].known, todo);
    assert Removals(s, j, |todo|, ns) == Removals(t, j, |todo| - 1, ns);
    if |todo| > 1 {
      AllRemovals(t, j, ns);
    } else {
      assert todo[1..] == [] && KeySet(todo[1..]) == {};
      assert Removals(s, j, 1, ns) == Removals(t, j, 0, ns) == t;
    }
  }

  /** `invalidate()` on a working store removes every key the instance knows, forgets them all, and returns how many there were. */
  lemma {:induction false} InvalidateAllForgets(s: State, i: nat, order: seq<Text>, ns: seq<Text>)
    requires i < |s.instances| == |ns| && Lists(order, s.instances[i].known)
    ensures var t := Removals(Step(s, Call(i, InvalidateAll, order), ns), |s.jobs|, |order|, ns);
            && |t.jobs| > |s.jobs| && i < |t.instances|
            && t.jobs[|s.jobs|].phase == Counted(|s.instances[i].known|)
            && t.store == s.store - s.instances[i].known && t.instances[i].known == {}
  {
    var s1 := Step(s, Call(i, InvalidateAll, order), ns);
    assert s1.instances == s.instances && s1.store == s.store && s1.jobs[|s.jobs|].inst == i;
    assert KeySet(order) == s.instances[i].known;
    if order != [] {
      AllRemovals(s1, |s.jobs|, ns);
    }
  }

  // ----- known is about what was learned, not about the store -----

  /** One instance sets a key and invalidates it; the answer to the earlier write arrives last. */
  function LateAnswer(h: Hash, v: Value): seq<Event> {
    [Call(0, Set(h, v), []), StoreActs(0, Succeeds), Call(0, Invalidate(h), []), StoreActs(1, Succeeds), Continue(1), Continue(0)]
  }

  /** Then the key counts as known although this very instance deleted it from the store. */
  lemma {:induction false} LateAnswerKeepsADeletedKey(n: Text, h: Hash, v: Value)
    ensures var s := Run(LateAnswer(h, v), [n]);
            |s.instances| == 1 && KeyOf(n, h) in s.instances[0].known && KeyOf(n, h) !in s.store
  {
    var es, ns := LateAnswer(h, v), [n];
    var s0 := Initial(ns);
    var s1 := Step(s0, es[0], ns);
    var s2 := Step(s1, es[1], ns);
    var s3 := Step(s2, es[2], ns);
    var s4 := Step(s3, es[3], ns);
    var s5 := Step(s4, es[4], ns);
    OneMore(s0, es, 0, ns);
    OneMore(s1, es, 1, ns);
    OneMore(s2, es, 2, ns);
    OneMore(s3, es, 3, ns);
    OneMore(s4, es, 4, ns);
    OneMore(s5, es, 5, ns);
    assert es[0..] == es && es[6..] == [];
    WriteThenDelete(n, h, v);
    AnswersArrive(s4, n, h, v);
  }

  /** The store's part: written, then deleted, neither acknowledged. */
  ghost predicate IsUnacknowledged(s: State, n: Text, h: Hash, v: Value) {
    && s.jobs == [Job(0, Set(h, v), Written(true, v)), Job(0, Invalidate(h), Deleted(true, [KeyOf(n, h)], 0))]
    && s.instances == [NEW] && KeyOf(n, h) !in s.store
  }

  lemma {:induction false} WriteThenDelete(n: Text, h: Hash, v: Value)
    ensures var es, ns := LateAnswer(h, v), [n];
            IsUnacknowledged(Step(Step(Step(Step(Initial(ns), es[0], ns), es[1], ns), es[2], ns), es[3], ns), n, h, v)
  {
    var es, ns, k := LateAnswer(h, v), [n], KeyOf(n, h);
    var s1 := Step(Initial(ns), es[0], ns);
    assert s1 == State(map[], [NEW], [Job(0, Set(h, v), Writing(v))], []);
    var s2 := Step(s1, es[1], ns);
    assert s2 == State(map[k := Rec(v)], [NEW], [Job(0, Set(h, v), Written(true, v))], []);
    var s3 := Step(s2, es[2], ns);
    assert s3.jobs == [Job(0, Set(h, v), Written(true, v)), Job(0, Invalidate(h), Deleting([k], 0))];
  }

  lemma {:induction false} AnswersArrive(s: State, n: Text, h: Hash, v: Value)
    requires IsUnacknowledged(s, n, h, v)
    ensures var s2 := Step(Step(s, Continue(1), [n]), Continue(0), [n]);
            |s2.instances| == 1 && KeyOf(n, h) in s2.instances[0].known && KeyOf(n, h) !in s2.store
  {
    var s1 := Step(s, Continue(1), [n]);
    assert s1.jobs[0] == s.jobs[0] && |s1.instances| == 1;
  }

  lemma {:induction false} OneMore(s: State, es: seq<Event>, n: nat, ns: seq<Text>)
    requires n < |es|
    ensures RunFrom(s, es[n..], ns) == RunFrom(Step(s, es[n], ns), es[n + 1..], ns)
  {
    assert es[n..][1..] == es[n + 1..];
  }

  lemma {:induction false} ShareOfTotal(part: real, total: real, q: real)
    requires 0.0 <= part <= total && 0.0 < total && q == part / total
    ensures q * total == part && 0.0 <= q <= 1.0
  {
    assert q * total == part;
    assert q > 1.0 ==> q * total > 1.0 * total;
    assert q < 0.0 ==> q * total < 0.0 * total;
  }

  // ----- the cache object -----

  /** The closure state of `createCache`; each method is the code that runs when the store has answered. */
  class Cache {
    var hits: nat
    var misses: nat
    var known: set<Text>

    function Current(): Instance
      reads this
    {
      Instance(hits, misses, known)
    }

    constructor ()
      ensures Current() == NEW
    {
      hits, misses, known := 0, 0, {};
    }

    /** After `safeGet`; `None` is a miss or a failing store. */
    method OnRead(key: Text, found: Option<Rec>) returns (hit: bool)
      modifies this
      ensures hit <==> found.Some?
      ensures Current() == Learn(old(Current()), key, if found.Some? then Found else Missed)
    {
      if found.None? {
        misses := misses + 1;
        return false;
      }
      hits := hits + 1;
      known := known + {key};
      hit := true;
    }

    /** The rest of `safeSet`. */
    method OnWritten(key: Text, ok: bool)
      modifies this
      ensures Current() == if ok then Learn(old(Current()), key, Stored) else old(Current())
    {
      if ok {
        known := known + {key};
      }
    }

    /** The rest of `safeDelete`. */
    method OnDeleted(key: Text, ok: bool) returns (deleted: bool)
      modifies this
      ensures deleted == ok
      ensures Current() == if ok then Learn(old(Current()), key, Removed) else old(Current())
    {
      if ok {
        known := known - {key};
      }
      deleted := ok;
    }

    /** `stats`. */
    method Stats() returns (total: nat, hitRate: real, size: nat)
      ensures total == hits + misses && size == |known|
      ensures 0.0 <= hitRate <= 1.0 && hitRate * total as real == hits as real
      ensures total == 0 ==> hitRate == 0.0
    {
      total := hits + misses;
      hitRate := if total == 0 then 0.0 else hits as real / total as real;
      if total != 0 {
        ShareOfTotal(hits as real, total as real, hitRate);
      }
      size := |known|;
    }
  }
}
