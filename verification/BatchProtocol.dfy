/**
 * `run` of packages/durable/src/batch.ts up to its item loop, as steps of concurrent calls on one
 * journal: check the approved token, claim the plan first-wins, and on a lost claim compare tokens.
 *
 * `atomic` says whether the journal has `putIfAbsent`; without it the claim falls back to a get and a
 * later put.
 */
module BatchProtocol {
  import opened Common
  import opened BatchPlan

  datatype Phase = Claiming | SawNoPlan | LostClaim | Looping | Stopped(why: Refusal)

  datatype Run = Run(batchId: Text, policy: Policy, items: seq<Item>, keyed: seq<Keyed>, token: Text, phase: Phase)

  /** The frozen plan of each batch (its token), and all `run` calls so far. */
  datatype State = State(plans: map<Text, Text>, runs: seq<Run>)

  const INITIAL := State(map[], [])

  datatype Event =
    | Start(batchId: Text, policy: Policy, items: seq<Item>, planToken: Text)
    | Claim(run: nat)
    | PutPlan(run: nat)
    | ReadPlan(run: nat)

  /** What a deployment fixes: the item key, the hash and the journal's capability. */
  datatype Config = Config(itemKey: Item -> Text, hash: (Policy, seq<Keyed>) -> Text, atomic: bool)

  /** The checks before the first journal access. */
  function Started(e: Event, cfg: Config): Run
    requires e.Start?
  {
    var c := Canonicalize(e.items, cfg.itemKey);
    if !IsSafeId(e.batchId) then Run(e.batchId, e.policy, e.items, [], [], Stopped(UnsafeId))
    else if c.Refused? then Run(e.batchId, e.policy, e.items, [], [], Stopped(c.why))
    else
      var token := cfg.hash(e.policy, c.keyed);
      Run(e.batchId, e.policy, e.items, c.keyed, token, if e.planToken != token then Stopped(PlanMismatch) else Claiming)
  }

  function WithPhase(s: State, r: nat, p: Phase): State
    requires r < |s.runs|
  {
    s.(runs := s.runs[r := s.runs[r].(phase := p)])
  }

  function Froze(s: State, r: nat): State
    requires r < |s.runs|
  {
    WithPhase(s, r, Looping).(plans := s.plans[s.runs[r].batchId := s.runs[r].token])
  }

  function ClaimStep(s: State, r: nat, atomic: bool): State
    requires r < |s.runs|
  {
    if !s.runs[r].phase.Claiming? then s
    else if s.runs[r].batchId in s.plans then WithPhase(s, r, LostClaim)
    else if atomic then Froze(s, r)
    else WithPhase(s, r, SawNoPlan)
  }

  function ReadStep(s: State, r: nat): State
    requires r < |s.runs|
  {
    var q := s.runs[r];
    if !q.phase.LostClaim? then s
    else if q.batchId in s.plans && s.plans[q.batchId] != q.token then WithPhase(s, r, Stopped(PlanMismatch))
    else WithPhase(s, r, Looping)
  }

  function Step(s: State, e: Event, cfg: Config): State {
    match e
    case Start(_, _, _, _) => s.(runs := s.runs + [Started(e, cfg)])
    case Claim(r) => if r < |s.runs| then ClaimStep(s, r, cfg.atomic) else s
    case PutPlan(r) => if r < |s.runs| && s.runs[r].phase.SawNoPlan? then Froze(s, r) else s
    case ReadPlan(r) => if r < |s.runs| then ReadStep(s, r) else s
  }

  function RunFrom(s: State, events: seq<Event>, cfg: Config): State
    decreases |events|
  {
    if events == [] then s else RunFrom(Step(s, events[0], cfg), events[1..], cfg)
  }

  // ----- invariant -----

  ghost predicate RunInv(plans: map<Text, Text>, q: Run, cfg: Config) {
    && (!q.phase.Stopped? ==>
          && IsSafeId(q.batchId)
          && Canonicalize(q.items, cfg.itemKey) == Plan(q.keyed) && q.token == cfg.hash(q.policy, q.keyed))
    && !q.phase.SawNoPlan?
    && (q.phase.LostClaim? ==> q.batchId in plans)
    && (q.phase.Looping? ==> q.batchId in plans && plans[q.batchId] == q.token)
  }

  ghost predicate Inv(s: State, cfg: Config) {
    forall r :: 0 <= r < |s.runs| ==> RunInv(s.plans, s.runs[r], cfg)
  }

  /** A plan, once frozen, never changes. */
  ghost predicate KeepsPlans(s: State, t: State) {
    forall b :: b in s.plans ==> b in t.plans && t.plans[b] == s.plans[b]
  }

  lemma {:induction false} StepKeepsInv(s: State, e: Event, cfg: Config)
    requires cfg.atomic && Inv(s, cfg)
    ensures Inv(Step(s, e, cfg), cfg) && KeepsPlans(s, Step(s, e, cfg))
  {
    var t := Step(s, e, cfg);
    forall r | 0 <= r < |t.runs| ensures RunInv(t.plans, t.runs[r], cfg) {
      if r < |s.runs| {
        assert RunInv(s.plans, s.runs[r], cfg);
      }
    }
  }

  lemma {:induction false} RunKeepsInv(s: State, events: seq<Event>, cfg: Config)
    requires cfg.atomic && Inv(s, cfg)
    ensures Inv(RunFrom(s, events, cfg), cfg) && KeepsPlans(s, RunFrom(s, events, cfg))
    decreases |events|
  {
    if events != [] {
      StepKeepsInv(s, events[0], cfg);
      RunKeepsInv(Step(s, events[0], cfg), events[1..], cfg);
    }
  }

  // ----- theorems -----

  /**
   * Any two calls on one batch that reach the item loop, in any interleaving, carry the same policy,
   * the same sorted plan and the same collection of items: the one frozen in the journal.
   */
  lemma {:induction false} OneBatchOnePlan(events: seq<Event>, cfg: Config, i: nat, j: nat)
    requires cfg.atomic && IsInjective(cfg.hash)
    requires var s := RunFrom(INITIAL, events, cfg);
             i < |s.runs| && j < |s.runs| && s.runs[i].phase.Looping? && s.runs[j].phase.Looping?
             && s.runs[i].batchId == s.runs[j].batchId
    ensures var s := RunFrom(INITIAL, events, cfg);
            && s.runs[i].policy == s.runs[j].policy
            && s.runs[i].keyed == s.runs[j].keyed
            && multiset(s.runs[i].items) == multiset(s.runs[j].items)
            && s.runs[i].batchId in s.plans
            && s.plans[s.runs[i].batchId] == cfg.hash(s.runs[i].policy, s.runs[i].keyed)
  {
    RunKeepsInv(INITIAL, events, cfg);
    var s := RunFrom(INITIAL, events, cfg);
    assert RunInv(s.plans, s.runs[i], cfg) && RunInv(s.plans, s.runs[j], cfg);
    PlanIdentifiesTheItems(s.runs[i].items, s.runs[j].items, cfg.itemKey);
  }

  /** A call on its own, from its arguments to the loop or to a refusal. */
  function Attempt(s: State, e: Event, cfg: Config): State
    requires e.Start?
  {
    var r := |s.runs|;
    Step(Step(Step(s, e, cfg), Claim(r), cfg), ReadPlan(r), cfg)
  }

  /**
   * Once a batch runs, calling it again with the approved token is a replay exactly when the policy is
   * the same and the items are the same in some order; any other list is refused.
   */
  lemma {:induction false} ReplayIffSameItems(s: State, cfg: Config, i: nat, policy: Policy, items: seq<Item>)
    requires cfg.atomic && IsInjective(cfg.hash) && Inv(s, cfg)
    requires i < |s.runs| && s.runs[i].phase.Looping?
    ensures var t := Attempt(s, Start(s.runs[i].batchId, policy, items, s.runs[i].token), cfg);
            var again := t.runs[|s.runs|];
            && (again.phase.Looping? || again.phase.Stopped?)
            && (again.phase.Looping? <==> policy == s.runs[i].policy && multiset(items) == multiset(s.runs[i].items))
            && t.plans == s.plans
  {
    var first := s.runs[i];
    assert RunInv(s.plans, first, cfg);
    PlanIdentifiesTheItems(first.items, items, cfg.itemKey);
    var e := Start(first.batchId, policy, items, first.token);
    var s1 := Step(s, e, cfg);
    assert s1.runs[|s.runs|] == Started(e, cfg);
  }

  /**
   * A call on its own reaches the loop if and only if its ids are safe, its keys distinct, its token is that
   * of its policy and items, and no other plan is frozen under its batch id; and then its token is frozen.
   * Otherwise it is refused and nothing is frozen that was not.
   */
  lemma {:induction false} LoneCallLoopsIff(s: State, cfg: Config, b: Text, policy: Policy, items: seq<Item>, planToken: Text)
    requires cfg.atomic
    ensures var t := Attempt(s, Start(b, policy, items, planToken), cfg);
            var c := Canonicalize(items, cfg.itemKey);
            && |t.runs| == |s.runs| + 1
            && (t.runs[|s.runs|].phase.Looping? <==>
                IsSafeId(b) && c.Plan? && planToken == cfg.hash(policy, c.keyed) && (b in s.plans ==> s.plans[b] == planToken))
            && (if t.runs[|s.runs|].phase.Looping? then t.plans == s.plans[b := planToken]
                else t.runs[|s.runs|].phase.Stopped? && t.plans == s.plans)
  {
    var e := Start(b, policy, items, planToken);
    var s1 := Step(s, e, cfg);
    assert s1.runs[|s.runs|] == Started(e, cfg);
    if b in s.plans && s.plans[b] == planToken {
      assert s.plans[b := planToken] == s.plans;
    }
  }

  /** A first call on a batch id runs: with the approved token and nothing else. */
  lemma {:induction false} FirstCallRuns(s: State, cfg: Config, b: Text, policy: Policy, items: seq<Item>, planToken: Text)
    requires cfg.atomic && b !in s.plans && IsSafeId(b) && Canonicalize(items, cfg.itemKey).Plan?
    ensures var t := Attempt(s, Start(b, policy, items, planToken), cfg);
            t.runs[|s.runs|].phase.Looping? <==> planToken == cfg.hash(policy, Canonicalize(items, cfg.itemKey).keyed)
  {
    LoneCallLoopsIff(s, cfg, b, policy, items, planToken);
  }

  /** Call `r` loops on the plan frozen under `b`. */
  ghost predicate LoopsOn(s: State, b: Text, r: nat) {
    r < |s.runs| && s.runs[r].batchId == b && s.runs[r].phase.Looping?
  }

  /** A batch id is frozen exactly if some call loops on it. */
  ghost predicate FrozenIffLooping(s: State) {
    forall b: Text :: b in s.plans <==> exists r: nat :: LoopsOn(s, b, r)
  }

  /** Whoever loops goes on looping, and its call keeps its batch. */
  lemma {:induction false} LoopingStays(s: State, e: Event, cfg: Config, b: Text, r: nat)
    requires LoopsOn(s, b, r)
    ensures LoopsOn(Step(s, e, cfg), b, r)
  {}

  lemma {:induction false} StepFreezesIffLooping(s: State, e: Event, cfg: Config)
    requires cfg.atomic && Inv(s, cfg) && FrozenIffLooping(s)
    ensures FrozenIffLooping(Step(s, e, cfg))
  {
    var t := Step(s, e, cfg);
    StepKeepsInv(s, e, cfg);
    forall b: Text ensures b in t.plans <==> exists r: nat :: LoopsOn(t, b, r) {
      if b in s.plans {
        var r: nat :| LoopsOn(s, b, r);
        LoopingStays(s, e, cfg, b, r);
      } else if b in t.plans {
        assert LoopsOn(t, b, e.run);
      }
      if r: nat :| LoopsOn(t, b, r) {
        assert RunInv(t.plans, t.runs[r], cfg);
      }
    }
  }

  /** In every run a batch id is frozen if and only if some call reached the item loop on it: who wins the claim, runs. */
  lemma {:induction false} FrozenMeansRunning(s: State, events: seq<Event>, cfg: Config)
    requires cfg.atomic && Inv(s, cfg) && FrozenIffLooping(s)
    ensures FrozenIffLooping(RunFrom(s, events, cfg))
    decreases |events|
  {
    if events != [] {
      StepKeepsInv(s, events[0], cfg);
      StepFreezesIffLooping(s, events[0], cfg);
      FrozenMeansRunning(Step(s, events[0], cfg), events[1..], cfg);
    }
  }

  // ----- the fallback claim -----

  /** Two lists started on one batch, both claims read before either writes. */
  function Race(cfg: Config, a: Item, b: Item): seq<Event> {
    [Start([0x62], Skip, [a], cfg.hash(Skip, [Keyed(cfg.itemKey(a), a)])),
     Start([0x62], Skip, [b], cfg.hash(Skip, [Keyed(cfg.itemKey(b), b)])),
     Claim(0), Claim(1), PutPlan(0), PutPlan(1)]
  }

  /** Without `putIfAbsent` the guarantee is lost: two different plans loop under one batch id. */
  lemma {:induction false} FallbackClaimAdmitsTwoPlans(cfg: Config, a: Item, b: Item)
    requires !cfg.atomic && a != b && IsSafeId(cfg.itemKey(a)) && IsSafeId(cfg.itemKey(b))
    ensures var s := RunFrom(INITIAL, Race(cfg, a, b), cfg);
            && |s.runs| == 2 && s.runs[0].phase.Looping? && s.runs[1].phase.Looping?
            && s.runs[0].batchId == s.runs[1].batchId && s.runs[0].keyed != s.runs[1].keyed
  {
    var es := Race(cfg, a, b);
    OneItem(cfg, a);
    OneItem(cfg, b);
    var s1 := Step(INITIAL, es[0], cfg);
    var s2 := Step(s1, es[1], cfg);
    var s3 := Step(s2, es[2], cfg);
    var s4 := Step(s3, es[3], cfg);
    var s5 := Step(s4, es[4], cfg);
    var s6 := Step(s5, es[5], cfg);
    assert s2.runs == [Started(es[0], cfg), Started(es[1], cfg)];
    OneMore(INITIAL, es, 0, cfg);
    OneMore(s1, es, 1, cfg);
    OneMore(s2, es, 2, cfg);
    OneMore(s3, es, 3, cfg);
    OneMore(s4, es, 4, cfg);
    OneMore(s5, es, 5, cfg);
    assert es[0..] == es && es[6..] == [];
  }

  lemma {:induction false} OneItem(cfg: Config, a: Item)
    requires IsSafeId(cfg.itemKey(a))
    ensures Canonicalize([a], cfg.itemKey) == Plan([Keyed(cfg.itemKey(a), a)])
  {
    var keyed := WithKeys([a], cfg.itemKey);
    assert keyed == [Keyed(cfg.itemKey(a), a)];
    assert keyed[..0] == [];
    assert SortByKey(keyed) == Insert(keyed[0], []);
  }

  lemma {:induction false} OneMore(s: State, es: seq<Event>, n: nat, cfg: Config)
    requires n < |es|
    ensures RunFrom(s, es[n..], cfg) == RunFrom(Step(s, es[n], cfg), es[n + 1..], cfg)
  {
    assert es[n..][1..] == es[n + 1..];
  }
}
