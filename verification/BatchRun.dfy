/**
 * The item loop and the preflight of a batch (packages/durable/src/batch.ts). What the wrapped tool,
 * the approvals, the admission check and the journal answer is an input, one answer per item.
 */
module BatchRun {
  import opened Common
  import opened BatchPlan

  // ----- classifying an item's result -----

  datatype Outcome = Done | Replayed | Skipped | Denied | Suspended | Failed | NotRun

  datatype LimitKind = DuplicateSideEffect | OtherLimit

  /** The shape of a tool's return value: which of the internal envelopes it carries. */
  datatype Envelope =
    | NotAnObject
    | Object(suspend: bool, skipped: bool, denied: bool, limit: Option<LimitKind>, blocked: bool)

  /** batch.ts `classify`: by shape, first match wins; only a duplicate block asks to cut the batch. */
  function Classify(out: Envelope, replayed: bool): (Outcome, bool) {
    if out.Object? && out.suspend then (Suspended, false)
    else if out.Object? && out.skipped then (Skipped, false)
    else if out.Object? && out.denied then (Denied, false)
    else if out.Object? && out.limit.Some? then (Failed, out.limit.value.DuplicateSideEffect?)
    else if out.Object? && out.blocked then (Failed, false)
    else (if replayed then Replayed else Done, false)
  }

  /** What executing one item comes to; `Refused` is an approval or admission error that ends the whole run. */
  datatype Answer = Refused | Returned(out: Envelope, replayed: bool) | Threw

  // ----- the report, stated item by item -----

  predicate AsksToCut(policy: Policy, a: Answer) {
    policy.FailBatch? && a.Returned? && Classify(a.out, a.replayed).1
  }

  /** Some item before `i` cut the batch. */
  predicate IsCutBefore(policy: Policy, answers: seq<Answer>, i: nat)
    requires i <= |answers|
  {
    exists j :: 0 <= j < i && AsksToCut(policy, answers[j])
  }

  function OutcomeOf(policy: Policy, answers: seq<Answer>, i: nat): Outcome
    requires i < |answers|
  {
    if IsCutBefore(policy, answers, i) then NotRun
    else match answers[i]
         case Returned(out, replayed) => Classify(out, replayed).0
         case _ => Failed
  }

  /** Item `i` is executed and ends the run without a report. */
  predicate EndsTheRun(policy: Policy, answers: seq<Answer>, i: nat)
    requires i < |answers|
  {
    answers[i].Refused? && !IsCutBefore(policy, answers, i)
  }

  datatype Row = Row(itemKey: Text, runId: Text, outcome: Outcome)

  datatype Report = Report(summary: map<Outcome, nat>, items: seq<Row>)

  const BATCH: Text := Ascii("batch:")
  const COLON: Text := Ascii(":")

  function ItemRunId(batchId: Text, key: Text): Text {
    BATCH + batchId + COLON + key
  }

  function RowsOf(batchId: Text, policy: Policy, keyed: seq<Keyed>, answers: seq<Answer>, n: nat): (rows: seq<Row>)
    requires |keyed| == |answers| && n <= |keyed|
    ensures |rows| == n
  {
    seq(n, i requires 0 <= i < n => Row(keyed[i].key, ItemRunId(batchId, keyed[i].key), OutcomeOf(policy, answers, i)))
  }

  function CountOf(rows: seq<Row>, o: Outcome): nat {
    if rows == [] then 0
    else CountOf(rows[..|rows| - 1], o) + if rows[|rows| - 1].outcome == o then 1 else 0
  }

  const NO_COUNTS: map<Outcome, nat> :=
    map[Done := 0, Replayed := 0, Skipped := 0, Denied := 0, Suspended := 0, Failed := 0, NotRun := 0]

  predicate IsTally(summary: map<Outcome, nat>, rows: seq<Row>) {
    forall o: Outcome :: o in summary && summary[o] == CountOf(rows, o)
  }

  lemma {:induction false} EmptyTally()
    ensures IsTally(NO_COUNTS, [])
  {
    forall o: Outcome ensures o in NO_COUNTS && NO_COUNTS[o] == 0 {
      match o {
        case Done =>
        case Replayed =>
        case Skipped =>
        case Denied =>
        case Suspended =>
        case Failed =>
        case NotRun =>
      }
    }
  }

  lemma {:induction false} RowsSnoc(batchId: Text, policy: Policy, keyed: seq<Keyed>, answers: seq<Answer>, n: nat)
    requires |keyed| == |answers| && n < |keyed|
    ensures RowsOf(batchId, policy, keyed, answers, n + 1) ==
            RowsOf(batchId, policy, keyed, answers, n) + [Row(keyed[n].key, ItemRunId(batchId, keyed[n].key), OutcomeOf(policy, answers, n))]
  {}

  /** What one item that is not cut comes to, and whether it cuts the rest. */
  method Execute(policy: Policy, a: Answer) returns (outcome: Outcome, cuts: bool)
    requires !a.Refused?
    ensures outcome == (if a.Returned? then Classify(a.out, a.replayed).0 else Failed)
    ensures outcome != NotRun
    ensures cuts <==> AsksToCut(policy, a)
  {
    if a.Threw? {
      return Failed, false;
    }
    var c := Classify(a.out, a.replayed);
    outcome := c.0;
    cuts := c.1 && policy.FailBatch?;
  }

  lemma {:induction false} TallySnoc(summary: map<Outcome, nat>, rows: seq<Row>, row: Row)
    requires IsTally(summary, rows)
    ensures IsTally(summary[row.outcome := summary[row.outcome] + 1], rows + [row])
  {
    forall o: Outcome ensures CountOf(rows + [row], o) == CountOf(rows, o) + if row.outcome == o then 1 else 0 {
      assert (rows + [row])[..|rows|] == rows;
    }
  }

  /**
   * The item loop of `run`. `executed` are the keys whose tool was called. A report, if there is one,
   * is the stated one: each key once in plan order with its outcome, and a summary that counts them.
   */
  method RunItems(batchId: Text, policy: Policy, keyed: seq<Keyed>, answers: seq<Answer>)
    returns (report: Option<Report>, executed: seq<Text>)
    requires |keyed| == |answers|
    ensures report.None? <==> exists i :: 0 <= i < |keyed| && EndsTheRun(policy, answers, i)
    ensures report.Some? ==>
              && report.value.items == RowsOf(batchId, policy, keyed, answers, |keyed|)
              && IsTally(report.value.summary, report.value.items)
    ensures |executed| <= |keyed|
    ensures forall i :: 0 <= i < |executed| ==> executed[i] == keyed[i].key
    ensures report.Some? ==>
              forall i :: 0 <= i < |keyed| ==> (i < |executed| <==> report.value.items[i].outcome != NotRun)
  {
    var summary := NO_COUNTS;
    var rows: seq<Row> := [];
    var cut := false;
    executed := [];
    EmptyTally();
    for i := 0 to |keyed|
      invariant cut <==> IsCutBefore(policy, answers, i)
      invariant forall k :: 0 <= k < i ==> !EndsTheRun(policy, answers, k)
      invariant rows == RowsOf(batchId, policy, keyed, answers, i) && IsTally(summary, rows)
      invariant |executed| <= i && (!cut ==> |executed| == i)
      invariant forall k :: 0 <= k < |executed| ==> executed[k] == keyed[k].key
      invariant forall k :: 0 <= k < i ==> (k < |executed| <==> rows[k].outcome != NotRun)
    {
      var runId := ItemRunId(batchId, keyed[i].key);
      var outcome, cuts := NotRun, false;
      if !cut {
        if answers[i].Refused? {
          assert EndsTheRun(policy, answers, i);
          return None, executed;
        }
        outcome, cuts := Execute(policy, answers[i]);
        executed := executed + [keyed[i].key];
      }
      assert outcome == OutcomeOf(policy, answers, i);
      RowsSnoc(batchId, policy, keyed, answers, i);
      TallySnoc(summary, rows, Row(keyed[i].key, runId, outcome));
      summary := summary[outcome := summary[outcome] + 1];
      rows := rows + [Row(keyed[i].key, runId, outcome)];
      cut := cut || cuts;
    }
    report := Some(Report(summary, rows));
  }

  predicate HasNoEnvelope(out: Envelope) {
    out.NotAnObject? || (!out.suspend && !out.skipped && !out.denied && out.limit.None? && !out.blocked)
  }

  /**
   * What each outcome of a row says of its item: which envelope the tool's answer carries, the first in
   * the order suspended, skipped, denied, limit, blocked; or that there was none, replayed or not.
   */
  lemma {:induction false} OutcomeSaysWhatCameBack(policy: Policy, answers: seq<Answer>, i: nat)
    requires i < |answers| && !IsCutBefore(policy, answers, i)
    ensures var o, a := OutcomeOf(policy, answers, i), answers[i];
            && o != NotRun
            && (o == Suspended <==> a.Returned? && a.out.Object? && a.out.suspend)
            && (o == Skipped <==> a.Returned? && a.out.Object? && !a.out.suspend && a.out.skipped)
            && (o == Denied <==> a.Returned? && a.out.Object? && !a.out.suspend && !a.out.skipped && a.out.denied)
            && (o == Replayed <==> a.Returned? && HasNoEnvelope(a.out) && a.replayed)
            && (o == Done <==> a.Returned? && HasNoEnvelope(a.out) && !a.replayed)
            && (o == Failed <==>
                !a.Returned?
                || (a.out.Object? && !a.out.suspend && !a.out.skipped && !a.out.denied && (a.out.limit.Some? || a.out.blocked)))
  {}

  /** The answer is a duplicate block: the limit envelope of that kind, and none that goes before it. */
  predicate IsDuplicateBlock(a: Answer) {
    && a.Returned? && a.out.Object? && a.out.limit == Some(DuplicateSideEffect)
    && !a.out.suspend && !a.out.skipped && !a.out.denied
  }

  /** An item is not run if and only if the policy is fail-batch and an earlier item's answer is a duplicate block. */
  lemma {:induction false} NotRunIff(policy: Policy, answers: seq<Answer>, i: nat)
    requires i < |answers|
    ensures OutcomeOf(policy, answers, i) == NotRun <==>
            policy.FailBatch? && exists j :: 0 <= j < i && IsDuplicateBlock(answers[j])
  {
    forall j | 0 <= j < i ensures AsksToCut(policy, answers[j]) <==> policy.FailBatch? && IsDuplicateBlock(answers[j]) {}
  }

  /** `not-run` items form a suffix, and only a fail-batch run that met a duplicate block has any. */
  lemma {:induction false} NotRunIsASuffix(policy: Policy, answers: seq<Answer>, i: nat, k: nat)
    requires i <= k < |answers| && OutcomeOf(policy, answers, i) == NotRun
    ensures OutcomeOf(policy, answers, k) == NotRun
    ensures policy.FailBatch?
    ensures exists j :: 0 <= j < i && answers[j].Returned? && answers[j].out.Object?
                        && answers[j].out.limit == Some(DuplicateSideEffect)
  {
    var j :| 0 <= j < i && AsksToCut(policy, answers[j]);
  }

  /** Every report row belongs to its own key: keys are strictly ascending, so none is listed twice. */
  lemma {:induction false} RowsAreSortedByKey(batchId: Text, policy: Policy, keyed: seq<Keyed>, answers: seq<Answer>, i: nat, j: nat)
    requires |keyed| == |answers| && IsAscending(keyed) && i < j < |keyed|
    ensures var rows := RowsOf(batchId, policy, keyed, answers, |keyed|);
            Less(rows[i].itemKey, rows[j].itemKey) && rows[i].itemKey != rows[j].itemKey
  {
    LessIsAsymmetric(keyed[i].key, keyed[j].key);
  }

  lemma {:induction false} PlanCoversTheItems(items: seq<Item>, itemKey: Item -> Text, k: Keyed)
    requires Canonicalize(items, itemKey).Plan?
    ensures k in Canonicalize(items, itemKey).keyed <==> k.key == itemKey(k.item) && k.item in items
  {
    var keyed, given := Canonicalize(items, itemKey).keyed, WithKeys(items, itemKey);
    PlanIsSorted(items, itemKey);
    assert k in keyed <==> k in multiset(keyed);
    assert k in given <==> k in multiset(given);
    if k.key == itemKey(k.item) && k.item in items {
      var i :| 0 <= i < |items| && items[i] == k.item;
      assert given[i] == k;
    }
  }

  /**
   * From the caller's list to the report: as many rows as items, in strictly ascending key order, every
   * row under the key of an item, and every item's key in exactly one row.
   */
  lemma {:induction false} ReportListsEachItemOnce(batchId: Text, policy: Policy, items: seq<Item>, itemKey: Item -> Text, answers: seq<Answer>)
    requires Canonicalize(items, itemKey).Plan? && |answers| == |Canonicalize(items, itemKey).keyed|
    ensures var keyed := Canonicalize(items, itemKey).keyed;
            var rows := RowsOf(batchId, policy, keyed, answers, |keyed|);
            && |rows| == |items|
            && (forall i, j :: 0 <= i < j < |rows| ==> Less(rows[i].itemKey, rows[j].itemKey))
            && (forall i :: 0 <= i < |rows| ==> exists x :: x in items && rows[i].itemKey == itemKey(x))
            && (forall x :: x in items ==> exists i :: 0 <= i < |rows| && rows[i].itemKey == itemKey(x))
            && (forall i, j :: 0 <= i < j < |rows| ==> rows[i].itemKey != rows[j].itemKey)
  {
    var keyed, given := Canonicalize(items, itemKey).keyed, WithKeys(items, itemKey);
    var rows := RowsOf(batchId, policy, keyed, answers, |keyed|);
    PlanIsSorted(items, itemKey);
    assert |keyed| == |multiset(keyed)| == |multiset(given)| == |items|;
    forall i, j | 0 <= i < j < |rows| ensures Less(rows[i].itemKey, rows[j].itemKey) && rows[i].itemKey != rows[j].itemKey {
      RowsAreSortedByKey(batchId, policy, keyed, answers, i, j);
    }
    forall i | 0 <= i < |rows| ensures exists x :: x in items && rows[i].itemKey == itemKey(x) {
      PlanCoversTheItems(items, itemKey, keyed[i]);
      assert keyed[i].item in items;
    }
    forall x | x in items ensures exists i :: 0 <= i < |rows| && rows[i].itemKey == itemKey(x) {
      PlanCoversTheItems(items, itemKey, Keyed(itemKey(x), x));
      var i :| 0 <= i < |keyed| && keyed[i] == Keyed(itemKey(x), x);
      assert rows[i].itemKey == itemKey(x);
    }
  }

  /** The run id of an item names batch and item: with safe ids no two items share one. */
  lemma {:induction false} ItemRunIdsDiffer(b: Text, k: Text, c: Text, l: Text)
    requires IsSafeId(b) && IsSafeId(k) && IsSafeId(c) && IsSafeId(l)
    requires ItemRunId(b, k) == ItemRunId(c, l)
    ensures b == c && k == l
  {
    var x, y := ItemRunId(b, k), ItemRunId(c, l);
    var p := |BATCH|;
    assert x[p + |b|] == COLON[0] && y[p + |c|] == COLON[0];
    assert forall i :: 0 <= i < |b| ==> x[p + i] == b[i];
    assert forall i :: 0 <= i < |c| ==> y[p + i] == c[i];
    assert |b| == |c|;
    assert b == x[p..p + |b|] == c;
    assert k == x[p + |b| + 1..] == l;
  }

  function Total(summary: map<Outcome, nat>): nat
    requires forall o: Outcome :: o in summary
  {
    summary[Done] + summary[Replayed] + summary[Skipped] + summary[Denied] + summary[Suspended] + summary[Failed] + summary[NotRun]
  }

  /** Nothing is lost: the seven counters add up to the number of items. */
  lemma {:induction false} SummaryAddsUp(summary: map<Outcome, nat>, rows: seq<Row>)
    requires IsTally(summary, rows)
    ensures Total(summary) == |rows|
    decreases |rows|
  {
    CountsAddUp(rows);
  }

  lemma {:induction false} CountsAddUp(rows: seq<Row>)
    ensures CountOf(rows, Done) + CountOf(rows, Replayed) + CountOf(rows, Skipped) + CountOf(rows, Denied)
            + CountOf(rows, Suspended) + CountOf(rows, Failed) + CountOf(rows, NotRun) == |rows|
  {
    if rows != [] {
      CountsAddUp(rows[..|rows| - 1]);
    }
  }

  // ----- preflight -----

  datatype Status = Absent | Succeeded | AwaitingDecision | OtherStatus

  /** The cross-channel record of an item: written by this batch or by another channel, with equal amounts or not. */
  datatype Xid = Xid(ownBatch: bool, amountsDiffer: bool)

  /** What preflight learns about one item. */
  datatype Probe = Probe(status: Status, identityUnusable: bool, xid: Option<Xid>)

  datatype Class = ExactRepeat | AwaitingApproval | AmountMismatch | XidHit | Fresh

  /** Where an item goes; `scoped` says that a resource id and a declared identity exist. */
  function ClassOf(p: Probe, scoped: bool): Class {
    if p.status.Succeeded? then ExactRepeat
    else if p.status.AwaitingDecision? then AwaitingApproval
    else if scoped && !p.identityUnusable && p.xid.Some? && !p.xid.value.ownBatch then
      if p.xid.value.amountsDiffer then AmountMismatch else XidHit
    else Fresh
  }

  /** The keys among the first `n` items that fall into class `c`, in plan order. */
  function KeysIn(keyed: seq<Keyed>, probes: seq<Probe>, scoped: bool, c: Class, n: nat): seq<Text>
    requires |keyed| == |probes| && n <= |keyed|
  {
    if n == 0 then []
    else KeysIn(keyed, probes, scoped, c, n - 1) + if ClassOf(probes[n - 1], scoped) == c then [keyed[n - 1].key] else []
  }

  /** The keys whose declared identity cannot identify them: said, not silently skipped. */
  function UnusableKeys(keyed: seq<Keyed>, probes: seq<Probe>, scoped: bool, n: nat): seq<Text>
    requires |keyed| == |probes| && n <= |keyed|
  {
    if n == 0 then []
    else
      var p := probes[n - 1];
      UnusableKeys(keyed, probes, scoped, n - 1)
      + if scoped && p.identityUnusable && ClassOf(p, scoped) == Fresh then [keyed[n - 1].key] else []
  }

  /** Item `i` has the same arguments as an earlier item of the plan. */
  predicate HasEarlierTwin(keyed: seq<Keyed>, i: nat)
    requires i < |keyed|
  {
    exists j :: 0 <= j < i && keyed[j].item == keyed[i].item
  }

  function TwinKeys(keyed: seq<Keyed>, n: nat): seq<Text>
    requires n <= |keyed|
  {
    if n == 0 then [] else TwinKeys(keyed, n - 1) + if HasEarlierTwin(keyed, n - 1) then [keyed[n - 1].key] else []
  }

  datatype PlanReport = PlanReport(
    freshCount: nat, exactRepeats: seq<Text>, suspended: seq<Text>, xidHits: seq<Text>, amountMismatches: seq<Text>,
    unusable: seq<Text>, intraBatchDuplicates: seq<Text>)

  /** The first loop of `preflight`: arguments seen under more than one key. `argsHash` is injective, so items stand for their hashes. */
  method IntraBatchDuplicates(keyed: seq<Keyed>) returns (twins: seq<Text>)
    ensures twins == TwinKeys(keyed, |keyed|)
  {
    twins := [];
    var byHash: map<Item, Text> := map[];
    for i := 0 to |keyed|
      invariant twins == TwinKeys(keyed, i)
      invariant forall x :: x in byHash <==> exists j :: 0 <= j < i && keyed[j].item == x
    {
      if keyed[i].item in byHash {
        twins := twins + [keyed[i].key];
      } else {
        byHash := byHash[keyed[i].item := keyed[i].key];
      }
    }
  }

  /** batch.ts `preflight`: reads only, one class per item. */
  method Preflight(keyed: seq<Keyed>, probes: seq<Probe>, scoped: bool) returns (plan: PlanReport)
    requires |keyed| == |probes|
    ensures plan.exactRepeats == KeysIn(keyed, probes, scoped, ExactRepeat, |keyed|)
    ensures plan.suspended == KeysIn(keyed, probes, scoped, AwaitingApproval, |keyed|)
    ensures plan.xidHits == KeysIn(keyed, probes, scoped, XidHit, |keyed|)
    ensures plan.amountMismatches == KeysIn(keyed, probes, scoped, AmountMismatch, |keyed|)
    ensures plan.freshCount == |KeysIn(keyed, probes, scoped, Fresh, |keyed|)|
    ensures plan.unusable == UnusableKeys(keyed, probes, scoped, |keyed|)
    ensures plan.intraBatchDuplicates == TwinKeys(keyed, |keyed|)
  {
    var twins := IntraBatchDuplicates(keyed);
    plan := PlanReport(0, [], [], [], [], [], twins);
    for i := 0 to |keyed|
      invariant plan.exactRepeats == KeysIn(keyed, probes, scoped, ExactRepeat, i)
      invariant plan.suspended == KeysIn(keyed, probes, scoped, AwaitingApproval, i)
      invariant plan.xidHits == KeysIn(keyed, probes, scoped, XidHit, i)
      invariant plan.amountMismatches == KeysIn(keyed, probes, scoped, AmountMismatch, i)
      invariant plan.freshCount == |KeysIn(keyed, probes, scoped, Fresh, i)|
      invariant plan.unusable == UnusableKeys(keyed, probes, scoped, i)
      invariant plan.intraBatchDuplicates == twins
    {
      var key, p := keyed[i].key, probes[i];
      if p.status.Succeeded? {
        plan := plan.(exactRepeats := plan.exactRepeats + [key]);
        continue;
      }
      if p.status.AwaitingDecision? {
        plan := plan.(suspended := plan.suspended + [key]);
        continue;
      }
      var unusable := scoped && p.identityUnusable;
      if unusable {
        plan := plan.(unusable := plan.unusable + [key]);
      }
      if scoped && !unusable && p.xid.Some? && !p.xid.value.ownBatch {
        if p.xid.value.amountsDiffer {
          plan := plan.(amountMismatches := plan.amountMismatches + [key]);
        } else {
          plan := plan.(xidHits := plan.xidHits + [key]);
        }
        continue;
      }
      plan := plan.(freshCount := plan.freshCount + 1);
    }
  }

  /** Every item is in exactly one class: the classes' sizes add up to the plan's. */
  lemma {:induction false} PreflightPartitions(keyed: seq<Keyed>, probes: seq<Probe>, scoped: bool, n: nat)
    requires |keyed| == |probes| && n <= |keyed|
    ensures |KeysIn(keyed, probes, scoped, ExactRepeat, n)| + |KeysIn(keyed, probes, scoped, AwaitingApproval, n)|
            + |KeysIn(keyed, probes, scoped, XidHit, n)| + |KeysIn(keyed, probes, scoped, AmountMismatch, n)|
            + |KeysIn(keyed, probes, scoped, Fresh, n)| == n
  {
    if n > 0 {
      PreflightPartitions(keyed, probes, scoped, n - 1);
    }
  }

  lemma {:induction false} ClassListsItsItems(keyed: seq<Keyed>, probes: seq<Probe>, scoped: bool, c: Class, n: nat, key: Text)
    requires |keyed| == |probes| && n <= |keyed|
    ensures key in KeysIn(keyed, probes, scoped, c, n) <==>
            exists i :: 0 <= i < n && keyed[i].key == key && ClassOf(probes[i], scoped) == c
  {
    if n > 0 {
      ClassListsItsItems(keyed, probes, scoped, c, n - 1, key);
    }
  }

  /** The class of an item, told from what preflight reads about it. */
  lemma {:induction false} ClassSaysWhatWasRead(p: Probe, scoped: bool)
    ensures var c := ClassOf(p, scoped);
            var elsewhere := scoped && !p.identityUnusable && p.xid.Some? && !p.xid.value.ownBatch;
            && (c == ExactRepeat <==> p.status == Succeeded)
            && (c == AwaitingApproval <==> p.status == AwaitingDecision)
            && (c == AmountMismatch <==> p.status in {Absent, OtherStatus} && elsewhere && p.xid.value.amountsDiffer)
            && (c == XidHit <==> p.status in {Absent, OtherStatus} && elsewhere && !p.xid.value.amountsDiffer)
            && (c == Fresh <==> p.status in {Absent, OtherStatus} && !elsewhere)
  {}

  /** An item is reported as having unusable identity exactly if it would have been looked up by it and cannot be. */
  lemma {:induction false} UnusableIff(keyed: seq<Keyed>, probes: seq<Probe>, scoped: bool, n: nat, key: Text)
    requires |keyed| == |probes| && n <= |keyed|
    ensures key in UnusableKeys(keyed, probes, scoped, n) <==>
            exists i :: 0 <= i < n && keyed[i].key == key && scoped && probes[i].identityUnusable
                        && probes[i].status != Succeeded && probes[i].status != AwaitingDecision
  {
    if n > 0 {
      UnusableIff(keyed, probes, scoped, n - 1, key);
    }
  }

  /** An item is reported as a duplicate within the batch exactly if an earlier one has the same arguments. */
  lemma {:induction false} TwinIff(keyed: seq<Keyed>, n: nat, key: Text)
    requires n <= |keyed|
    ensures key in TwinKeys(keyed, n) <==>
            exists i, j :: 0 <= j < i < n && keyed[i].key == key && keyed[j].item == keyed[i].item
  {
    if n > 0 {
      TwinIff(keyed, n - 1, key);
    }
  }

  /** No key is listed under two classes. */
  lemma {:induction false} ClassesAreDisjoint(keyed: seq<Keyed>, probes: seq<Probe>, scoped: bool, c: Class, d: Class, key: Text)
    requires |keyed| == |probes| && IsAscending(keyed) && c != d
    ensures !(key in KeysIn(keyed, probes, scoped, c, |keyed|) && key in KeysIn(keyed, probes, scoped, d, |keyed|))
  {
    ClassListsItsItems(keyed, probes, scoped, c, |keyed|, key);
    ClassListsItsItems(keyed, probes, scoped, d, |keyed|, key);
    if key in KeysIn(keyed, probes, scoped, c, |keyed|) && key in KeysIn(keyed, probes, scoped, d, |keyed|) {
      var i :| 0 <= i < |keyed| && keyed[i].key == key && ClassOf(probes[i], scoped) == c;
      var j :| 0 <= j < |keyed| && keyed[j].key == key && ClassOf(probes[j], scoped) == d;
      LessIsAsymmetric(keyed[if i < j then i else j].key, keyed[if i < j then j else i].key);
    }
  }
}
