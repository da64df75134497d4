/**
 * The agent approval registry (packages/durable/src/agent-registry.ts). A fingerprint is its text;
 * who decided, when, and with which note is not modelled.
 */
module AgentRegistry {
  import opened Common

  datatype Status = Pending | Approved | Changed | Blocked

  datatype Record = Record(status: Status, fingerprint: Text, approvedFingerprint: Option<Text>)

  // ----- what each operation writes, given what it read -----

  /** `recordAgent`: `None` when it leaves the journal alone. */
  function BootWrites(existing: Option<Record>, fingerprint: Text): Option<Record> {
    if existing.None? then Some(Record(Pending, fingerprint, None))
    else if existing.value.status.Approved? && existing.value.approvedFingerprint != Some(fingerprint) then
      Some(existing.value.(status := Changed, fingerprint := fingerprint))
    else if existing.value.fingerprint != fingerprint then Some(existing.value.(fingerprint := fingerprint))
    else None
  }

  function OrUnseen(existing: Option<Record>): Record {
    if existing.Some? then existing.value else Record(Pending, [], None)
  }

  /** `approveAgent` pins the fingerprint it read. */
  function ApproveWrites(existing: Option<Record>): Record {
    var base := OrUnseen(existing);
    base.(status := Approved, approvedFingerprint := Some(base.fingerprint))
  }

  function BlockWrites(existing: Option<Record>): Record {
    OrUnseen(existing).(status := Blocked)
  }

  datatype Op = Boot(fingerprint: Text) | Approve | Block

  function After(existing: Option<Record>, op: Op): Option<Record> {
    match op
    case Boot(f) => var w := BootWrites(existing, f); if w.Some? then w else existing
    case Approve => Some(ApproveWrites(existing))
    case Block => Some(BlockWrites(existing))
  }

  predicate IsServable(r: Option<Record>) {
    r.Some? && r.value.status.Approved?
  }

  // ----- sequential histories -----

  function History(ops: seq<Op>): Option<Record> {
    if ops == [] then None else After(History(ops[..|ops| - 1]), ops[|ops| - 1])
  }

  /** The configuration last seen by a boot; the empty fingerprint before any boot. */
  function LastSeen(ops: seq<Op>): Text {
    if ops == [] then []
    else if ops[|ops| - 1].Boot? then ops[|ops| - 1].fingerprint
    else LastSeen(ops[..|ops| - 1])
  }

  /** Operation `d` is an approval and everything since is a boot of the configuration it pinned. */
  ghost predicate StandsSince(ops: seq<Op>, d: nat) {
    && d < |ops| && ops[d].Approve?
    && forall i :: d < i < |ops| ==> ops[i] == Boot(LastSeen(ops[..d]))
  }

  ghost predicate MayServe(ops: seq<Op>) {
    exists d: nat :: StandsSince(ops, d)
  }

  lemma {:induction false} MayServeSnoc(ops: seq<Op>, op: Op)
    ensures MayServe(ops + [op]) <==> op.Approve? || (MayServe(ops) && op == Boot(LastSeen(ops)))
  {
    var all := ops + [op];
    if op.Approve? {
      assert StandsSince(all, |ops|);
    } else if MayServe(ops) && op == Boot(LastSeen(ops)) {
      var d: nat :| StandsSince(ops, d);
      PinIsLastSeen(ops, d);
      assert all[..d] == ops[..d];
      assert StandsSince(all, d);
    } else if MayServe(all) {
      var d: nat :| StandsSince(all, d);
      assert d < |ops|;
      assert all[..d] == ops[..d];
      assert all[|ops|] == op;
      assert forall i :: d < i < |ops| ==> ops[i] == all[i];
      assert StandsSince(ops, d);
      PinIsLastSeen(ops, d);
    }
  }

  lemma {:induction false} PinIsLastSeen(ops: seq<Op>, d: nat)
    requires StandsSince(ops, d)
    ensures LastSeen(ops) == LastSeen(ops[..d])
    decreases |ops|
  {
    if d == |ops| - 1 {
      assert !ops[|ops| - 1].Boot?;
    }
  }

  lemma {:induction false} HistorySnoc(ops: seq<Op>, op: Op)
    ensures History(ops + [op]) == After(History(ops), op)
    ensures LastSeen(ops + [op]) == if op.Boot? then op.fingerprint else LastSeen(ops)
  {
    assert (ops + [op])[..|ops|] == ops;
  }

  lemma {:induction false} AfterOne(r: Option<Record>, op: Op, seen: Text)
    requires OrUnseen(r).fingerprint == seen && (IsServable(r) ==> r.value.approvedFingerprint == Some(seen))
    ensures var after, seenNow := After(r, op), if op.Boot? then op.fingerprint else seen;
            && (IsServable(after) <==> op.Approve? || (IsServable(r) && op == Boot(seen)))
            && after.Some? && after.value.fingerprint == seenNow
            && (IsServable(after) ==> after.value.approvedFingerprint == Some(seenNow))
  {}

  /**
   * Over every sequential history an agent is servable exactly when the last decision was an approval
   * and every boot since then saw the configuration it pinned; and the record always shows the
   * configuration last seen.
   */
  lemma {:induction false} ServableIffApprovalStands(ops: seq<Op>)
    ensures IsServable(History(ops)) <==> MayServe(ops)
    ensures History(ops).None? <==> ops == []
    ensures OrUnseen(History(ops)).fingerprint == LastSeen(ops)
    ensures IsServable(History(ops)) ==> History(ops).value.approvedFingerprint == Some(LastSeen(ops))
  {
    if ops != [] {
      var before, op := ops[..|ops| - 1], ops[|ops| - 1];
      assert ops == before + [op];
      ServableIffApprovalStands(before);
      MayServeSnoc(before, op);
      HistorySnoc(before, op);
      AfterOne(History(before), op, LastSeen(before));
    }
  }

  /** Where the last decision stands; -1 if none was taken. */
  function LastDecision(ops: seq<Op>): (d: int)
    ensures -1 <= d < |ops|
  {
    if ops == [] then -1
    else if !ops[|ops| - 1].Boot? then |ops| - 1
    else LastDecision(ops[..|ops| - 1])
  }

  /** Some boot after position `d` saw another configuration than the one seen last before it. */
  ghost predicate HasDrifted(ops: seq<Op>, d: nat)
    requires d < |ops|
  {
    exists i :: d < i < |ops| && ops[i].Boot? && ops[i].fingerprint != LastSeen(ops[..d])
  }

  /** The status an administrator finds: pending without a decision, blocked after a block, changed after an approval and drift. */
  lemma {:induction false} StatusTellsTheHistory(ops: seq<Op>)
    requires ops != []
    ensures History(ops).Some?
    ensures var d, status := LastDecision(ops), History(ops).value.status;
            && (d < 0 ==> status == Pending)
            && (d >= 0 && ops[d].Block? ==> status == Blocked)
            && (d >= 0 && ops[d].Approve? ==>
                  status == (if HasDrifted(ops, d) then Changed else Approved)
                  && History(ops).value.approvedFingerprint == Some(LastSeen(ops[..d])))
  {
    var before, op := ops[..|ops| - 1], ops[|ops| - 1];
    assert ops == before + [op];
    HistorySnoc(before, op);
    ServableIffApprovalStands(before);
    if before != [] {
      StatusTellsTheHistory(before);
      var d := LastDecision(before);
      if op.Boot? && d >= 0 {
        assert ops[d] == before[d] && ops[..d] == before[..d];
        DriftSnoc(before, op, d);
      }
    }
    if !op.Boot? {
      assert ops[..|ops| - 1] == before;
    }
  }

  lemma {:induction false} DriftSnoc(ops: seq<Op>, op: Op, d: nat)
    requires d < |ops| && op.Boot?
    ensures HasDrifted(ops + [op], d) <==> HasDrifted(ops, d) || op.fingerprint != LastSeen(ops[..d])
  {
    var all := ops + [op];
    assert all[..d] == ops[..d] && all[|ops|] == op;
    if HasDrifted(ops, d) {
      var i :| d < i < |ops| && ops[i].Boot? && ops[i].fingerprint != LastSeen(ops[..d]);
      assert all[i] == ops[i];
    }
    if HasDrifted(all, d) {
      var i :| d < i < |all| && all[i].Boot? && all[i].fingerprint != LastSeen(all[..d]);
      assert i < |ops| ==> ops[i] == all[i];
    }
  }

  // ----- interleaved operations: each is a get and a later put -----

  datatype InFlight = InFlight(op: Op, read: Option<Record>, written: bool)

  datatype State = State(record: Option<Record>, calls: seq<InFlight>)

  datatype Event = Get(op: Op) | Put(call: nat)

  const EMPTY := State(None, [])

  /** What a call writes; a boot may write nothing. */
  function Writes(c: InFlight): Option<Record> {
    match c.op
    case Boot(f) => BootWrites(c.read, f)
    case Approve => Some(ApproveWrites(c.read))
    case Block => Some(BlockWrites(c.read))
  }

  function Step(s: State, e: Event): State {
    match e
    case Get(op) => s.(calls := s.calls + [InFlight(op, s.record, false)])
    case Put(k) =>
      if k < |s.calls| && !s.calls[k].written then
        var w := Writes(s.calls[k]);
        State(if w.Some? then w else s.record, s.calls[k := s.calls[k].(written := true)])
      else s
  }

  function RunFrom(s: State, events: seq<Event>): State
    decreases |events|
  {
    if events == [] then s else RunFrom(Step(s, events[0]), events[1..])
  }

  /** An approved record pins the very configuration it shows. */
  ghost predicate IsConsistent(r: Option<Record>) {
    IsServable(r) ==> r.value.approvedFingerprint == Some(r.value.fingerprint)
  }

  ghost predicate Inv(s: State) {
    IsConsistent(s.record) && forall k :: 0 <= k < |s.calls| ==> IsConsistent(s.calls[k].read)
  }

  lemma {:induction false} StepKeepsInv(s: State, e: Event)
    requires Inv(s)
    ensures Inv(Step(s, e))
  {
    if e.Put? && e.call < |s.calls| {
      assert IsConsistent(s.calls[e.call].read);
    }
  }

  lemma {:induction false} RunKeepsInv(s: State, events: seq<Event>)
    requires Inv(s)
    ensures Inv(RunFrom(s, events))
    decreases |events|
  {
    if events != [] {
      StepKeepsInv(s, events[0]);
      RunKeepsInv(Step(s, events[0]), events[1..]);
    }
  }

  /** Whatever the interleaving: an approved record is consistent, and no boot ever writes one. */
  lemma {:induction false} OnlyAdminsApprove(events: seq<Event>, k: nat)
    ensures IsConsistent(RunFrom(EMPTY, events).record)
    ensures var s := RunFrom(EMPTY, events);
            k < |s.calls| && s.calls[k].op.Boot? ==> !IsServable(Writes(s.calls[k]))
  {
    RunKeepsInv(EMPTY, events);
    var s := RunFrom(EMPTY, events);
    if k < |s.calls| {
      assert IsConsistent(s.calls[k].read);
    }
  }

  // ----- which puts do no harm -----

  /** Call `k` has read and not yet written. */
  predicate IsPending(s: State, k: nat) {
    k < |s.calls| && !s.calls[k].written
  }

  /** The status and the pin a boot that sees `fingerprint` leaves behind. */
  function BootLeaves(r: Option<Record>, fingerprint: Text): (Status, Option<Text>) {
    if r.None? then (Pending, None)
    else if r.value.status.Approved? && r.value.approvedFingerprint != Some(fingerprint) then (Changed, r.value.approvedFingerprint)
    else (r.value.status, r.value.approvedFingerprint)
  }

  /**
   * A call may still write: for an approval the fingerprint it read stands; for a block the fingerprint
   * and the pin; for a boot that writes, what a boot leaves of status and pin; for a boot that writes
   * nothing, that there is still nothing to write.
   */
  predicate IsTimely(c: InFlight, now: Option<Record>) {
    match c.op
    case Approve => OrUnseen(c.read).fingerprint == OrUnseen(now).fingerprint
    case Block =>
      && OrUnseen(c.read).fingerprint == OrUnseen(now).fingerprint
      && OrUnseen(c.read).approvedFingerprint == OrUnseen(now).approvedFingerprint
    case Boot(f) =>
      if BootWrites(c.read, f).Some? then BootLeaves(c.read, f) == BootLeaves(now, f) else BootWrites(now, f).None?
  }

  /** A late put does what the operation would do now if and only if it is timely. */
  lemma {:induction false} TimelyIffSequential(s: State, k: nat)
    requires IsPending(s, k)
    ensures Step(s, Put(k)).record == After(s.record, s.calls[k].op) <==> IsTimely(s.calls[k], s.record)
  {}

  /** The operation that `e` completes, if it completes one. */
  function Completed(s: State, e: Event): seq<Op> {
    if e.Put? && IsPending(s, e.call) then [s.calls[e.call].op] else []
  }

  /** The operations in the order of their puts. */
  function PutOrder(s: State, events: seq<Event>): seq<Op>
    decreases |events|
  {
    if events == [] then [] else Completed(s, events[0]) + PutOrder(Step(s, events[0]), events[1..])
  }

  ghost predicate EveryPutIsTimely(s: State, events: seq<Event>)
    decreases |events|
  {
    events == [] ||
    ((events[0].Put? && IsPending(s, events[0].call) ==> IsTimely(s.calls[events[0].call], s.record))
     && EveryPutIsTimely(Step(s, events[0]), events[1..]))
  }

  /** After its first `n` events the run stands where the history of its puts does. */
  ghost predicate IsSequentialAt(s: State, events: seq<Event>, done: seq<Op>, n: nat)
    requires n <= |events|
  {
    RunFrom(s, events[..n]).record == History(done + PutOrder(s, events[..n]))
  }

  ghost predicate IsSequentialThroughout(s: State, events: seq<Event>, done: seq<Op>) {
    forall n :: 0 <= n <= |events| ==> IsSequentialAt(s, events, done, n)
  }

  lemma {:induction false} SequentialShifts(s: State, events: seq<Event>, done: seq<Op>, n: nat)
    requires 0 < n <= |events|
    ensures IsSequentialAt(s, events, done, n) <==>
            IsSequentialAt(Step(s, events[0]), events[1..], done + Completed(s, events[0]), n - 1)
  {
    assert events[..n][0] == events[0] && events[..n][1..] == events[1..][..n - 1];
    Assoc(done, Completed(s, events[0]), PutOrder(Step(s, events[0]), events[1..][..n - 1]));
  }

  lemma {:induction false} StepIsSequential(s: State, e: Event, done: seq<Op>)
    requires s.record == History(done)
    ensures Step(s, e).record == History(done + Completed(s, e)) <==>
            (e.Put? && IsPending(s, e.call) ==> IsTimely(s.calls[e.call], s.record))
  {
    if e.Put? && IsPending(s, e.call) {
      HistorySnoc(done, s.calls[e.call].op);
      TimelyIffSequential(s, e.call);
    } else {
      assert done + [] == done;
    }
  }

  lemma {:induction false} FirstPrefixes(s: State, events: seq<Event>, done: seq<Op>)
    ensures IsSequentialAt(s, events, done, 0) <==> s.record == History(done)
    ensures events != [] ==>
              (IsSequentialAt(s, events, done, 1) <==> Step(s, events[0]).record == History(done + Completed(s, events[0])))
  {
    assert events[..0] == [] && done + [] == done;
    if events != [] {
      var rest := events[1..];
      SequentialShifts(s, events, done, 1);
      assert rest[..0] == [];
      assert done + Completed(s, events[0]) + [] == done + Completed(s, events[0]);
    }
  }

  /**
   * An interleaving stands at every moment where the sequential history of its puts does if and only if
   * every put is timely; so then the theorem above applies to it throughout.
   */
  lemma {:induction false} SequentialIffPutsAreTimely(s: State, events: seq<Event>, done: seq<Op>)
    requires s.record == History(done)
    ensures IsSequentialThroughout(s, events, done) <==> EveryPutIsTimely(s, events)
    decreases |events|
  {
    FirstPrefixes(s, events, done);
    if events != [] {
      var s1, rest, done1 := Step(s, events[0]), events[1..], done + Completed(s, events[0]);
      StepIsSequential(s, events[0], done);
      forall n | 0 < n <= |events|
        ensures IsSequentialAt(s, events, done, n) <==> IsSequentialAt(s1, rest, done1, n - 1)
      {
        SequentialShifts(s, events, done, n);
      }
      if s1.record == History(done1) {
        SequentialIffPutsAreTimely(s1, rest, done1);
        ThroughoutShifts(s, events, done);
      } else {
        assert !IsSequentialAt(s, events, done, 1);
      }
    }
  }

  lemma {:induction false} ThroughoutShifts(s: State, events: seq<Event>, done: seq<Op>)
    requires events != [] && IsSequentialAt(s, events, done, 0)
    ensures IsSequentialThroughout(s, events, done) <==>
            IsSequentialThroughout(Step(s, events[0]), events[1..], done + Completed(s, events[0]))
  {
    var s1, rest, done1 := Step(s, events[0]), events[1..], done + Completed(s, events[0]);
    forall n | 0 < n <= |events|
      ensures IsSequentialAt(s, events, done, n) <==> IsSequentialAt(s1, rest, done1, n - 1)
    {
      SequentialShifts(s, events, done, n);
    }
    if IsSequentialThroughout(s, events, done) {
      forall n | 0 <= n <= |rest| ensures IsSequentialAt(s1, rest, done1, n) {
        assert IsSequentialAt(s, events, done, n + 1);
      }
    }
  }

  /** So under timely puts an agent is servable exactly when an approval stands in the order of the puts. */
  lemma {:induction false} ServableUnderInterleaving(events: seq<Event>)
    requires EveryPutIsTimely(EMPTY, events)
    ensures IsServable(RunFrom(EMPTY, events).record) <==> MayServe(PutOrder(EMPTY, events))
    ensures OrUnseen(RunFrom(EMPTY, events).record).fingerprint == LastSeen(PutOrder(EMPTY, events))
  {
    var ops := PutOrder(EMPTY, events);
    SequentialIffPutsAreTimely(EMPTY, events, []);
    assert IsSequentialAt(EMPTY, events, [], |events|);
    assert events[..|events|] == events && [] + ops == ops;
    ServableIffApprovalStands(ops);
  }

  lemma {:induction false} CallStands(s: State, events: seq<Event>, k: nat)
    requires IsPending(s, k) && forall i :: 0 <= i < |events| ==> events[i] != Put(k)
    ensures var t := RunFrom(s, events); IsPending(t, k) && t.calls[k] == s.calls[k]
    decreases |events|
  {
    if events != [] {
      CallStands(Step(s, events[0]), events[1..], k);
    }
  }

  /**
   * Two boots of one configuration that read the same record: the first writes, anything but the second's
   * put happens, the second writes. The second does what a boot would do at its put if and only if the
   * record still has, if it writes, the status and pin a boot leaves, and otherwise nothing to write.
   */
  lemma {:induction false} SecondBootIsHarmlessIff(s: State, fingerprint: Text, between: seq<Event>)
    requires forall i :: 0 <= i < |between| ==> between[i] != Put(|s.calls| + 1)
    ensures var n := |s.calls|;
            var s1 := Step(Step(Step(s, Get(Boot(fingerprint))), Get(Boot(fingerprint))), Put(n));
            var t := RunFrom(s1, between);
            var now := t.record;
            Step(t, Put(n + 1)).record == After(now, Boot(fingerprint)) <==>
            if BootWrites(s.record, fingerprint).Some? then BootLeaves(now, fingerprint) == BootLeaves(s.record, fingerprint)
            else BootWrites(now, fingerprint).None?
  {
    var n := |s.calls|;
    var s2 := Step(Step(s, Get(Boot(fingerprint))), Get(Boot(fingerprint)));
    assert s2.calls[n + 1] == InFlight(Boot(fingerprint), s.record, false);
    var s1 := Step(s2, Put(n));
    assert s1.calls[n + 1] == s2.calls[n + 1];
    CallStands(s1, between, n + 1);
    TimelyIffSequential(RunFrom(s1, between), n + 1);
  }

  /** With nothing in between it always does. */
  lemma {:induction false} DoubleBootIsHarmless(s: State, fingerprint: Text)
    ensures var n := |s.calls|;
            var s1 := Step(Step(Step(s, Get(Boot(fingerprint))), Get(Boot(fingerprint))), Put(n));
            Step(s1, Put(n + 1)).record == After(s1.record, Boot(fingerprint)) == s1.record
  {
    var n := |s.calls|;
    var s1 := Step(Step(Step(s, Get(Boot(fingerprint))), Get(Boot(fingerprint))), Put(n));
    SecondBootIsHarmlessIff(s, fingerprint, []);
    assert s1.record == After(s.record, Boot(fingerprint));
  }

  /** An approval between the puts of two first boots. */
  function ApprovalBetweenBoots(fingerprint: Text): seq<Event> {
    [Get(Boot(fingerprint)), Get(Boot(fingerprint)), Put(0), Get(Approve), Put(2), Put(1)]
  }

  /** It is erased by the second put: the agent was approved and is pending again, configuration unchanged. */
  lemma {:induction false} DoubleBootErasesAnApproval(fingerprint: Text)
    ensures var es := ApprovalBetweenBoots(fingerprint);
            && IsServable(RunFrom(EMPTY, es[..5]).record)
            && RunFrom(EMPTY, es).record == Some(Record(Pending, fingerprint, None))
            && PutOrder(EMPTY, es) == [Boot(fingerprint), Approve, Boot(fingerprint)]
  {
    var es := ApprovalBetweenBoots(fingerprint);
    var fore := es[..5];
    var s1 := Step(EMPTY, es[0]);
    var s2 := Step(s1, es[1]);
    var s3 := Step(s2, es[2]);
    var s4 := Step(s3, es[3]);
    var s5 := Step(s4, es[4]);
    assert s4.record == Some(Record(Pending, fingerprint, None)) && s4.calls[1] == InFlight(Boot(fingerprint), None, false);
    assert s4.calls[2] == InFlight(Approve, s4.record, false) && |s4.calls| == 3;
    assert s5.record == Some(Record(Approved, fingerprint, Some(fingerprint)));
    SixSteps(es, s1, s2, s3, s4, s5);
    FiveSteps(fore, s1, s2, s3, s4, s5);
  }

  lemma {:induction false} OneMore(s: State, es: seq<Event>, n: nat)
    requires n < |es|
    ensures RunFrom(s, es[n..]) == RunFrom(Step(s, es[n]), es[n + 1..])
    ensures PutOrder(s, es[n..]) == Completed(s, es[n]) + PutOrder(Step(s, es[n]), es[n + 1..])
  {
    assert es[n..][1..] == es[n + 1..];
  }

  lemma {:induction false} SixSteps(es: seq<Event>, s1: State, s2: State, s3: State, s4: State, s5: State)
    requires |es| == 6 && s1 == Step(EMPTY, es[0]) && s2 == Step(s1, es[1]) && s3 == Step(s2, es[2])
    requires s4 == Step(s3, es[3]) && s5 == Step(s4, es[4])
    ensures RunFrom(EMPTY, es) == Step(s5, es[5])
    ensures PutOrder(EMPTY, es) == Completed(EMPTY, es[0]) + (Completed(s1, es[1]) + (Completed(s2, es[2])
                                   + (Completed(s3, es[3]) + (Completed(s4, es[4]) + Completed(s5, es[5])))))
  {
    OneMore(EMPTY, es, 0);
    OneMore(s1, es, 1);
    OneMore(s2, es, 2);
    OneMore(s3, es, 3);
    OneMore(s4, es, 4);
    OneMore(s5, es, 5);
    assert es[0..] == es && es[6..] == [];
    assert Completed(s5, es[5]) + [] == Completed(s5, es[5]);
  }

  lemma {:induction false} FiveSteps(es: seq<Event>, s1: State, s2: State, s3: State, s4: State, s5: State)
    requires |es| == 5 && s1 == Step(EMPTY, es[0]) && s2 == Step(s1, es[1]) && s3 == Step(s2, es[2])
    requires s4 == Step(s3, es[3]) && s5 == Step(s4, es[4])
    ensures RunFrom(EMPTY, es) == s5
  {
    OneMore(EMPTY, es, 0);
    OneMore(s1, es, 1);
    OneMore(s2, es, 2);
    OneMore(s3, es, 3);
    OneMore(s4, es, 4);
    assert es[0..] == es && es[5..] == [];
  }

  /** What is served, if anything is, is the configuration last seen by a boot. */
  ghost predicate ServesLastSeen(r: Option<Record>, done: seq<Op>) {
    IsServable(r) ==> r.value.fingerprint == LastSeen(done)
  }

  /**
   * An approval hides drift unless the fingerprint it read is the one last seen; a boot does if it writes
   * nothing although another configuration is being served by now; a block never does.
   */
  predicate HidesDrift(c: InFlight, now: Option<Record>, done: seq<Op>) {
    match c.op
    case Approve => OrUnseen(c.read).fingerprint != LastSeen(done)
    case Block => false
    case Boot(f) => BootWrites(c.read, f).None? && IsServable(now) && now.value.fingerprint != f
  }

  ghost predicate NoPutHidesDrift(s: State, events: seq<Event>, done: seq<Op>)
    decreases |events|
  {
    events == [] ||
    ((events[0].Put? && IsPending(s, events[0].call) ==> !HidesDrift(s.calls[events[0].call], s.record, done))
     && NoPutHidesDrift(Step(s, events[0]), events[1..], done + Completed(s, events[0])))
  }

  ghost predicate AlwaysServesLastSeen(s: State, events: seq<Event>, done: seq<Op>)
    decreases |events|
  {
    && ServesLastSeen(s.record, done)
    && (events != [] ==> AlwaysServesLastSeen(Step(s, events[0]), events[1..], done + Completed(s, events[0])))
  }

  lemma {:induction false} PutServesLastSeenIff(s: State, k: nat, done: seq<Op>)
    requires Inv(s) && IsPending(s, k) && ServesLastSeen(s.record, done)
    ensures ServesLastSeen(Step(s, Put(k)).record, done + [s.calls[k].op]) <==> !HidesDrift(s.calls[k], s.record, done)
  {
    assert IsConsistent(s.calls[k].read);
    HistorySnoc(done, s.calls[k].op);
  }

  /** In an interleaving only the configuration last seen is ever served if and only if no put hides drift. */
  lemma {:induction false} ServesLastSeenIff(s: State, events: seq<Event>, done: seq<Op>)
    requires Inv(s) && ServesLastSeen(s.record, done)
    ensures AlwaysServesLastSeen(s, events, done) <==> NoPutHidesDrift(s, events, done)
    decreases |events|
  {
    if events != [] {
      var e := events[0];
      var s1, done1 := Step(s, e), done + Completed(s, e);
      StepKeepsInv(s, e);
      if e.Put? && IsPending(s, e.call) {
        PutServesLastSeenIff(s, e.call, done);
      } else {
        assert done1 == done;
      }
      if ServesLastSeen(s1.record, done1) {
        ServesLastSeenIff(s1, events[1..], done1);
      }
    }
  }

  /** An approval that read before a drifting boot wrote: the agent serves a configuration nobody approved. */
  function LateApproval(seen: Text, drifted: Text): seq<Event> {
    [Get(Boot(seen)), Put(0), Get(Approve), Get(Boot(drifted)), Put(2), Put(1)]
  }

  lemma {:induction false} LostUpdateHidesDrift(seen: Text, drifted: Text)
    requires seen != drifted
    ensures var r := RunFrom(EMPTY, LateApproval(seen, drifted)).record;
            IsServable(r) && r.value.fingerprint == seen
    ensures PutOrder(EMPTY, LateApproval(seen, drifted)) == [Boot(seen), Boot(drifted), Approve]
  {
    var es := LateApproval(seen, drifted);
    var s1 := Step(EMPTY, es[0]);
    var s2 := Step(s1, es[1]);
    var s3 := Step(s2, es[2]);
    var s4 := Step(s3, es[3]);
    var s5 := Step(s4, es[4]);
    assert s2.record == Some(Record(Pending, seen, None)) && s4.calls[1].read == s2.record == s4.calls[2].read;
    assert s5.record == Some(Record(Pending, drifted, None));
    SixSteps(es, s1, s2, s3, s4, s5);
  }

  // ----- the program -----

  /** The registry's slice of the journal, by agent name; each method is one call that nobody interrupts. */
  class Registry {
    var records: map<Text, Record>

    constructor ()
      ensures records == map[]
    {
      records := map[];
    }

    function Lookup(name: Text): Option<Record>
      reads this
    {
      if name in records then Some(records[name]) else None
    }

    method RecordAgent(name: Text, fingerprint: Text) returns (rec: Record)
      modifies this
      ensures Some(rec) == After(old(Lookup(name)), Boot(fingerprint))
      ensures records == old(records)[name := rec]
    {
      if name !in records {
        rec := Record(Pending, fingerprint, None);
        records := records[name := rec];
        return;
      }
      var existing := records[name];
      if existing.status.Approved? && existing.approvedFingerprint != Some(fingerprint) {
        rec := existing.(status := Changed, fingerprint := fingerprint);
        records := records[name := rec];
        return;
      }
      if existing.fingerprint != fingerprint {
        rec := existing.(fingerprint := fingerprint);
        records := records[name := rec];
        return;
      }
      rec := existing;
    }

    method ApproveAgent(name: Text) returns (rec: Record)
      modifies this
      ensures Some(rec) == After(old(Lookup(name)), Approve)
      ensures records == old(records)[name := rec]
    {
      var base := if name in records then records[name] else Record(Pending, [], None);
      rec := base.(status := Approved, approvedFingerprint := Some(base.fingerprint));
      records := records[name := rec];
    }

    method BlockAgent(name: Text) returns (rec: Record)
      modifies this
      ensures Some(rec) == After(old(Lookup(name)), Block)
      ensures records == old(records)[name := rec]
    {
      var base := if name in records then records[name] else Record(Pending, [], None);
      rec := base.(status := Blocked);
      records := records[name := rec];
    }

    method IsAgentServable(name: Text) returns (servable: bool)
      ensures servable <==> IsServable(Lookup(name))
    {
      servable := name in records && records[name].status.Approved?;
    }
  }
}
