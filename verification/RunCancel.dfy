/**
 * Durable cancellation (packages/durable/src/cancel.ts) together with the outcome record it races for
 * (packages/durable/src/outcome.ts), on a journal with `putIfAbsent` and `putIfMatch`.
 *
 * Every journal access is one step; an event list is one interleaving of cancels, run entries and
 * outcome writers of one run. `hasNow` says whether the journal has a clock of its own.
 */
module RunCancel {
  import opened Common

  datatype Status = Running | Completed | Failed | Canceled

  datatype Outcome = Outcome(status: Status, at: int)

  /** A cancel call between its journal accesses. */
  datatype Cancel = Cancel(at: int, claimed: bool, done: bool)

  /**
   * A call of `recordRunOutcome`, with the cancel it comes from if there is one; `read` is what its last
   * get saw, once it has decided to go on.
   */
  datatype Writer = Writer(next: Outcome, origin: Option<nat>, fillOnly: bool, notAfterTerminal: bool,
                           attempts: nat, read: Option<Option<Outcome>>, done: bool)

  datatype Observation =
    | FlagSet(at: int)
    | FlagRead(cancel: nat, at: int, clock: int)
    | EntryAdmitted
    | EntryRefused
    | Recorded(verdict: Outcome, origin: Option<nat>)

  /** `flag` is the cancel record's time; `verdicts` are all outcome records ever written, the last one standing. */
  datatype State = State(flag: Option<int>, verdicts: seq<Outcome>, cancels: seq<Cancel>, writers: seq<Writer>, log: seq<Observation>)

  const INITIAL := State(None, [], [], [], [])

  function Standing(s: State): Option<Outcome> {
    if s.verdicts == [] then None else Some(s.verdicts[|s.verdicts| - 1])
  }

  datatype Event =
    | BeginCancel(at: int)
    | ClaimFlag(cancel: nat)
    | ReadFlag(cancel: nat, clock: int)
    | BeginRecord(next: Outcome, fillOnly: bool, clock: int)
    | Read(writer: nat)
    | Swap(writer: nat)
    | GiveUp(writer: nat)
    | EnterRun

  /** Whether `recordRunOutcome` goes on to write after reading `cur`. */
  predicate Proceeds(cur: Option<Outcome>, w: Writer) {
    cur.None? ||
    (&& !w.fillOnly
     && !(w.notAfterTerminal && !cur.value.status.Running?)
     && cur.value.at <= w.next.at
     && !(cur.value.status.Canceled? && w.next.status.Running?)
     && !(cur.value.at == w.next.at && w.next.status.Running? && !cur.value.status.Running?))
  }

  function WithCancel(s: State, k: nat, c: Cancel): State
    requires k < |s.cancels|
  {
    s.(cancels := s.cancels[k := c])
  }

  function WithWriter(s: State, k: nat, w: Writer): State
    requires k < |s.writers|
  {
    s.(writers := s.writers[k := w])
  }

  /** `putIfAbsent` of the flag: the first cancel wins. */
  function ClaimStep(s: State, k: nat): State
    requires k < |s.cancels|
  {
    var c := s.cancels[k];
    if c.claimed then s
    else if s.flag.Some? then WithCancel(s, k, c.(claimed := true))
    else WithCancel(s, k, c.(claimed := true)).(flag := Some(c.at), log := s.log + [FlagSet(c.at)])
  }

  /** Read the flag back and start `runCanceled` with its time, or with the journal's own clock if it has one. */
  function ReadFlagStep(s: State, k: nat, clock: int, hasNow: bool): State
    requires k < |s.cancels|
  {
    var c := s.cancels[k];
    if !c.claimed || c.done then s
    else
      var decided := if s.flag.Some? then s.flag.value else c.at;
      WithCancel(s, k, c.(done := true)).(
        log := s.log + [FlagRead(k, decided, clock)],
        writers := s.writers + [Writer(Outcome(Canceled, if hasNow then clock else decided), Some(k), false, true, 0, None, false)])
  }

  function ReadStep(s: State, k: nat): State
    requires k < |s.writers|
  {
    var w := s.writers[k];
    if w.done || w.read.Some? then s
    else if w.attempts >= 3 || !Proceeds(Standing(s), w) then WithWriter(s, k, w.(done := true))
    else WithWriter(s, k, w.(read := Some(Standing(s))))
  }

  /** `putIfMatch` or `putIfAbsent`: write only if what was read still stands. */
  function SwapStep(s: State, k: nat): State
    requires k < |s.writers|
  {
    var w := s.writers[k];
    if w.done || w.read.None? then s
    else if Standing(s) == w.read.value then
      WithWriter(s, k, w.(done := true)).(verdicts := s.verdicts + [w.next], log := s.log + [Recorded(w.next, w.origin)])
    else WithWriter(s, k, w.(read := None, attempts := w.attempts + 1))
  }

  function Step(s: State, e: Event, hasNow: bool): State {
    match e
    case BeginCancel(at) => s.(cancels := s.cancels + [Cancel(at, false, false)])
    case ClaimFlag(k) => if k < |s.cancels| then ClaimStep(s, k) else s
    case ReadFlag(k, clock) => if k < |s.cancels| then ReadFlagStep(s, k, clock, hasNow) else s
    case BeginRecord(next, fillOnly, clock) =>
      if next.status.Canceled? then s
      else s.(writers := s.writers + [Writer(if hasNow then next.(at := clock) else next, None, fillOnly, false, 0, None, false)])
    case Read(k) => if k < |s.writers| then ReadStep(s, k) else s
    case Swap(k) => if k < |s.writers| then SwapStep(s, k) else s
    case GiveUp(k) => if k < |s.writers| then WithWriter(s, k, s.writers[k].(done := true)) else s
    case EnterRun => s.(log := s.log + [if s.flag.Some? then EntryRefused else EntryAdmitted])
  }

  function RunFrom(s: State, events: seq<Event>, hasNow: bool): State
    decreases |events|
  {
    if events == [] then s else RunFrom(Step(s, events[0], hasNow), events[1..], hasNow)
  }

  // ----- what may follow what in the outcome record -----

  /** A verdict may only be replaced by one that is not older; a start never buries a cancel; only a running run is canceled. */
  predicate MayReplace(before: Outcome, after: Outcome) {
    && before.at <= after.at
    && !(before.status.Canceled? && after.status.Running?)
    && (after.status.Canceled? ==> before.status.Running?)
    && (after.status.Running? && !before.status.Running? ==> before.at < after.at)
  }

  ghost predicate IsLegalRecord(verdicts: seq<Outcome>) {
    forall i :: 0 <= i < |verdicts| - 1 ==> MayReplace(verdicts[i], verdicts[i + 1])
  }

  // ----- invariant -----

  /**
   * Before position `j` of the log the flag was set at `i` and read back at `k` by cancel `origin`, which
   * gave `at` to its verdict: the flag's time, or the clock it read if the journal has one.
   */
  ghost predicate Decides(log: seq<Observation>, i: nat, k: nat, j: nat, at: int, origin: nat, hasNow: bool)
    requires j <= |log|
  {
    && i < k < j && log[i].FlagSet? && log[k].FlagRead? && log[k].cancel == origin && log[k].at == log[i].at
    && at == if hasNow then log[k].clock else log[i].at
  }

  ghost predicate IsDecided(log: seq<Observation>, j: nat, o: Outcome, origin: Option<nat>, hasNow: bool)
    requires j <= |log|
  {
    o.status.Canceled? ==> origin.Some? && exists i: nat, k: nat :: Decides(log, i, k, j, o.at, origin.value, hasNow)
  }

  ghost predicate WriterInv(log: seq<Observation>, w: Writer, hasNow: bool) {
    && IsDecided(log, |log|, w.next, w.origin, hasNow)
    && (w.next.status.Canceled? ==> w.notAfterTerminal)
    && (w.read.Some? ==> Proceeds(w.read.value, w))
  }

  ghost predicate LogInv(flag: Option<int>, log: seq<Observation>, hasNow: bool) {
    && (forall i :: 0 <= i < |log| && log[i].FlagSet? ==> flag == Some(log[i].at))
    && (flag.Some? ==> exists i :: 0 <= i < |log| && log[i] == FlagSet(flag.value))
    && (forall i, j :: 0 <= i < j < |log| && log[i].FlagSet? ==> !log[j].EntryAdmitted? && !log[j].FlagSet?)
    && (forall j :: 0 <= j < |log| && log[j].EntryRefused? ==> exists i :: 0 <= i < j && log[i].FlagSet?)
    && (forall j :: 0 <= j < |log| && log[j].Recorded? ==> IsDecided(log, j, log[j].verdict, log[j].origin, hasNow))
  }

  ghost predicate Inv(s: State, hasNow: bool) {
    && LogInv(s.flag, s.log, hasNow)
    && (forall k :: 0 <= k < |s.cancels| && s.cancels[k].claimed ==> s.flag.Some?)
    && (forall k :: 0 <= k < |s.writers| ==> WriterInv(s.log, s.writers[k], hasNow))
    && IsLegalRecord(s.verdicts)
  }

  lemma {:induction false} DecisionStands(log: seq<Observation>, o: Observation, j: nat, verdict: Outcome, origin: Option<nat>, hasNow: bool)
    requires j <= |log| && IsDecided(log, j, verdict, origin, hasNow)
    ensures IsDecided(log + [o], j, verdict, origin, hasNow) && IsDecided(log + [o], |log + [o]|, verdict, origin, hasNow)
  {
    var all := log + [o];
    if verdict.status.Canceled? {
      var i: nat, k: nat :| Decides(log, i, k, j, verdict.at, origin.value, hasNow);
      assert all[i] == log[i] && all[k] == log[k];
      assert Decides(all, i, k, j, verdict.at, origin.value, hasNow) && Decides(all, i, k, |all|, verdict.at, origin.value, hasNow);
    }
  }

  lemma {:induction false} LogSnoc(flag: Option<int>, log: seq<Observation>, o: Observation, hasNow: bool)
    requires LogInv(flag, log, hasNow)
    requires o.FlagSet? ==> flag.None?
    requires o.EntryAdmitted? ==> flag.None?
    requires o.EntryRefused? ==> flag.Some?
    requires o.Recorded? ==> IsDecided(log, |log|, o.verdict, o.origin, hasNow)
    ensures LogInv(if o.FlagSet? then Some(o.at) else flag, log + [o], hasNow)
  {
    var all := log + [o];
    if flag.Some? {
      var i :| 0 <= i < |log| && log[i] == FlagSet(flag.value);
      assert all[i] == log[i];
    } else if o.FlagSet? {
      assert all[|log|] == FlagSet(o.at);
    }
    forall j | 0 <= j < |all| && all[j].EntryRefused? ensures exists i :: 0 <= i < j && all[i].FlagSet? {
      if j < |log| {
        var i :| 0 <= i < j && log[i].FlagSet?;
        assert all[i].FlagSet?;
      } else {
        var i :| 0 <= i < |log| && log[i] == FlagSet(flag.value);
        assert all[i].FlagSet?;
      }
    }
    forall j | 0 <= j < |all| && all[j].Recorded? ensures IsDecided(all, j, all[j].verdict, all[j].origin, hasNow) {
      DecisionStands(log, o, j, all[j].verdict, all[j].origin, hasNow);
    }
  }

  lemma {:induction false} WritersStand(log: seq<Observation>, o: Observation, writers: seq<Writer>, hasNow: bool)
    requires forall k :: 0 <= k < |writers| ==> WriterInv(log, writers[k], hasNow)
    ensures forall k :: 0 <= k < |writers| ==> WriterInv(log + [o], writers[k], hasNow)
  {
    forall k | 0 <= k < |writers| ensures WriterInv(log + [o], writers[k], hasNow) {
      DecisionStands(log, o, |log|, writers[k].next, writers[k].origin, hasNow);
    }
  }

  lemma {:induction false} ClaimKeepsInv(s: State, k: nat, hasNow: bool)
    requires Inv(s, hasNow) && k < |s.cancels|
    ensures Inv(ClaimStep(s, k), hasNow)
  {
    if s.flag.None? {
      LogSnoc(s.flag, s.log, FlagSet(s.cancels[k].at), hasNow);
      WritersStand(s.log, FlagSet(s.cancels[k].at), s.writers, hasNow);
    }
  }

  lemma {:induction false} FlagReadDecides(flag: int, log: seq<Observation>, cancel: nat, clock: int, hasNow: bool)
    requires LogInv(Some(flag), log, hasNow)
    ensures var all := log + [FlagRead(cancel, flag, clock)];
            IsDecided(all, |all|, Outcome(Canceled, if hasNow then clock else flag), Some(cancel), hasNow)
  {
    var all := log + [FlagRead(cancel, flag, clock)];
    var i :| 0 <= i < |log| && log[i] == FlagSet(flag);
    assert all[i] == log[i];
    assert Decides(all, i, |log|, |all|, if hasNow then clock else flag, cancel, hasNow);
  }

  lemma {:induction false} ReadFlagKeepsInv(s: State, k: nat, clock: int, hasNow: bool)
    requires Inv(s, hasNow) && k < |s.cancels|
    ensures Inv(ReadFlagStep(s, k, clock, hasNow), hasNow)
  {
    if s.cancels[k].claimed && !s.cancels[k].done {
      var o := FlagRead(k, s.flag.value, clock);
      LogSnoc(s.flag, s.log, o, hasNow);
      WritersStand(s.log, o, s.writers, hasNow);
      FlagReadDecides(s.flag.value, s.log, k, clock, hasNow);
    }
  }

  lemma {:induction false} ReadKeepsInv(s: State, k: nat, hasNow: bool)
    requires Inv(s, hasNow) && k < |s.writers|
    ensures Inv(ReadStep(s, k), hasNow)
  {
    assert WriterInv(s.log, s.writers[k], hasNow);
  }

  lemma {:induction false} SwapKeepsInv(s: State, k: nat, hasNow: bool)
    requires Inv(s, hasNow) && k < |s.writers|
    ensures Inv(SwapStep(s, k), hasNow)
  {
    var t := SwapStep(s, k);
    var o := Recorded(s.writers[k].next, s.writers[k].origin);
    assert WriterInv(s.log, s.writers[k], hasNow);
    LogSnoc(s.flag, s.log, o, hasNow);
    WritersStand(s.log, o, s.writers, hasNow);
    forall i | 0 <= i < |t.verdicts| - 1 ensures MayReplace(t.verdicts[i], t.verdicts[i + 1]) {
      if i + 1 < |s.verdicts| {
        assert MayReplace(s.verdicts[i], s.verdicts[i + 1]);
      }
    }
  }

  lemma {:induction false} EnterKeepsInv(s: State, hasNow: bool)
    requires Inv(s, hasNow)
    ensures Inv(Step(s, EnterRun, hasNow), hasNow)
  {
    var o := if s.flag.Some? then EntryRefused else EntryAdmitted;
    LogSnoc(s.flag, s.log, o, hasNow);
    WritersStand(s.log, o, s.writers, hasNow);
  }

  lemma {:induction false} StepKeepsInv(s: State, e: Event, hasNow: bool)
    requires Inv(s, hasNow)
    ensures Inv(Step(s, e, hasNow), hasNow)
  {
    match e {
      case ClaimFlag(k) => if k < |s.cancels| { ClaimKeepsInv(s, k, hasNow); }
      case ReadFlag(k, clock) => if k < |s.cancels| { ReadFlagKeepsInv(s, k, clock, hasNow); }
      case Read(k) => if k < |s.writers| { ReadKeepsInv(s, k, hasNow); }
      case Swap(k) => if k < |s.writers| { SwapKeepsInv(s, k, hasNow); }
      case GiveUp(k) => if k < |s.writers| { assert WriterInv(s.log, s.writers[k], hasNow); }
      case EnterRun => EnterKeepsInv(s, hasNow);
      case BeginCancel(_) =>
      case BeginRecord(_, _, _) =>
    }
  }

  lemma {:induction false} RunKeepsInv(s: State, events: seq<Event>, hasNow: bool)
    requires Inv(s, hasNow)
    ensures Inv(RunFrom(s, events, hasNow), hasNow)
    decreases |events|
  {
    if events != [] {
      StepKeepsInv(s, events[0], hasNow);
      RunKeepsInv(Step(s, events[0], hasNow), events[1..], hasNow);
    }
  }

  // ----- theorems over every interleaving -----

  /** The flag never changes once set. */
  lemma {:induction false} FirstCancelWins(s: State, events: seq<Event>, hasNow: bool)
    requires s.flag.Some?
    ensures RunFrom(s, events, hasNow).flag == s.flag
    decreases |events|
  {
    if events != [] {
      FirstCancelWins(Step(s, events[0], hasNow), events[1..], hasNow);
    }
  }

  /** In every interleaving an entry check admits exactly until the first claim, and refuses from then on. */
  lemma {:induction false} EntryIsAdmittedIff(events: seq<Event>, hasNow: bool, j: nat)
    requires var log := RunFrom(INITIAL, events, hasNow).log;
             j < |log| && (log[j].EntryAdmitted? || log[j].EntryRefused?)
    ensures var log := RunFrom(INITIAL, events, hasNow).log;
            log[j].EntryAdmitted? <==> forall i :: 0 <= i < j ==> !log[i].FlagSet?
  {
    RunKeepsInv(INITIAL, events, hasNow);
    var log := RunFrom(INITIAL, events, hasNow).log;
    if log[j].EntryRefused? {
      var i :| 0 <= i < j && log[i].FlagSet?;
    }
  }

  /** Nobody enters a run after the first claim. */
  lemma {:induction false} NoEntryAfterCancel(events: seq<Event>, hasNow: bool, i: nat, j: nat)
    requires var log := RunFrom(INITIAL, events, hasNow).log;
             i < j < |log| && log[i].FlagSet?
    ensures var log := RunFrom(INITIAL, events, hasNow).log;
            !log[j].EntryAdmitted? && !log[j].FlagSet?
  {
    RunKeepsInv(INITIAL, events, hasNow);
  }

  /**
   * Over every interleaving: a canceled verdict is written only after the flag was set and the
   * cancel that writes it read it back. It carries the first cancel's time on a journal without a clock, and on one with a
   * clock what that cancel read there.
   */
  lemma {:induction false} CanceledVerdictFollowsTheFlag(events: seq<Event>, hasNow: bool, j: nat)
    requires var log := RunFrom(INITIAL, events, hasNow).log;
             j < |log| && log[j].Recorded? && log[j].verdict.status.Canceled?
    ensures var s := RunFrom(INITIAL, events, hasNow);
            s.log[j].origin.Some? &&
            exists i: nat, k: nat :: Decides(s.log, i, k, j, s.log[j].verdict.at, s.log[j].origin.value, hasNow) && s.flag == Some(s.log[i].at)
  {
    RunKeepsInv(INITIAL, events, hasNow);
    var log := RunFrom(INITIAL, events, hasNow).log;
    assert IsDecided(log, j, log[j].verdict, log[j].origin, hasNow);
  }

  /**
   * The promise that the outcome carries the original decision's moment: `recordRunOutcome` overwrites
   * it with the journal's clock. So over every interleaving a canceled verdict keeps the promise if and
   * only if the journal has no clock or the cancel that wrote it read just that moment there.
   */
  lemma {:induction false} JournalClockReplacesTheMoment(events: seq<Event>, hasNow: bool, j: nat) returns (k: nat)
    requires var log := RunFrom(INITIAL, events, hasNow).log;
             j < |log| && log[j].Recorded? && log[j].verdict.status.Canceled?
    ensures var s := RunFrom(INITIAL, events, hasNow);
            && k < j && s.log[k].FlagRead? && s.flag == Some(s.log[k].at) && s.log[j].origin == Some(s.log[k].cancel)
            && (s.log[j].verdict.at == s.flag.value <==> !hasNow || s.log[k].clock == s.flag.value)
  {
    CanceledVerdictFollowsTheFlag(events, hasNow, j);
    var s := RunFrom(INITIAL, events, hasNow);
    var i: nat, m: nat :| Decides(s.log, i, m, j, s.log[j].verdict.at, s.log[j].origin.value, hasNow) && s.flag == Some(s.log[i].at);
    k := m;
  }

  /** Whatever races, the record moves forward: verdicts in time order, no start over a cancel, no cancel over an ending. */
  lemma {:induction false} VerdictsMoveForward(events: seq<Event>, hasNow: bool, i: nat, j: nat)
    requires i < j < |RunFrom(INITIAL, events, hasNow).verdicts|
    ensures var v := RunFrom(INITIAL, events, hasNow).verdicts;
            && v[i].at <= v[j].at
            && (v[j].status.Canceled? ==> v[j - 1].status.Running?)
            && (v[i].status.Canceled? ==> !v[i + 1].status.Running? && !v[i + 1].status.Canceled?)
  {
    RunKeepsInv(INITIAL, events, hasNow);
    var v := RunFrom(INITIAL, events, hasNow).verdicts;
    LegalIsMonotone(v, i, j);
    assert MayReplace(v[j - 1], v[j - 1 + 1]);
    assert MayReplace(v[i], v[i + 1]);
  }

  lemma {:induction false} LegalIsMonotone(v: seq<Outcome>, i: nat, j: nat)
    requires IsLegalRecord(v) && i <= j < |v|
    ensures v[i].at <= v[j].at
    decreases j
  {
    if i < j {
      LegalIsMonotone(v, i, j - 1);
      assert MayReplace(v[j - 1], v[j - 1 + 1]);
    }
  }

  /** A writer may put its verdict: nothing stands, or what stands may be replaced by it and it does not only fill in. */
  predicate MayRecord(cur: Option<Outcome>, w: Writer) {
    cur.None? || (!w.fillOnly && (w.notAfterTerminal ==> cur.value.status.Running?) && MayReplaceAnyEnding(cur.value, w.next))
  }

  /** Later verdicts replace earlier ones; a start needs to be strictly later than an ending and never replaces a cancel. */
  predicate MayReplaceAnyEnding(before: Outcome, after: Outcome) {
    && before.at <= after.at
    && (after.status.Running? && !before.status.Running? ==> before.at < after.at && !before.status.Canceled?)
  }

  /**
   * A call of `recordRunOutcome` that has attempts left and that nobody interrupts puts its verdict if and
   * only if it may, and otherwise leaves what stands.
   */
  lemma {:induction false} LoneRecordIff(s: State, k: nat, hasNow: bool)
    requires k < |s.writers| && !s.writers[k].done && s.writers[k].read.None? && s.writers[k].attempts < 3
    ensures var w := s.writers[k];
            var t := Step(Step(s, Read(k), hasNow), Swap(k), hasNow);
            && t.verdicts == s.verdicts + (if MayRecord(Standing(s), w) then [w.next] else [])
            && t.writers[k].done
  {}

  /** A put that fails because the record changed is tried again, up to three times. */
  lemma {:induction false} LostSwapTriesAgain(s: State, k: nat, hasNow: bool)
    requires k < |s.writers| && !s.writers[k].done && s.writers[k].read.Some? && s.writers[k].read.value != Standing(s)
    ensures var t := Step(s, Swap(k), hasNow);
            && t.verdicts == s.verdicts && !t.writers[k].done && t.writers[k].read.None?
            && t.writers[k].attempts == s.writers[k].attempts + 1
  {}

  /** A verdict that is not a cancel, stamped with the journal's clock if it has one, and recorded undisturbed. */
  lemma {:induction false} UndisturbedVerdictStandsIff(s: State, next: Outcome, fillOnly: bool, clock: int, hasNow: bool)
    requires !next.status.Canceled?
    ensures var k := |s.writers|;
            var t := Step(Step(Step(s, BeginRecord(next, fillOnly, clock), hasNow), Read(k), hasNow), Swap(k), hasNow);
            var stamped := Outcome(next.status, if hasNow then clock else next.at);
            t.verdicts == s.verdicts
                          + if Standing(s).None? || (!fillOnly && MayReplaceAnyEnding(Standing(s).value, stamped)) then [stamped] else []
  {
    var s1 := Step(s, BeginRecord(next, fillOnly, clock), hasNow);
    LoneRecordIff(s1, |s.writers|, hasNow);
    assert Standing(s1) == Standing(s);
  }

  /** One cancel, start to end, with the journal's clock reading `clock`. */
  function LoneCancel(at: int, clock: int): seq<Event> {
    [BeginCancel(at), ClaimFlag(0), ReadFlag(0, clock), Read(0), Swap(0)]
  }

  /** A single cancel on a journal with a clock: the verdict carries whatever the clock said. */
  lemma {:induction false} LoneCancelIsRestamped(at: int, clock: int, hasNow: bool)
    ensures var s := RunFrom(INITIAL, LoneCancel(at, clock), hasNow);
            s.flag == Some(at) && s.verdicts == [Outcome(Canceled, if hasNow then clock else at)]
  {
    var es := LoneCancel(at, clock);
    var s1 := Step(INITIAL, es[0], hasNow);
    var s2 := Step(s1, es[1], hasNow);
    var s3 := Step(s2, es[2], hasNow);
    var s4 := Step(s3, es[3], hasNow);
    OneMore(INITIAL, es, 0, hasNow);
    OneMore(s1, es, 1, hasNow);
    OneMore(s2, es, 2, hasNow);
    OneMore(s3, es, 3, hasNow);
    OneMore(s4, es, 4, hasNow);
    assert es[0..] == es && es[5..] == [];
  }

  lemma {:induction false} OneMore(s: State, es: seq<Event>, n: nat, hasNow: bool)
    requires n < |es|
    ensures RunFrom(s, es[n..], hasNow) == RunFrom(Step(s, es[n], hasNow), es[n + 1..], hasNow)
  {
    assert es[n..][1..] == es[n + 1..];
  }
}
