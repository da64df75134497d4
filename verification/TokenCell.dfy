/**
 * The bearer token cell of `GnlClient` (packages/client/src/index.ts): single-flight refresh,
 * generation counter and one retry after a 401.
 *
 * Every stretch of code between two `await`s is one atomic step; an event list is one interleaving
 * of requests, refresh settlements and `clearToken` calls. `getToken`, the network and the clock are
 * inputs of the events. The log records what an outside observer could see.
 */
module TokenCell {
  import opened Common

  type RefreshId = nat
  type RequestId = nat

  /** `null` or a string; the empty string is falsy in JavaScript. */
  datatype Token = NoToken | Bearer(text: Text)

  predicate Truthy(t: Token) {
    t.Bearer? && t.text != []
  }

  datatype Settlement = Pending | Resolved(token: Token) | Rejected

  /** One call of `getToken`: the generation it began in and how its promise stands. */
  datatype Refresh = Refresh(generation: nat, settlement: Settlement)

  /** `exp` is `None` for Infinity; `from` says which `getToken` call produced the token. */
  datatype Held = Held(token: Token, exp: Option<int>, from: RefreshId)

  // ----- the cell: held, refreshing, tokenGeneration and the promises made so far -----

  datatype Cell = Cell(held: Option<Held>, refreshing: Option<RefreshId>, generation: nat, refreshes: seq<Refresh>)

  predicate IsSettled(c: Cell, id: RefreshId) {
    id < |c.refreshes| && !c.refreshes[id].settlement.Pending?
  }

  function Cleared(c: Cell): Cell {
    c.(held := None, refreshing := None, generation := c.generation + 1)
  }

  /**
   * `refresh()` with an empty slot. If `getToken` throws synchronously the `finally` block runs
   * before the slot is assigned, so the slot ends up holding an already rejected promise.
   */
  function Asking(c: Cell, throws: bool): Cell {
    c.(refreshing := Some(|c.refreshes|),
       refreshes := c.refreshes + [Refresh(c.generation, if throws then Rejected else Pending)])
  }

  /** The continuation of `await this.getToken()`. */
  function Settled(c: Cell, id: RefreshId, how: Settlement, exp: Option<int>): Cell
    requires id < |c.refreshes|
  {
    var r := c.refreshes[id];
    c.(refreshes := c.refreshes[id := r.(settlement := how)],
       held := if how.Resolved? && r.generation == c.generation
               then Some(Held(how.token, if Truthy(how.token) then exp else None, id)) else c.held,
       refreshing := if c.refreshing == Some(id) then None else c.refreshing)
  }

  predicate IsUsable(h: Held, now: int, skew: int) {
    h.token.NoToken? || h.exp.None? || now < h.exp.value - skew
  }

  // ----- requests -----

  datatype Phase =
    | Awaiting(id: RefreshId)
    | Ready(token: Token, from: RefreshId, minted: bool)
    | Sending(token: Token, from: RefreshId, minted: bool)
    | AwaitingRetry(id: RefreshId, sent: Token)
    | ReadyRetry(token: Token, from: RefreshId)
    | SendingRetry
    | Finished

  datatype Request = Request(began: nat, phase: Phase)

  datatype Reply = Unauthorized | Other | NetworkFailure

  datatype Observation =
    | Logout
    | Begun(who: RequestId)
    | Asked(id: RefreshId, who: RequestId)
    | Sent(who: RequestId, token: Token, from: RefreshId, minted: bool)
    | Answered(who: RequestId, reply: Reply)

  datatype State = State(cell: Cell, requests: seq<Request>, log: seq<Observation>)

  const INITIAL := State(Cell(None, None, 0, []), [], [])

  datatype Event =
    | ClearToken
    | Begin(now: int, throws: bool)
    | Settle(refresh: RefreshId, how: Settlement, exp: Option<int>)
    | Resume(request: RequestId)
    | Send(request: RequestId)
    | Receive(request: RequestId, reply: Reply, throws: bool)

  /** `refresh()` called by request `who`: join the slot if it is taken, ask otherwise. */
  function RefreshFor(s: State, who: RequestId, throws: bool): (State, RefreshId) {
    if s.cell.refreshing.Some? then (s, s.cell.refreshing.value)
    else (s.(cell := Asking(s.cell, throws), log := s.log + [Asked(|s.cell.refreshes|, who)]), |s.cell.refreshes|)
  }

  function WithPhase(s: State, r: RequestId, p: Phase): State
    requires r < |s.requests|
  {
    s.(requests := s.requests[r := s.requests[r].(phase := p)])
  }

  /** What the retry does with the token it found: only a different, truthy one is sent. */
  function RetryPhase(next: Token, from: RefreshId, sent: Token): Phase {
    if !Truthy(next) || next == sent then Finished else ReadyRetry(next, from)
  }

  /** `authedFetch` up to its first `await`, `tokenNow` included. */
  function BeginStep(s: State, now: int, throws: bool, skew: int): State {
    var r := |s.requests|;
    var s1 := s.(log := s.log + [Begun(r)]);
    var h := s.cell.held;
    if s.cell.refreshing.None? && h.Some? && IsUsable(h.value, now, skew) then
      s1.(requests := s.requests + [Request(s.cell.generation, Ready(h.value.token, h.value.from, false))])
    else
      var (s2, id) := RefreshFor(s1, r, throws);
      s2.(requests := s.requests + [Request(s.cell.generation, Awaiting(id))])
  }

  function ResumeStep(s: State, r: RequestId): State
    requires r < |s.requests|
  {
    match s.requests[r].phase
    case Awaiting(id) =>
      if !IsSettled(s.cell, id) then s
      else if s.cell.refreshes[id].settlement.Rejected? then WithPhase(s, r, Finished)
      else WithPhase(s, r, Ready(s.cell.refreshes[id].settlement.token, id, true))
    case AwaitingRetry(id, sent) =>
      if !IsSettled(s.cell, id) then s
      else if s.cell.refreshes[id].settlement.Rejected? then WithPhase(s, r, Finished)
      else WithPhase(s, r, RetryPhase(s.cell.refreshes[id].settlement.token, id, sent))
    case _ => s
  }

  function SendStep(s: State, r: RequestId): State
    requires r < |s.requests|
  {
    match s.requests[r].phase
    case Ready(t, f, minted) =>
      WithPhase(s, r, Sending(t, f, minted)).(log := s.log + [Sent(r, t, f, minted)])
    case ReadyRetry(t, f) =>
      WithPhase(s, r, SendingRetry).(log := s.log + [Sent(r, t, f, false)])
    case _ => s
  }

  /** The code after a response: done, or decide on the one retry. */
  function ReceiveStep(s: State, r: RequestId, reply: Reply, throws: bool): State
    requires r < |s.requests|
  {
    var s1 := s.(log := s.log + [Answered(r, reply)]);
    match s.requests[r].phase
    case Sending(t, _, minted) =>
      if !reply.Unauthorized? || minted then WithPhase(s1, r, Finished)
      else if s.cell.held.Some? && s.cell.held.value.token != t then
        WithPhase(s1, r, RetryPhase(s.cell.held.value.token, s.cell.held.value.from, t))
      else
        var (s2, id) := RefreshFor(s1, r, throws);
        WithPhase(s2, r, AwaitingRetry(id, t))
    case SendingRetry => WithPhase(s1, r, Finished)
    case _ => s
  }

  /** One step; an event that is not enabled changes nothing. */
  function Step(s: State, e: Event, skew: int): State {
    match e
    case ClearToken => s.(cell := Cleared(s.cell), log := s.log + [Logout])
    case Begin(now, throws) => BeginStep(s, now, throws, skew)
    case Settle(id, how, exp) =>
      if id < |s.cell.refreshes| && s.cell.refreshes[id].settlement.Pending? && !how.Pending?
      then s.(cell := Settled(s.cell, id, how, exp)) else s
    case Resume(r) => if r < |s.requests| then ResumeStep(s, r) else s
    case Send(r) => if r < |s.requests| then SendStep(s, r) else s
    case Receive(r, reply, throws) => if r < |s.requests| then ReceiveStep(s, r, reply, throws) else s
  }

  function RunFrom(s: State, events: seq<Event>, skew: int): State
    decreases |events|
  {
    if events == [] then s else RunFrom(Step(s, events[0], skew), events[1..], skew)
  }

  /** The state after one whole interleaving, from a new client. */
  function Run(events: seq<Event>, skew: int): State {
    RunFrom(INITIAL, events, skew)
  }

  // ----- invariant of the cell -----

  ghost predicate SlotInv(c: Cell) {
    && (c.held.Some? ==>
          var h := c.held.value;
          h.from < |c.refreshes| && c.refreshes[h.from] == Refresh(c.generation, Resolved(h.token)))
    && (c.refreshing.Some? ==>
          var id := c.refreshing.value;
          id < |c.refreshes| && c.refreshes[id].generation == c.generation && !c.refreshes[id].settlement.Resolved?)
  }

  ghost predicate FlightInv(c: Cell) {
    && (forall i :: 0 <= i < |c.refreshes| ==> c.refreshes[i].generation <= c.generation)
    && (forall i :: 0 <= i < |c.refreshes| && c.refreshes[i] == Refresh(c.generation, Pending) ==> c.refreshing == Some(i))
    && (forall i, j :: 0 <= i < j < |c.refreshes| && c.refreshes[i].settlement.Pending? && c.refreshes[j].settlement.Pending? ==>
          c.refreshes[i].generation != c.refreshes[j].generation)
  }

  /** Refreshes are only ever added, keep their generation, and settle once. */
  ghost predicate Extends(c: Cell, d: Cell) {
    && |c.refreshes| <= |d.refreshes|
    && c.generation <= d.generation
    && (forall i :: 0 <= i < |c.refreshes| ==>
          d.refreshes[i].generation == c.refreshes[i].generation
          && (!c.refreshes[i].settlement.Pending? ==> d.refreshes[i] == c.refreshes[i]))
  }

  ghost predicate CellInv(c: Cell) {
    SlotInv(c) && FlightInv(c)
  }

  lemma {:induction false} ClearKeepsCell(c: Cell)
    requires CellInv(c)
    ensures CellInv(Cleared(c)) && Extends(c, Cleared(c))
  {}

  lemma {:induction false} AskKeepsCell(c: Cell, throws: bool)
    requires CellInv(c) && c.refreshing.None?
    ensures CellInv(Asking(c, throws)) && Extends(c, Asking(c, throws))
  {}

  lemma {:induction false} SettleKeepsCell(c: Cell, id: RefreshId, how: Settlement, exp: Option<int>)
    requires CellInv(c) && id < |c.refreshes| && c.refreshes[id].settlement.Pending? && !how.Pending?
    ensures CellInv(Settled(c, id, how, exp)) && Extends(c, Settled(c, id, how, exp))
  {}

  lemma {:induction false} RefreshKeepsCell(s: State, who: RequestId, throws: bool)
    requires CellInv(s.cell)
    ensures var c := RefreshFor(s, who, throws).0.cell; CellInv(c) && Extends(s.cell, c)
  {
    if s.cell.refreshing.None? { AskKeepsCell(s.cell, throws); }
  }

  lemma {:induction false} BeginKeepsCell(s: State, now: int, throws: bool, skew: int)
    requires CellInv(s.cell)
    ensures var c := BeginStep(s, now, throws, skew).cell; CellInv(c) && Extends(s.cell, c)
  {
    RefreshKeepsCell(s.(log := s.log + [Begun(|s.requests|)]), |s.requests|, throws);
  }

  lemma {:induction false} ReceiveKeepsCell(s: State, r: RequestId, reply: Reply, throws: bool)
    requires CellInv(s.cell) && r < |s.requests|
    ensures var c := ReceiveStep(s, r, reply, throws).cell; CellInv(c) && Extends(s.cell, c)
  {
    RefreshKeepsCell(s.(log := s.log + [Answered(r, reply)]), r, throws);
  }

  lemma {:induction false} StepKeepsCell(s: State, e: Event, skew: int)
    requires CellInv(s.cell)
    ensures CellInv(Step(s, e, skew).cell) && Extends(s.cell, Step(s, e, skew).cell)
  {
    var c := s.cell;
    match e {
      case ClearToken => ClearKeepsCell(c);
      case Begin(now, throws) => BeginKeepsCell(s, now, throws, skew);
      case Settle(id, how, exp) =>
        if id < |c.refreshes| && c.refreshes[id].settlement.Pending? && !how.Pending? { SettleKeepsCell(c, id, how, exp); }
      case Receive(r, reply, throws) => if r < |s.requests| { ReceiveKeepsCell(s, r, reply, throws); }
      case _ =>
    }
  }

  // ----- invariant of the requests: every token in play is from the requester's session or a later one -----

  ghost predicate InSession(c: Cell, id: RefreshId, began: nat) {
    id < |c.refreshes| && began <= c.refreshes[id].generation
  }

  ghost predicate Supplied(c: Cell, id: RefreshId, t: Token, began: nat) {
    InSession(c, id, began) && c.refreshes[id].settlement == Resolved(t)
  }

  ghost predicate RequestInv(c: Cell, q: Request) {
    && q.began <= c.generation
    && match q.phase
       case Awaiting(id) => InSession(c, id, q.began)
       case Ready(t, f, _) => Supplied(c, f, t, q.began)
       case Sending(t, f, _) => Supplied(c, f, t, q.began)
       case AwaitingRetry(id, _) => InSession(c, id, q.began)
       case ReadyRetry(t, f) => Supplied(c, f, t, q.began)
       case _ => true
  }

  ghost predicate RequestsInv(s: State) {
    forall r :: 0 <= r < |s.requests| ==> RequestInv(s.cell, s.requests[r])
  }

  lemma {:induction false} ExtensionKeepsRequest(c: Cell, d: Cell, q: Request)
    requires RequestInv(c, q) && Extends(c, d)
    ensures RequestInv(d, q)
  {}

  lemma {:induction false} BeginKeepsRequests(s: State, now: int, throws: bool, skew: int)
    requires CellInv(s.cell) && RequestsInv(s)
    ensures RequestsInv(BeginStep(s, now, throws, skew))
  {
    var s' := BeginStep(s, now, throws, skew);
    if s.cell.refreshing.None? { AskKeepsCell(s.cell, throws); }
    forall r | 0 <= r < |s.requests| ensures RequestInv(s'.cell, s'.requests[r]) {
      ExtensionKeepsRequest(s.cell, s'.cell, s.requests[r]);
    }
  }

  lemma {:induction false} ReceivedRequest(s: State, r: RequestId, reply: Reply, throws: bool)
    requires CellInv(s.cell) && r < |s.requests| && RequestInv(s.cell, s.requests[r])
    ensures var s' := ReceiveStep(s, r, reply, throws);
            Extends(s.cell, s'.cell) && RequestInv(s'.cell, s'.requests[r])
  {
    if s.cell.refreshing.None? { AskKeepsCell(s.cell, throws); }
  }

  lemma {:induction false} ReceiveKeepsRequests(s: State, r: RequestId, reply: Reply, throws: bool)
    requires CellInv(s.cell) && RequestsInv(s) && r < |s.requests|
    ensures RequestsInv(ReceiveStep(s, r, reply, throws))
  {
    var s' := ReceiveStep(s, r, reply, throws);
    ReceivedRequest(s, r, reply, throws);
    forall q | 0 <= q < |s.requests| && q != r ensures RequestInv(s'.cell, s'.requests[q]) {
      ExtensionKeepsRequest(s.cell, s'.cell, s.requests[q]);
    }
  }

  lemma {:induction false} ResumedRequest(s: State, r: RequestId)
    requires RequestsInv(s) && r < |s.requests|
    ensures RequestsInv(ResumeStep(s, r)) && RequestsInv(SendStep(s, r))
  {
    assert RequestInv(s.cell, s.requests[r]);
  }

  lemma {:induction false} StepKeepsRequests(s: State, e: Event, skew: int)
    requires CellInv(s.cell) && RequestsInv(s)
    ensures RequestsInv(Step(s, e, skew))
  {
    match e {
      case Begin(now, throws) => BeginKeepsRequests(s, now, throws, skew);
      case Receive(r, reply, throws) => if r < |s.requests| { ReceiveKeepsRequests(s, r, reply, throws); }
      case Resume(r) => if r < |s.requests| { ResumedRequest(s, r); }
      case Send(r) => if r < |s.requests| { ResumedRequest(s, r); }
      case _ =>
        var s' := Step(s, e, skew);
        StepKeepsCell(s, e, skew);
        forall q | 0 <= q < |s.requests| ensures RequestInv(s'.cell, s'.requests[q]) {
          ExtensionKeepsRequest(s.cell, s'.cell, s.requests[q]);
        }
    }
  }

  // ----- invariant of the log: it dates every refresh and every request by the logouts before it -----

  function Logouts(log: seq<Observation>): nat {
    if log == [] then 0
    else Logouts(log[..|log| - 1]) + if log[|log| - 1].Logout? then 1 else 0
  }

  lemma {:induction false} LogoutsSnoc(log: seq<Observation>, o: Observation)
    ensures Logouts(log + [o]) == Logouts(log) + if o.Logout? then 1 else 0
  {
    assert (log + [o])[..|log|] == log;
  }

  lemma {:induction false} LogoutsMonotone(log: seq<Observation>, i: nat, j: nat)
    requires i <= j <= |log|
    ensures Logouts(log[..i]) <= Logouts(log[..j])
    ensures (exists c :: i <= c < j && log[c].Logout?) ==> Logouts(log[..i]) < Logouts(log[..j])
    decreases j - i
  {
    if i < j {
      LogoutsMonotone(log, i, j - 1);
      assert log[..j] == log[..j - 1] + [log[j - 1]];
      LogoutsSnoc(log[..j - 1], log[j - 1]);
    }
  }

  ghost predicate AskedBefore(log: seq<Observation>, id: RefreshId, end: nat)
    requires end <= |log|
  {
    exists k :: 0 <= k < end && log[k].Asked? && log[k].id == id
  }

  ghost predicate EntryInv(c: Cell, requests: seq<Request>, log: seq<Observation>, i: nat)
    requires i < |log|
  {
    match log[i]
    case Asked(id, _) => id < |c.refreshes| && c.refreshes[id].generation == Logouts(log[..i])
    case Begun(r) => r < |requests| && requests[r].began == Logouts(log[..i])
    case Sent(r, t, f, _) => r < |requests| && Supplied(c, f, t, requests[r].began) && AskedBefore(log, f, i)
    case _ => true
  }

  ghost predicate EntriesInv(c: Cell, requests: seq<Request>, log: seq<Observation>) {
    && c.generation == Logouts(log)
    && forall i :: 0 <= i < |log| ==> EntryInv(c, requests, log, i)
  }

  ghost predicate AllAsked(c: Cell, log: seq<Observation>) {
    forall id :: 0 <= id < |c.refreshes| ==> AskedBefore(log, id, |log|)
  }

  ghost predicate LogInv(s: State) {
    EntriesInv(s.cell, s.requests, s.log) && AllAsked(s.cell, s.log)
  }

  /** Requests are only ever added and keep the generation they began in. */
  ghost predicate Continues(a: seq<Request>, b: seq<Request>) {
    |a| <= |b| && forall r :: 0 <= r < |a| ==> b[r].began == a[r].began
  }

  lemma {:induction false} EntriesPersist(c: Cell, d: Cell, a: seq<Request>, b: seq<Request>, log: seq<Observation>)
    requires EntriesInv(c, a, log) && Extends(c, d) && Continues(a, b) && d.generation == c.generation
    ensures EntriesInv(d, b, log)
  {
    forall i | 0 <= i < |log| ensures EntryInv(d, b, log, i) {
      assert EntryInv(c, a, log, i);
    }
  }

  lemma {:induction false} EntriesSnoc(c: Cell, requests: seq<Request>, log: seq<Observation>, o: Observation)
    requires EntriesInv(c.(generation := Logouts(log)), requests, log)
    requires c.generation == Logouts(log) + if o.Logout? then 1 else 0
    requires EntryInv(c, requests, log + [o], |log|)
    ensures EntriesInv(c, requests, log + [o])
  {
    LogoutsSnoc(log, o);
    forall i | 0 <= i < |log + [o]| ensures EntryInv(c, requests, log + [o], i) {
      if i < |log| {
        assert EntryInv(c.(generation := Logouts(log)), requests, log, i);
        assert (log + [o])[..i] == log[..i];
        if log[i].Sent? {
          var k :| 0 <= k < i && log[k].Asked? && log[k].id == log[i].from;
          assert (log + [o])[k] == log[k];
        }
      }
    }
  }

  lemma {:induction false} AllAskedSnoc(c: Cell, log: seq<Observation>, o: Observation)
    requires forall id :: 0 <= id < |c.refreshes| ==> AskedBefore(log, id, |log|) || (o.Asked? && o.id == id)
    ensures AllAsked(c, log + [o])
  {
    forall id | 0 <= id < |c.refreshes| ensures AskedBefore(log + [o], id, |log + [o]|) {
      if AskedBefore(log, id, |log|) {
        var k :| 0 <= k < |log| && log[k].Asked? && log[k].id == id;
        assert (log + [o])[k].id == id;
      } else {
        assert (log + [o])[|log|].id == id;
      }
    }
  }

  lemma {:induction false} RefreshKeepsLog(s: State, who: RequestId, throws: bool)
    requires LogInv(s) && CellInv(s.cell)
    ensures LogInv(RefreshFor(s, who, throws).0)
  {
    if s.cell.refreshing.None? {
      var d := Asking(s.cell, throws);
      var o := Asked(|s.cell.refreshes|, who);
      AskKeepsCell(s.cell, throws);
      EntriesPersist(s.cell, d, s.requests, s.requests, s.log);
      assert (s.log + [o])[..|s.log|] == s.log;
      EntriesSnoc(d, s.requests, s.log, o);
      AllAskedSnoc(d, s.log, o);
    }
  }

  lemma {:induction false} PhaseKeepsLog(s: State, requests: seq<Request>)
    requires LogInv(s) && Continues(s.requests, requests)
    ensures LogInv(s.(requests := requests))
  {
    EntriesPersist(s.cell, s.cell, s.requests, requests, s.log);
  }

  lemma {:induction false} ObserveKeepsLog(s: State, o: Observation)
    requires LogInv(s) && !o.Logout?
    requires EntryInv(s.cell, s.requests, s.log + [o], |s.log|)
    ensures LogInv(s.(log := s.log + [o]))
  {
    EntriesSnoc(s.cell, s.requests, s.log, o);
    AllAskedSnoc(s.cell, s.log, o);
  }

  lemma {:induction false} SentEntry(s: State, r: RequestId, t: Token, f: RefreshId, minted: bool)
    requires LogInv(s) && r < |s.requests| && Supplied(s.cell, f, t, s.requests[r].began)
    ensures LogInv(s.(log := s.log + [Sent(r, t, f, minted)]))
  {
    var o := Sent(r, t, f, minted);
    assert AskedBefore(s.log, f, |s.log|);
    var k :| 0 <= k < |s.log| && s.log[k].Asked? && s.log[k].id == f;
    assert (s.log + [o])[k].id == f;
    ObserveKeepsLog(s, o);
  }

  lemma {:induction false} BeginKeepsLog(s: State, now: int, throws: bool, skew: int)
    requires CellInv(s.cell) && LogInv(s)
    ensures LogInv(BeginStep(s, now, throws, skew))
  {
    var s' := BeginStep(s, now, throws, skew);
    var r := |s.requests|;
    var t := s.(requests := s'.requests);
    PhaseKeepsLog(s, s'.requests);
    assert (s.log + [Begun(r)])[..|s.log|] == s.log;
    ObserveKeepsLog(t, Begun(r));
    RefreshKeepsLog(t.(log := s.log + [Begun(r)]), r, throws);
  }

  lemma {:induction false} ReceiveKeepsLog(s: State, r: RequestId, reply: Reply, throws: bool)
    requires CellInv(s.cell) && LogInv(s) && r < |s.requests|
    ensures LogInv(ReceiveStep(s, r, reply, throws))
  {
    var s' := ReceiveStep(s, r, reply, throws);
    var t := s.(requests := s'.requests);
    assert LogInv(t) by { PhaseKeepsLog(s, s'.requests); }
    var told := t.(log := s.log + [Answered(r, reply)]);
    assert LogInv(told) by { ObserveKeepsLog(t, Answered(r, reply)); }
    assert LogInv(RefreshFor(told, r, throws).0) by { RefreshKeepsLog(told, r, throws); }
    assert s' == told || s' == RefreshFor(told, r, throws).0 || s' == t;
  }

  lemma {:induction false} StepKeepsLog(s: State, e: Event, skew: int)
    requires CellInv(s.cell) && RequestsInv(s) && LogInv(s)
    ensures LogInv(Step(s, e, skew))
  {
    var s' := Step(s, e, skew);
    match e {
      case ClearToken =>
        EntriesPersist(s.cell, s'.cell.(generation := s.cell.generation), s.requests, s.requests, s.log);
        EntriesSnoc(s'.cell, s.requests, s.log, Logout);
        AllAskedSnoc(s'.cell, s.log, Logout);
      case Begin(now, throws) => BeginKeepsLog(s, now, throws, skew);
      case Settle(_, _, _) =>
        StepKeepsCell(s, e, skew);
        EntriesPersist(s.cell, s'.cell, s.requests, s.requests, s.log);
      case Resume(_) => PhaseKeepsLog(s, s'.requests);
      case Send(r) =>
        PhaseKeepsLog(s, s'.requests);
        if r < |s.requests| {
          assert RequestInv(s.cell, s.requests[r]);
          var p := s.requests[r].phase;
          var t := s.(requests := s'.requests);
          if p.Ready? { SentEntry(t, r, p.token, p.from, p.minted); }
          if p.ReadyRetry? { SentEntry(t, r, p.token, p.from, false); }
        }
      case Receive(r, reply, throws) => if r < |s.requests| { ReceiveKeepsLog(s, r, reply, throws); }
    }
  }

  // ----- what one request may do, as an automaton over its log entries -----

  datatype Stage =
    | Unborn
    | Waiting(asked: Option<RefreshId>)
    | FirstOut(token: Token, minted: bool)
    | Refused(token: Token, again: bool)
    | SecondOut
    | Over
    | Illegal

  function Advance(st: Stage, o: Observation): Stage {
    match o
    case Logout => st
    case Begun(_) => if st.Unborn? then Waiting(None) else Illegal
    case Asked(id, _) =>
      if st == Waiting(None) then Waiting(Some(id))
      else if st.Refused? && !st.again then Refused(st.token, true)
      else Illegal
    case Sent(_, t, f, minted) =>
      if st.Waiting? && (st.asked.Some? ==> minted && f == st.asked.value) then FirstOut(t, minted)
      else if st.Refused? && Truthy(t) && t != st.token then SecondOut
      else Illegal
    case Answered(_, reply) =>
      if st.FirstOut? && reply.Unauthorized? && !st.minted then Refused(st.token, false)
      else if st.FirstOut? || st.SecondOut? then Over
      else Illegal
  }

  predicate IsAbout(o: Observation, r: RequestId) {
    !o.Logout? && o.who == r
  }

  /** Where the entries of request `r` in the log have taken it. */
  function StageOf(log: seq<Observation>, r: RequestId): Stage {
    if log == [] then Unborn
    else
      var before := StageOf(log[..|log| - 1], r);
      if IsAbout(log[|log| - 1], r) then Advance(before, log[|log| - 1]) else before
  }

  lemma {:induction false} StageSnoc(log: seq<Observation>, o: Observation, r: RequestId)
    ensures StageOf(log + [o], r) == if IsAbout(o, r) then Advance(StageOf(log, r), o) else StageOf(log, r)
  {
    assert (log + [o])[..|log|] == log;
  }

  ghost predicate Fits(st: Stage, p: Phase) {
    match p
    case Awaiting(id) => st.Waiting? && (st.asked.Some? ==> st.asked.value == id)
    case Ready(_, f, minted) => st.Waiting? && (st.asked.Some? ==> minted && st.asked.value == f)
    case Sending(t, _, minted) => st == FirstOut(t, minted)
    case AwaitingRetry(_, sent) => st.Refused? && st.token == sent
    case ReadyRetry(t, _) => st.Refused? && st.token != t && Truthy(t)
    case SendingRetry => st.SecondOut?
    case Finished => !st.Illegal? && !st.Unborn?
  }

  ghost predicate HistoryOf(s: State, r: RequestId) {
    if r < |s.requests| then Fits(StageOf(s.log, r), s.requests[r].phase) else StageOf(s.log, r) == Unborn
  }

  ghost predicate HistoryInv(s: State) {
    forall r: RequestId :: HistoryOf(s, r)
  }

  lemma {:induction false} BeginKeepsHistoryOf(s: State, now: int, throws: bool, skew: int, r: RequestId)
    requires HistoryOf(s, r)
    ensures HistoryOf(BeginStep(s, now, throws, skew), r)
  {
    var q := |s.requests|;
    StageSnoc(s.log, Begun(q), r);
    StageSnoc(s.log + [Begun(q)], Asked(|s.cell.refreshes|, q), r);
  }

  lemma {:induction false} SendKeepsHistoryOf(s: State, q: RequestId, r: RequestId)
    requires q < |s.requests| && HistoryOf(s, r)
    ensures HistoryOf(SendStep(s, q), r)
  {
    var p := s.requests[q].phase;
    if p.Ready? { StageSnoc(s.log, Sent(q, p.token, p.from, p.minted), r); }
    if p.ReadyRetry? { StageSnoc(s.log, Sent(q, p.token, p.from, false), r); }
  }

  lemma {:induction false} ReceivedStage(s: State, q: RequestId, reply: Reply, throws: bool, r: RequestId)
    requires q < |s.requests|
    ensures var s', p, st := ReceiveStep(s, q, reply, throws), s.requests[q].phase, StageOf(s.log, r);
            StageOf(s'.log, r) ==
            if q != r || (!p.Sending? && !p.SendingRetry?) then st
            else if s'.cell == s.cell then Advance(st, Answered(r, reply))
            else Advance(Advance(st, Answered(r, reply)), Asked(|s.cell.refreshes|, r))
  {
    StageSnoc(s.log, Answered(q, reply), r);
    StageSnoc(s.log + [Answered(q, reply)], Asked(|s.cell.refreshes|, q), r);
  }

  lemma {:induction false} ReceiveKeepsHistoryOf(s: State, q: RequestId, reply: Reply, throws: bool, r: RequestId)
    requires q < |s.requests| && HistoryOf(s, r)
    ensures HistoryOf(ReceiveStep(s, q, reply, throws), r)
  {
    ReceivedStage(s, q, reply, throws, r);
    if q != r && r < |s.requests| {
      assert ReceiveStep(s, q, reply, throws).requests[r] == s.requests[r];
    }
  }

  lemma {:induction false} StepKeepsHistoryOf(s: State, e: Event, skew: int, r: RequestId)
    requires HistoryOf(s, r)
    ensures HistoryOf(Step(s, e, skew), r)
  {
    match e {
      case ClearToken => StageSnoc(s.log, Logout, r);
      case Begin(now, throws) => BeginKeepsHistoryOf(s, now, throws, skew, r);
      case Send(q) => if q < |s.requests| { SendKeepsHistoryOf(s, q, r); }
      case Receive(q, reply, throws) => if q < |s.requests| { ReceiveKeepsHistoryOf(s, q, reply, throws, r); }
      case _ =>
    }
  }

  // ----- theorems over every run -----

  ghost predicate Inv(s: State) {
    CellInv(s.cell) && RequestsInv(s) && LogInv(s) && HistoryInv(s)
  }

  lemma {:induction false} StepKeepsInv(s: State, e: Event, skew: int)
    requires Inv(s)
    ensures Inv(Step(s, e, skew))
  {
    var s' := Step(s, e, skew);
    StepKeepsCell(s, e, skew);
    StepKeepsRequests(s, e, skew);
    StepKeepsLog(s, e, skew);
    forall r: RequestId ensures HistoryOf(s', r) {
      StepKeepsHistoryOf(s, e, skew, r);
    }
  }

  lemma {:induction false} RunKeepsInv(s: State, events: seq<Event>, skew: int)
    requires Inv(s)
    ensures Inv(RunFrom(s, events, skew))
    decreases |events|
  {
    if events != [] {
      StepKeepsInv(s, events[0], skew);
      RunKeepsInv(Step(s, events[0], skew), events[1..], skew);
    }
  }

  lemma {:induction false} RunInv(events: seq<Event>, skew: int)
    ensures Inv(Run(events, skew))
  {
    RunKeepsInv(INITIAL, events, skew);
  }

  /** The held token was produced by a `getToken` of the current generation. */
  lemma {:induction false} HeldTokenIsCurrent(events: seq<Event>, skew: int)
    ensures var c := Run(events, skew).cell;
            c.held.Some? ==> c.held.value.from < |c.refreshes|
                             && c.refreshes[c.held.value.from] == Refresh(c.generation, Resolved(c.held.value.token))
  {
    RunInv(events, skew);
  }

  /** At most one unsettled `getToken` exists per generation, and the current one is in the slot. */
  lemma {:induction false} SingleFlight(events: seq<Event>, skew: int)
    ensures var c := Run(events, skew).cell;
            forall i, j :: 0 <= i < j < |c.refreshes| && c.refreshes[i].settlement.Pending? ==>
                             c.refreshes[j] != c.refreshes[i]
    ensures var c := Run(events, skew).cell;
            forall i :: 0 <= i < |c.refreshes| && c.refreshes[i] == Refresh(c.generation, Pending) ==> c.refreshing == Some(i)
  {
    RunInv(events, skew);
  }

  /**
   * Every token a request sends comes from a `getToken` begun after each `clearToken` that precedes
   * the request, and before the send: nobody goes out on the token of a user who left.
   */
  lemma {:induction false} NoTokenFromAnEarlierSession(events: seq<Event>, skew: int, out: nat, start: nat, logout: nat)
    requires var log := Run(events, skew).log;
             out < |log| && start < |log| && log[out].Sent? && log[start] == Begun(log[out].who)
             && logout < start && log[logout].Logout?
    ensures var log := Run(events, skew).log;
            exists k :: logout < k < out && log[k].Asked? && log[k].id == log[out].from
  {
    RunInv(events, skew);
    var s := Run(events, skew);
    var log := s.log;
    assert EntryInv(s.cell, s.requests, log, out);
    assert EntryInv(s.cell, s.requests, log, start);
    var k :| 0 <= k < out && log[k].Asked? && log[k].id == log[out].from;
    assert EntryInv(s.cell, s.requests, log, k);
    if k < logout {
      LogoutsMonotone(log, k, start);
      assert false;
    }
  }

  /** No request ever leaves the automaton. */
  lemma {:induction false} EveryRequestIsLegal(events: seq<Event>, skew: int, r: RequestId)
    ensures !StageOf(Run(events, skew).log, r).Illegal?
  {
    RunInv(events, skew);
    assert HistoryOf(Run(events, skew), r);
  }

  function AsksBy(log: seq<Observation>, r: RequestId): nat {
    if log == [] then 0
    else AsksBy(log[..|log| - 1], r) + if IsAbout(log[|log| - 1], r) && log[|log| - 1].Asked? then 1 else 0
  }

  function SendsBy(log: seq<Observation>, r: RequestId): nat {
    if log == [] then 0
    else SendsBy(log[..|log| - 1], r) + if IsAbout(log[|log| - 1], r) && log[|log| - 1].Sent? then 1 else 0
  }

  lemma {:induction false} StageCounts(log: seq<Observation>, r: RequestId)
    requires !StageOf(log, r).Illegal?
    ensures var asks, sends := AsksBy(log, r), SendsBy(log, r);
            match StageOf(log, r)
            case Unborn => asks == 0 && sends == 0
            case Waiting(asked) => asks == (if asked.Some? then 1 else 0) && sends == 0
            case FirstOut(_, minted) => asks <= (if minted then 1 else 0) && sends == 1
            case Refused(_, again) => asks == (if again then 1 else 0) && sends == 1
            case _ => asks <= 1 && sends <= 2
  {
    if log != [] {
      StageCounts(log[..|log| - 1], r);
    }
  }

  /** One request starts at most one `getToken` and is sent at most twice. */
  lemma {:induction false} OneRefreshTwoSends(events: seq<Event>, skew: int, r: RequestId)
    ensures AsksBy(Run(events, skew).log, r) <= 1
    ensures SendsBy(Run(events, skew).log, r) <= 2
  {
    EveryRequestIsLegal(events, skew, r);
    StageCounts(Run(events, skew).log, r);
  }

  /** What the stage says about the sends so far. */
  lemma {:induction false} StageSends(log: seq<Observation>, r: RequestId, i: nat)
    requires !StageOf(log, r).Illegal?
    requires i < |log| && IsAbout(log[i], r) && log[i].Sent?
    ensures match StageOf(log, r)
            case FirstOut(t, minted) => log[i].token == t && log[i].minted == minted
            case Refused(t, _) => log[i].token == t && !log[i].minted
                                  && exists j :: i < j < |log| && log[j] == Answered(r, Unauthorized)
            case SecondOut => true
            case Over => true
            case _ => false
  {
    var before := log[..|log| - 1];
    var o := log[|log| - 1];
    assert log == before + [o];
    StageSnoc(before, o, r);
    if i < |before| {
      assert before[i] == log[i];
      StageSends(before, r, i);
      if StageOf(before, r).Refused? {
        var j :| i < j < |before| && before[j] == Answered(r, Unauthorized);
        assert log[j] == before[j];
      }
    } else {
      StageCounts(before, r);
    }
  }

  /** The second send: only after a 401 on a token that was not minted for the request, with another token. */
  lemma {:induction false} SecondSendIsTheRetry(events: seq<Event>, skew: int, i: nat, k: nat)
    requires var log := Run(events, skew).log;
             i < k < |log| && log[i].Sent? && log[k].Sent? && log[i].who == log[k].who
    ensures var log := Run(events, skew).log;
            && !log[i].minted
            && Truthy(log[k].token) && log[k].token != log[i].token
            && exists j :: i < j < k && log[j] == Answered(log[i].who, Unauthorized)
  {
    var log := Run(events, skew).log;
    var r := log[i].who;
    EveryRequestIsLegal(events, skew, r);
    LegalPrefix(log, r, k + 1);
    LegalPrefix(log, r, k);
    assert log[..k + 1] == log[..k] + [log[k]];
    StageSnoc(log[..k], log[k], r);
    StageSends(log[..k], r, i);
  }

  lemma {:induction false} LegalPrefix(log: seq<Observation>, r: RequestId, n: nat)
    requires n <= |log| && !StageOf(log, r).Illegal?
    ensures !StageOf(log[..n], r).Illegal?
    decreases |log|
  {
    if n == |log| {
      assert log[..n] == log;
    } else {
      LegalPrefix(log[..|log| - 1], r, n);
      assert log[..|log| - 1][..n] == log[..n];
    }
  }

  // ----- the token of a first send -----

  function FirstSend(log: seq<Observation>, r: RequestId): Option<Observation> {
    if log == [] then None
    else
      var before := FirstSend(log[..|log| - 1], r);
      var last := log[|log| - 1];
      if before.None? && last.Sent? && last.who == r then Some(last) else before
  }

  lemma {:induction false} FirstSendSnoc(log: seq<Observation>, o: Observation, r: RequestId)
    ensures FirstSend(log + [o], r) ==
            if FirstSend(log, r).None? && o.Sent? && o.who == r then Some(o) else FirstSend(log, r)
  {
    assert (log + [o])[..|log|] == log;
  }

  lemma {:induction false} NobodySentYet(log: seq<Observation>, r: RequestId)
    requires forall i :: 0 <= i < |log| && log[i].Sent? ==> log[i].who != r
    ensures FirstSend(log, r).None?
  {
    if log != [] {
      NobodySentYet(log[..|log| - 1], r);
    }
  }

  /** The token held at time `now`: none to send, or more than `skew` away from its expiry. */
  ghost predicate WasFarFromExpiry(held: Option<Held>, t: Token, from: RefreshId, now: int, skew: int) {
    && held.Some? && held.value.token == t && held.value.from == from
    && (t.NoToken? || held.value.exp.None? || now + skew < held.value.exp.value)
  }

  /** Request `r` began at `now` when `held` was held, and a token it did not wait for is that one. */
  ghost predicate CacheInv(s: State, r: RequestId, held: Option<Held>, now: int, skew: int) {
    && r < |s.requests|
    && var sent := FirstSend(s.log, r);
       && (sent.Some? ==> sent.value.Sent?)
       && (sent.Some? && !sent.value.minted ==> WasFarFromExpiry(held, sent.value.token, sent.value.from, now, skew))
       && match s.requests[r].phase
          case Awaiting(_) => sent.None?
          case Ready(t, f, minted) => sent.None? && (!minted ==> WasFarFromExpiry(held, t, f, now, skew))
          case Finished => true
          case _ => sent.Some?
  }

  lemma {:induction false} BeginSendsNothing(s: State, now: int, throws: bool, skew: int, r: RequestId)
    ensures FirstSend(BeginStep(s, now, throws, skew).log, r) == FirstSend(s.log, r)
  {
    var q := |s.requests|;
    FirstSendSnoc(s.log, Begun(q), r);
    FirstSendSnoc(s.log + [Begun(q)], Asked(|s.cell.refreshes|, q), r);
  }

  lemma {:induction false} BeginsFromCache(s: State, now: int, throws: bool, skew: int)
    requires LogInv(s)
    ensures CacheInv(BeginStep(s, now, throws, skew), |s.requests|, s.cell.held, now, skew)
  {
    var r := |s.requests|;
    forall i | 0 <= i < |s.log| && s.log[i].Sent? ensures s.log[i].who != r {
      assert EntryInv(s.cell, s.requests, s.log, i);
    }
    NobodySentYet(s.log, r);
    BeginSendsNothing(s, now, throws, skew, r);
  }

  lemma {:induction false} SendKeepsCache(s: State, q: RequestId, r: RequestId, held: Option<Held>, now: int, skew: int)
    requires q < |s.requests| && CacheInv(s, r, held, now, skew)
    ensures CacheInv(SendStep(s, q), r, held, now, skew)
  {
    var p := s.requests[q].phase;
    if p.Ready? { FirstSendSnoc(s.log, Sent(q, p.token, p.from, p.minted), r); }
    if p.ReadyRetry? { FirstSendSnoc(s.log, Sent(q, p.token, p.from, false), r); }
  }

  lemma {:induction false} ReceiveKeepsCache(s: State, q: RequestId, reply: Reply, throws: bool,
                                             r: RequestId, held: Option<Held>, now: int, skew: int)
    requires q < |s.requests| && CacheInv(s, r, held, now, skew)
    ensures CacheInv(ReceiveStep(s, q, reply, throws), r, held, now, skew)
  {
    FirstSendSnoc(s.log, Answered(q, reply), r);
    FirstSendSnoc(s.log + [Answered(q, reply)], Asked(|s.cell.refreshes|, q), r);
  }

  lemma {:induction false} BeginKeepsCache(s: State, later: int, throws: bool,
                                           r: RequestId, held: Option<Held>, now: int, skew: int)
    requires CacheInv(s, r, held, now, skew)
    ensures CacheInv(BeginStep(s, later, throws, skew), r, held, now, skew)
  {
    BeginSendsNothing(s, later, throws, skew, r);
    assert BeginStep(s, later, throws, skew).requests[r] == s.requests[r];
  }

  lemma {:induction false} StepKeepsCache(s: State, e: Event, r: RequestId, held: Option<Held>, now: int, skew: int)
    requires CacheInv(s, r, held, now, skew)
    ensures CacheInv(Step(s, e, skew), r, held, now, skew)
  {
    match e {
      case ClearToken => FirstSendSnoc(s.log, Logout, r);
      case Begin(later, throws) => BeginKeepsCache(s, later, throws, r, held, now, skew);
      case Send(q) => if q < |s.requests| { SendKeepsCache(s, q, r, held, now, skew); }
      case Receive(q, reply, throws) => if q < |s.requests| { ReceiveKeepsCache(s, q, reply, throws, r, held, now, skew); }
      case _ =>
    }
  }

  lemma {:induction false} RunKeepsCache(s: State, events: seq<Event>, r: RequestId, held: Option<Held>, now: int, skew: int)
    requires CacheInv(s, r, held, now, skew)
    ensures CacheInv(RunFrom(s, events, skew), r, held, now, skew)
    decreases |events|
  {
    if events != [] {
      StepKeepsCache(s, events[0], r, held, now, skew);
      RunKeepsCache(Step(s, events[0], skew), events[1..], r, held, now, skew);
    }
  }

  lemma {:induction false} RunSplits(s: State, events: seq<Event>, i: nat, skew: int)
    requires i < |events|
    ensures RunFrom(s, events, skew) == RunFrom(Step(RunFrom(s, events[..i], skew), events[i], skew), events[i + 1..], skew)
    decreases |events|
  {
    if i == 0 {
      assert events[..0] == [];
    } else {
      assert events[..i][0] == events[0] && events[..i][1..] == events[1..][..i - 1];
      assert events[1..][i..] == events[i + 1..];
      RunSplits(Step(s, events[0], skew), events[1..], i - 1, skew);
    }
  }

  /** Event `k` is the one that settled refresh `id`: with `token`, which expires at `exp`. */
  ghost predicate IsSettledAt(events: seq<Event>, skew: int, k: nat, id: RefreshId, token: Token, exp: Option<int>) {
    && k < |events| && events[k] == Settle(id, Resolved(token), exp)
    && var c := Run(events[..k], skew).cell;
       id < |c.refreshes| && c.refreshes[id].settlement.Pending?
  }

  lemma {:induction false} StepHeld(s: State, e: Event, skew: int)
    ensures var held := Step(s, e, skew).cell.held;
            || held == s.cell.held
            || held.None?
            || (&& e.Settle? && e.how.Resolved? && e.refresh < |s.cell.refreshes| && s.cell.refreshes[e.refresh].settlement.Pending?
                && held.value.token == e.how.token && held.value.from == e.refresh
                && (Truthy(e.how.token) ==> held.value.exp == e.exp))
  {}

  /** The held token and its expiry are those of the event that settled its `getToken`. */
  lemma {:induction false} HeldComesFromItsSettlement(events: seq<Event>, skew: int) returns (k: nat, exp: Option<int>)
    ensures var held := Run(events, skew).cell.held;
            held.Some? ==>
              && IsSettledAt(events, skew, k, held.value.from, held.value.token, exp)
              && (Truthy(held.value.token) ==> held.value.exp == exp)
  {
    k, exp := 0, None;
    if events != [] {
      var n := |events| - 1;
      var before, e := events[..n], events[n];
      RunSplits(INITIAL, events, n, skew);
      assert events[n + 1..] == [];
      StepHeld(Run(before, skew), e, skew);
      k, exp := HeldComesFromItsSettlement(before, skew);
      if Run(events, skew).cell.held == Run(before, skew).cell.held {
        if k < n {
          assert before[..k] == events[..k];
        }
      } else if e.Settle? {
        k, exp := n, e.exp;
      }
    }
  }

  /** A `getToken` that answers in its own session is held with the expiry it came with. */
  lemma {:induction false} SettledTokenIsHeld(c: Cell, id: RefreshId, token: Token, exp: Option<int>)
    requires id < |c.refreshes| && c.refreshes[id] == Refresh(c.generation, Pending) && Truthy(token)
    ensures Settled(c, id, Resolved(token), exp).held == Some(Held(token, exp, id))
  {}

  /**
   * In every run: a request whose first send carries a token not minted for it, whenever it goes out,
   * carries the token that was held when the request began. If it is a token at all, an earlier event
   * settled its `getToken` with it, and the expiry of that event was then more than `skew` away.
   */
  lemma {:induction false} CachedTokenIsNotAboutToExpire(events: seq<Event>, skew: int, i: nat)
    requires i < |events| && events[i].Begin?
    ensures var s := Run(events[..i], skew);
            var sent := FirstSend(Run(events, skew).log, |s.requests|);
            && (sent.Some? ==> sent.value.Sent?)
            && (sent.Some? && !sent.value.minted ==>
                  && WasFarFromExpiry(s.cell.held, sent.value.token, sent.value.from, events[i].now, skew)
                  && (Truthy(sent.value.token) ==>
                        exists k: nat, exp :: k < i && IsSettledAt(events, skew, k, sent.value.from, sent.value.token, exp)
                                              && (exp.None? || events[i].now + skew < exp.value)))
  {
    var before := events[..i];
    var s := Run(before, skew);
    var r, now := |s.requests|, events[i].now;
    RunInv(before, skew);
    RunSplits(INITIAL, events, i, skew);
    BeginsFromCache(s, now, events[i].throws, skew);
    RunKeepsCache(Step(s, events[i], skew), events[i + 1..], r, s.cell.held, now, skew);
    var k, exp := HeldComesFromItsSettlement(before, skew);
    if s.cell.held.Some? {
      assert before[..k] == events[..k];
      assert IsSettledAt(events, skew, k, s.cell.held.value.from, s.cell.held.value.token, exp);
    }
  }

  // ----- whose token a second send carries -----

  function SecondSend(log: seq<Observation>, r: RequestId): Option<Observation> {
    if log == [] then None
    else
      var before := log[..|log| - 1];
      var last := log[|log| - 1];
      if SecondSend(before, r).None? && FirstSend(before, r).Some? && last.Sent? && last.who == r then Some(last)
      else SecondSend(before, r)
  }

  /** Where request `r` was answered 401 for the first time. */
  function RefusedAt(log: seq<Observation>, r: RequestId): (a: Option<nat>)
    ensures a.Some? ==> a.value < |log| && log[a.value] == Answered(r, Unauthorized)
  {
    if log == [] then None
    else
      var before := RefusedAt(log[..|log| - 1], r);
      if before.None? && log[|log| - 1] == Answered(r, Unauthorized) then Some(|log| - 1) else before
  }

  lemma {:induction false} SecondSnoc(log: seq<Observation>, o: Observation, r: RequestId)
    ensures SecondSend(log + [o], r) ==
            if SecondSend(log, r).None? && FirstSend(log, r).Some? && o.Sent? && o.who == r then Some(o) else SecondSend(log, r)
    ensures RefusedAt(log + [o], r) ==
            if RefusedAt(log, r).None? && o == Answered(r, Unauthorized) then Some(|log|) else RefusedAt(log, r)
  {
    assert (log + [o])[..|log|] == log;
  }

  /** What the log tells of one request: whether it was sent, its second send, and the logouts before its 401. */
  datatype Story = Story(sent: bool, second: Option<Observation>, refused: Option<nat>)

  function StoryOf(log: seq<Observation>, r: RequestId): Story {
    var a := RefusedAt(log, r);
    Story(FirstSend(log, r).Some?, SecondSend(log, r), if a.Some? then Some(Logouts(log[..a.value])) else None)
  }

  function Told(y: Story, o: Observation, r: RequestId, logouts: nat): Story {
    if o.Sent? && o.who == r then if y.sent then y.(second := if y.second.None? then Some(o) else y.second) else y.(sent := true)
    else if o == Answered(r, Unauthorized) && y.refused.None? then y.(refused := Some(logouts))
    else y
  }

  lemma {:induction false} SecondNeedsFirst(log: seq<Observation>, r: RequestId)
    ensures FirstSend(log, r).None? ==> SecondSend(log, r).None?
  {
    if log != [] {
      SecondNeedsFirst(log[..|log| - 1], r);
    }
  }

  lemma {:induction false} StorySnoc(log: seq<Observation>, o: Observation, r: RequestId)
    ensures StoryOf(log + [o], r) == Told(StoryOf(log, r), o, r, Logouts(log))
  {
    var a := RefusedAt(log, r);
    FirstSendSnoc(log, o, r);
    SecondSnoc(log, o, r);
    SecondNeedsFirst(log, r);
    if a.Some? {
      assert (log + [o])[..a.value] == log[..a.value];
    }
    assert (log + [o])[..|log|] == log;
  }

  /** The refresh `id` began in the generation in which the request was refused. */
  ghost predicate SinceRefusal(c: Cell, id: RefreshId, y: Story) {
    y.sent && y.refused.Some? && id < |c.refreshes| && c.refreshes[id].generation == y.refused.value
  }

  ghost predicate TellsOf(c: Cell, p: Phase, y: Story) {
    && (y.second.Some? ==> y.second.value.Sent? && SinceRefusal(c, y.second.value.from, y))
    && match p
       case Awaiting(_) => y == Story(false, None, None)
       case Ready(_, _, _) => y == Story(false, None, None)
       case Sending(_, _, _) => y == Story(true, None, None)
       case AwaitingRetry(id, _) => y.second.None? && SinceRefusal(c, id, y)
       case ReadyRetry(_, f) => y.second.None? && SinceRefusal(c, f, y)
       case SendingRetry => y.refused.Some? && y.sent && y.second.Some?
       case Finished => y.second.None? || y.refused.Some?
  }

  ghost predicate StoryInv(s: State, r: RequestId) {
    if r < |s.requests| then TellsOf(s.cell, s.requests[r].phase, StoryOf(s.log, r))
    else StoryOf(s.log, r) == Story(false, None, None)
  }

  lemma {:induction false} ExtensionKeepsStory(c: Cell, d: Cell, p: Phase, y: Story)
    requires TellsOf(c, p, y) && Extends(c, d)
    ensures TellsOf(d, p, y)
  {}

  lemma {:induction false} BeginKeepsStory(s: State, now: int, throws: bool, skew: int, r: RequestId)
    requires CellInv(s.cell) && StoryInv(s, r)
    ensures StoryInv(BeginStep(s, now, throws, skew), r)
  {
    var s', q := BeginStep(s, now, throws, skew), |s.requests|;
    BeginTellsNothing(s, now, throws, skew, r);
    if r < q {
      BeginKeepsCell(s, now, throws, skew);
      ExtensionKeepsStory(s.cell, s'.cell, s.requests[r].phase, StoryOf(s.log, r));
      assert s'.requests[r] == s.requests[r];
    }
  }

  lemma {:induction false} BeginTellsNothing(s: State, now: int, throws: bool, skew: int, r: RequestId)
    ensures StoryOf(BeginStep(s, now, throws, skew).log, r) == StoryOf(s.log, r)
  {
    var q := |s.requests|;
    var begun := s.log + [Begun(q)];
    var asked := begun + [Asked(|s.cell.refreshes|, q)];
    var log := BeginStep(s, now, throws, skew).log;
    assert log == begun || log == asked;
    SilentEntry(s.log, Begun(q), r);
    SilentEntry(begun, Asked(|s.cell.refreshes|, q), r);
  }

  /** Only sends and answers tell anything. */
  lemma {:induction false} SilentEntry(log: seq<Observation>, o: Observation, r: RequestId)
    requires !o.Sent? && !o.Answered?
    ensures StoryOf(log + [o], r) == StoryOf(log, r)
  {
    StorySnoc(log, o, r);
  }

  lemma {:induction false} SentStory(s: State, q: RequestId, r: RequestId)
    requires q < |s.requests|
    ensures var p, y := s.requests[q].phase, StoryOf(s.log, r);
            StoryOf(SendStep(s, q).log, r) ==
            if p.Ready? then Told(y, Sent(q, p.token, p.from, p.minted), r, Logouts(s.log))
            else if p.ReadyRetry? then Told(y, Sent(q, p.token, p.from, false), r, Logouts(s.log))
            else y
  {
    var p := s.requests[q].phase;
    if p.Ready? {
      StorySnoc(s.log, Sent(q, p.token, p.from, p.minted), r);
    } else if p.ReadyRetry? {
      StorySnoc(s.log, Sent(q, p.token, p.from, false), r);
    }
  }

  lemma {:induction false} SendTells(c: Cell, p: Phase, y: Story, r: RequestId, logouts: nat)
    requires TellsOf(c, p, y)
    ensures p.Ready? ==> TellsOf(c, Sending(p.token, p.from, p.minted), Told(y, Sent(r, p.token, p.from, p.minted), r, logouts))
    ensures p.ReadyRetry? ==> TellsOf(c, SendingRetry, Told(y, Sent(r, p.token, p.from, false), r, logouts))
  {}

  lemma {:induction false} SendKeepsStory(s: State, q: RequestId, r: RequestId)
    requires q < |s.requests| && StoryInv(s, r)
    ensures StoryInv(SendStep(s, q), r)
  {
    SentStory(s, q, r);
    if q == r {
      SendTells(s.cell, s.requests[r].phase, StoryOf(s.log, r), r, Logouts(s.log));
    } else if r < |s.requests| {
      assert SendStep(s, q).requests[r] == s.requests[r];
    }
  }

  lemma {:induction false} ResumeKeepsStory(s: State, q: RequestId, r: RequestId)
    requires q < |s.requests| && StoryInv(s, r)
    ensures StoryInv(ResumeStep(s, q), r)
  {}

  lemma {:induction false} OtherReceived(s: State, q: RequestId, reply: Reply, throws: bool, r: RequestId)
    requires CellInv(s.cell) && q < |s.requests| && q != r && StoryInv(s, r)
    ensures StoryInv(ReceiveStep(s, q, reply, throws), r)
  {
    var s' := ReceiveStep(s, q, reply, throws);
    assert StoryOf(s'.log, r) == StoryOf(s.log, r) by {
      StorySnoc(s.log, Answered(q, reply), r);
      StorySnoc(s.log + [Answered(q, reply)], Asked(|s.cell.refreshes|, q), r);
    }
    if r < |s.requests| {
      if s.cell.refreshing.None? { AskKeepsCell(s.cell, throws); }
      ExtensionKeepsStory(s.cell, s'.cell, s.requests[r].phase, StoryOf(s.log, r));
      assert s'.requests[r] == s.requests[r];
    }
  }

  lemma {:induction false} OwnReceived(s: State, r: RequestId, reply: Reply, throws: bool)
    requires CellInv(s.cell) && s.cell.generation == Logouts(s.log)
    requires r < |s.requests| && StoryInv(s, r)
    ensures StoryInv(ReceiveStep(s, r, reply, throws), r)
  {
    var s', y := ReceiveStep(s, r, reply, throws), StoryOf(s.log, r);
    var p := s.requests[r].phase;
    if s.cell.refreshing.None? { AskKeepsCell(s.cell, throws); }
    ExtensionKeepsStory(s.cell, s'.cell, p, y);
    OwnAnswer(s, r, reply, throws);
    if p.Sending? && reply.Unauthorized? {
      assert StoryOf(s'.log, r) == Story(true, None, Some(s.cell.generation));
    }
  }

  lemma {:induction false} OwnAnswer(s: State, r: RequestId, reply: Reply, throws: bool)
    requires r < |s.requests|
    ensures var p, y := s.requests[r].phase, StoryOf(s.log, r);
            StoryOf(ReceiveStep(s, r, reply, throws).log, r) ==
            if p.Sending? || p.SendingRetry? then Told(y, Answered(r, reply), r, Logouts(s.log)) else y
  {
    StorySnoc(s.log, Answered(r, reply), r);
    StorySnoc(s.log + [Answered(r, reply)], Asked(|s.cell.refreshes|, r), r);
  }

  lemma {:induction false} StepKeepsStory(s: State, e: Event, skew: int, r: RequestId)
    requires CellInv(s.cell) && s.cell.generation == Logouts(s.log) && StoryInv(s, r)
    ensures StoryInv(Step(s, e, skew), r)
  {
    match e {
      case Begin(now, throws) => BeginKeepsStory(s, now, throws, skew, r);
      case Resume(q) => if q < |s.requests| { ResumeKeepsStory(s, q, r); }
      case Send(q) => if q < |s.requests| { SendKeepsStory(s, q, r); }
      case Receive(q, reply, throws) =>
        if q < |s.requests| {
          if q == r { OwnReceived(s, r, reply, throws); } else { OtherReceived(s, q, reply, throws, r); }
        }
      case _ =>
        var s' := Step(s, e, skew);
        StepKeepsCell(s, e, skew);
        StorySnoc(s.log, Logout, r);
        if r < |s.requests| { ExtensionKeepsStory(s.cell, s'.cell, s.requests[r].phase, StoryOf(s.log, r)); }
    }
  }

  lemma {:induction false} RunKeepsStory(s: State, events: seq<Event>, skew: int, r: RequestId)
    requires Inv(s) && StoryInv(s, r)
    ensures StoryInv(RunFrom(s, events, skew), r)
    decreases |events|
  {
    if events != [] {
      StepKeepsInv(s, events[0], skew);
      StepKeepsStory(s, events[0], skew, r);
      RunKeepsStory(Step(s, events[0], skew), events[1..], skew, r);
    }
  }

  lemma {:induction false} UnbornIsSilent(log: seq<Observation>, r: RequestId, i: nat)
    requires i < |log| && IsAbout(log[i], r)
    ensures !StageOf(log, r).Unborn?
    decreases |log|
  {
    var before := log[..|log| - 1];
    if i < |before| {
      UnbornIsSilent(before, r, i);
    }
  }

  /** In the log of a run nothing is said of a request before it begins. */
  lemma {:induction false} BegunComesFirst(log: seq<Observation>, r: RequestId, start: nat, i: nat)
    requires !StageOf(log, r).Illegal?
    requires start < |log| && log[start] == Begun(r) && i < |log| && IsAbout(log[i], r)
    ensures start <= i
  {
    LegalPrefix(log, r, start + 1);
    assert log[..start + 1] == log[..start] + [log[start]];
    StageSnoc(log[..start], log[start], r);
    if i < start {
      assert log[..start][i] == log[i];
      UnbornIsSilent(log[..start], r, i);
    }
  }

  lemma {:induction false} NoLogoutsBetween(log: seq<Observation>, i: nat, j: nat)
    requires i <= j <= |log| && forall c :: i <= c < j ==> !log[c].Logout?
    ensures Logouts(log[..i]) == Logouts(log[..j])
    decreases j - i
  {
    if i < j {
      NoLogoutsBetween(log, i, j - 1);
      assert log[..j] == log[..j - 1] + [log[j - 1]];
      LogoutsSnoc(log[..j - 1], log[j - 1]);
    }
  }

  lemma {:induction false} LogoutsEqualIff(log: seq<Observation>, i: nat, j: nat)
    requires i <= j <= |log|
    ensures Logouts(log[..i]) == Logouts(log[..j]) <==> forall c :: i <= c < j ==> !log[c].Logout?
  {
    if forall c :: i <= c < j ==> !log[c].Logout? {
      NoLogoutsBetween(log, i, j);
    } else {
      LogoutsMonotone(log, i, j);
    }
  }

  /**
   * A second send carries a token asked for in the session in which the first was refused. That is the
   * session the request began in if and only if nobody logged out between its beginning and its 401.
   */
  lemma {:induction false} RetryStaysInSessionIff(events: seq<Event>, skew: int, r: RequestId, start: nat)
    requires var log := Run(events, skew).log;
             start < |log| && log[start] == Begun(r) && SecondSend(log, r).Some?
    ensures var s := Run(events, skew);
            var second, refused := SecondSend(s.log, r), RefusedAt(s.log, r);
            && r < |s.requests| && second.value.Sent? && second.value.from < |s.cell.refreshes|
            && refused.Some? && start < refused.value
            && s.cell.refreshes[second.value.from].generation == Logouts(s.log[..refused.value])
            && (s.cell.refreshes[second.value.from].generation == s.requests[r].began <==>
                forall c :: start < c < refused.value ==> !s.log[c].Logout?)
  {
    var s := Run(events, skew);
    RunInv(events, skew);
    RunKeepsStory(INITIAL, events, skew, r);
    assert EntryInv(s.cell, s.requests, s.log, start);
    EveryRequestIsLegal(events, skew, r);
    var a := RefusedAt(s.log, r).value;
    BegunComesFirst(s.log, r, start, a);
    LogoutsEqualIff(s.log, start, a);
  }

  /** A request of the user who left, refused after the next one has a token, goes out again on the new token. */
  function OverlappingUsers(a: Token, b: Token): seq<Event> {
    [Begin(0, false), Settle(0, Resolved(a), None), Begin(0, false), Send(1), ClearToken,
     Begin(0, false), Settle(1, Resolved(b), None), Receive(1, Unauthorized, false), Send(1)]
  }

  lemma {:induction false} RetryMayCarryTheNextUsersToken(a: Token, b: Token, skew: int)
    requires Truthy(b) && a != b
    ensures var s := Run(OverlappingUsers(a, b), skew);
            && |s.requests| == 3 && s.requests[1].began == 0
            && |s.cell.refreshes| == 2 && s.cell.refreshes[1].generation == 1
            && s.log != [] && s.log[|s.log| - 1] == Sent(1, b, 1, false)
  {
    var es := OverlappingUsers(a, b);
    var s1 := Step(INITIAL, es[0], skew);
    var s2 := Step(s1, es[1], skew);
    var s3 := Step(s2, es[2], skew);
    var s4 := Step(s3, es[3], skew);
    var s5 := Step(s4, es[4], skew);
    assert s2.cell == Cell(Some(Held(a, None, 0)), None, 0, [Refresh(0, Resolved(a))]);
    assert s4.cell == s2.cell && s4.requests[1] == Request(0, Sending(a, 0, false)) && |s4.requests| == 2;
    SplitAt(INITIAL, es, 5, skew);
    FirstFive(INITIAL, es[..5], skew);
    TheNextUser(s5, a, b, skew);
  }

  lemma {:induction false} SplitAt(s: State, events: seq<Event>, n: nat, skew: int)
    requires n <= |events|
    ensures RunFrom(s, events, skew) == RunFrom(RunFrom(s, events[..n], skew), events[n..], skew)
    decreases |events|
  {
    if n == 0 {
      assert events[..0] == [] && events[0..] == events;
    } else {
      assert events[..n][0] == events[0] && events[..n][1..] == events[1..][..n - 1];
      assert events[1..][n - 1..] == events[n..];
      SplitAt(Step(s, events[0], skew), events[1..], n - 1, skew);
    }
  }

  lemma {:induction false} OneMore(s: State, es: seq<Event>, n: nat, skew: int)
    requires n < |es|
    ensures RunFrom(s, es[n..], skew) == RunFrom(Step(s, es[n], skew), es[n + 1..], skew)
  {
    assert es[n..][1..] == es[n + 1..];
  }

  lemma {:induction false} FirstFive(s: State, es: seq<Event>, skew: int)
    requires |es| == 5
    ensures RunFrom(s, es, skew) == Step(Step(Step(Step(Step(s, es[0], skew), es[1], skew), es[2], skew), es[3], skew), es[4], skew)
  {
    var s1 := Step(s, es[0], skew);
    var s2 := Step(s1, es[1], skew);
    var s3 := Step(s2, es[2], skew);
    var s4 := Step(s3, es[3], skew);
    OneMore(s, es, 0, skew);
    OneMore(s1, es, 1, skew);
    OneMore(s2, es, 2, skew);
    OneMore(s3, es, 3, skew);
    OneMore(s4, es, 4, skew);
    assert es[0..] == es && es[5..] == [];
  }

  lemma {:induction false} TheNextUser(s: State, a: Token, b: Token, skew: int)
    requires Truthy(b) && a != b
    requires s.cell == Cell(None, None, 1, [Refresh(0, Resolved(a))])
    requires |s.requests| == 2 && s.requests[1] == Request(0, Sending(a, 0, false))
    ensures var t := RunFrom(s, OverlappingUsers(a, b)[5..], skew);
            && |t.requests| == 3 && t.requests[1].began == 0
            && |t.cell.refreshes| == 2 && t.cell.refreshes[1].generation == 1
            && t.log != [] && t.log[|t.log| - 1] == Sent(1, b, 1, false)
  {
    var es := OverlappingUsers(a, b);
    var s6 := Step(s, es[5], skew);
    var s7 := Step(s6, es[6], skew);
    var s8 := Step(s7, es[7], skew);
    var s9 := Step(s8, es[8], skew);
    assert s6.cell == Cell(None, Some(1), 1, [Refresh(0, Resolved(a)), Refresh(1, Pending)]) && s6.requests[1] == s.requests[1];
    assert s7.cell == Cell(Some(Held(b, None, 1)), None, 1, [Refresh(0, Resolved(a)), Refresh(1, Resolved(b))]);
    assert s8.requests[1] == Request(0, ReadyRetry(b, 1)) && s8.cell == s7.cell && |s8.requests| == 3;
    OneMore(s, es, 5, skew);
    OneMore(s6, es, 6, skew);
    OneMore(s7, es, 7, skew);
    OneMore(s8, es, 8, skew);
    assert es[9..] == [];
  }

  // ----- a synchronous throw of getToken -----

  /** The slot is taken by a promise that is already rejected, and `n` requests predate it. */
  ghost predicate Wedged(s: State, id: RefreshId, n: nat) {
    && id < |s.cell.refreshes| && s.cell.refreshes[id].settlement.Rejected?
    && s.cell.refreshing == Some(id)
    && n <= |s.requests|
    && forall r :: n <= r < |s.requests| ==> s.requests[r].phase == Awaiting(id) || s.requests[r].phase.Finished?
  }

  lemma {:induction false} StepStaysWedged(s: State, e: Event, skew: int, id: RefreshId, n: nat)
    requires Wedged(s, id, n) && !e.ClearToken?
    ensures Wedged(Step(s, e, skew), id, n)
    ensures |Step(s, e, skew).cell.refreshes| == |s.cell.refreshes|
    ensures IsMute(s.log, Step(s, e, skew).log, n)
  {}

  /** `log` goes on as `longer` without any call of `getToken` and without a send of a request from `n` on. */
  ghost predicate IsMute(log: seq<Observation>, longer: seq<Observation>, n: nat) {
    && log <= longer
    && forall i :: |log| <= i < |longer| ==> !longer[i].Asked? && (longer[i].Sent? ==> longer[i].who < n)
  }

  /**
   * If `getToken` throws synchronously, the rejected promise stays in the slot: until somebody calls
   * `clearToken`, `getToken` is not called again and no request begun from then on is ever sent. Those
   * that had their token already still go out.
   */
  lemma {:induction false} SynchronousThrowWedgesTheClient(s: State, events: seq<Event>, skew: int, id: RefreshId, n: nat)
    requires Wedged(s, id, n)
    requires forall i :: 0 <= i < |events| ==> !events[i].ClearToken?
    ensures var s' := RunFrom(s, events, skew);
            Wedged(s', id, n) && |s'.cell.refreshes| == |s.cell.refreshes| && IsMute(s.log, s'.log, n)
    decreases |events|
  {
    if events != [] {
      StepStaysWedged(s, events[0], skew, id, n);
      SynchronousThrowWedgesTheClient(Step(s, events[0], skew), events[1..], skew, id, n);
    }
  }

  /** Any step that asks and meets the throw leads there. */
  lemma {:induction false} AThrowWedges(s: State, e: Event, skew: int)
    requires (e.Begin? || e.Receive?) && e.throws
    requires |Step(s, e, skew).cell.refreshes| > |s.cell.refreshes|
    ensures Wedged(Step(s, e, skew), |s.cell.refreshes|, |s.requests|)
  {}

  /** If the slot is taken, it is by a `getToken` that is still running. */
  ghost predicate IsInFlight(c: Cell) {
    c.refreshing.Some? ==> c.refreshing.value < |c.refreshes| && c.refreshes[c.refreshing.value].settlement.Pending?
  }

  /** The step calls `getToken` and meets a synchronous throw. */
  predicate AsksAndThrows(s: State, e: Event, skew: int) {
    (e.Begin? || e.Receive?) && e.throws && |Step(s, e, skew).cell.refreshes| > |s.cell.refreshes|
  }

  lemma {:induction false} StepInFlightIff(s: State, e: Event, skew: int)
    requires CellInv(s.cell) && IsInFlight(s.cell)
    ensures IsInFlight(Step(s, e, skew).cell) <==> !AsksAndThrows(s, e, skew)
  {}

  ghost predicate AlwaysInFlight(s: State, events: seq<Event>, skew: int)
    decreases |events|
  {
    IsInFlight(s.cell) && (events != [] ==> AlwaysInFlight(Step(s, events[0], skew), events[1..], skew))
  }

  ghost predicate NoAskThrows(s: State, events: seq<Event>, skew: int)
    decreases |events|
  {
    events != [] ==> !AsksAndThrows(s, events[0], skew) && NoAskThrows(Step(s, events[0], skew), events[1..], skew)
  }

  /** In every run the slot only ever holds a running `getToken` if and only if no call of `getToken` throws synchronously. */
  lemma {:induction false} SlotIsInFlight(s: State, events: seq<Event>, skew: int)
    requires CellInv(s.cell) && IsInFlight(s.cell)
    ensures AlwaysInFlight(s, events, skew) <==> NoAskThrows(s, events, skew)
    decreases |events|
  {
    if events != [] {
      var s1 := Step(s, events[0], skew);
      StepKeepsCell(s, events[0], skew);
      StepInFlightIff(s, events[0], skew);
      if IsInFlight(s1.cell) {
        SlotIsInFlight(s1, events[1..], skew);
      }
    }
  }

  // ----- the client object -----

  /**
   * `GnlClient` with the fields the source has, plus the promises and requests in flight. Each method
   * is one stretch of source code between two `await`s.
   */
  class GnlClient {
    const skew: int
    var held: Option<Held>
    var refreshing: Option<RefreshId>
    var tokenGeneration: nat
    var refreshes: seq<Refresh>
    var requests: seq<Request>
    var log: seq<Observation>

    function Current(): State
      reads this
    {
      State(Cell(held, refreshing, tokenGeneration, refreshes), requests, log)
    }

    constructor (skew: int)
      ensures Current() == INITIAL && this.skew == skew
    {
      this.skew := skew;
      held, refreshing, tokenGeneration := None, None, 0;
      refreshes, requests, log := [], [], [];
    }

    method ClearToken()
      modifies this
      ensures Current() == Step(old(Current()), Event.ClearToken, skew)
    {
      tokenGeneration := tokenGeneration + 1;
      held := None;
      refreshing := None;
      log := log + [Logout];
    }

    method AskOrJoin(who: RequestId, throws: bool) returns (id: RefreshId)
      modifies this
      ensures (Current(), id) == RefreshFor(old(Current()), who, throws)
    {
      if refreshing.Some? {
        return refreshing.value;
      }
      id := |refreshes|;
      log := log + [Asked(id, who)];
      refreshes := refreshes + [Refresh.Refresh(tokenGeneration, if throws then Rejected else Pending)];
      refreshing := Some(id);
    }

    method OnTokenSettled(id: RefreshId, how: Settlement, exp: Option<int>)
      requires id < |refreshes| && refreshes[id].settlement.Pending? && !how.Pending?
      modifies this
      ensures Current() == Step(old(Current()), Settle(id, how, exp), skew)
    {
      var generation := refreshes[id].generation;
      if how.Resolved? && generation == tokenGeneration {
        held := Some(Held(how.token, if Truthy(how.token) then exp else None, id));
      }
      if refreshing == Some(id) {
        refreshing := None;
      }
      refreshes := refreshes[id := refreshes[id].(settlement := how)];
    }

    method BeginRequest(now: int, throws: bool)
      modifies this
      ensures Current() == Step(old(Current()), Begin(now, throws), skew)
    {
      var generation := tokenGeneration;
      log := log + [Begun(|requests|)];
      if refreshing.None? && held.Some? && IsUsable(held.value, now, skew) {
        requests := requests + [Request(generation, Ready(held.value.token, held.value.from, false))];
      } else {
        var id := AskOrJoin(|requests|, throws);
        requests := requests + [Request(generation, Awaiting(id))];
      }
    }

    method ResumeRequest(r: RequestId)
      requires r < |requests|
      modifies this
      ensures Current() == Step(old(Current()), Resume(r), skew)
    {
      var p := requests[r].phase;
      if (p.Awaiting? || p.AwaitingRetry?) && p.id < |refreshes| && !refreshes[p.id].settlement.Pending? {
        var settlement := refreshes[p.id].settlement;
        var next := if settlement.Rejected? then Finished
                    else if p.Awaiting? then Ready(settlement.token, p.id, true)
                    else RetryPhase(settlement.token, p.id, p.sent);
        requests := requests[r := requests[r].(phase := next)];
      }
    }

    method SendRequest(r: RequestId)
      requires r < |requests|
      modifies this
      ensures Current() == Step(old(Current()), Send(r), skew)
    {
      var p := requests[r].phase;
      if p.Ready? {
        log := log + [Sent(r, p.token, p.from, p.minted)];
        requests := requests[r := requests[r].(phase := Sending(p.token, p.from, p.minted))];
      } else if p.ReadyRetry? {
        log := log + [Sent(r, p.token, p.from, false)];
        requests := requests[r := requests[r].(phase := SendingRetry)];
      }
    }

    method OnResponse(r: RequestId, reply: Reply, throws: bool)
      requires r < |requests|
      modifies this
      ensures Current() == Step(old(Current()), Receive(r, reply, throws), skew)
    {
      var p := requests[r].phase;
      if !p.Sending? && !p.SendingRetry? {
        return;
      }
      log := log + [Answered(r, reply)];
      var next := Finished;
      if p.Sending? && reply.Unauthorized? && !p.minted {
        if held.Some? && held.value.token != p.token {
          next := RetryPhase(held.value.token, held.value.from, p.token);
        } else {
          var id := AskOrJoin(r, throws);
          next := AwaitingRetry(id, p.token);
        }
      }
      requests := requests[r := requests[r].(phase := next)];
    }
  }
}
