/**
 * What one request of `GnlClient` does from its first line to its last when its steps follow each other
 * (packages/client/src/index.ts), whatever the state it finds: the half up to the first send, and the
 * half from the response on. `TokenCell` has the safety of all interleavings.
 */
module TokenFlow {
  import opened Common
  import opened TokenCell

  lemma {:induction false} FourSteps(s: State, a: Event, b: Event, c: Event, d: Event, skew: int)
    ensures RunFrom(s, [a, b, c, d], skew) == Step(Step(Step(Step(s, a, skew), b, skew), c, skew), d, skew)
  {
    var es := [a, b, c, d];
    var s1 := Step(s, a, skew);
    var s2 := Step(s1, b, skew);
    var s3 := Step(s2, c, skew);
    OneMore(s, es, 0, skew);
    OneMore(s1, es, 1, skew);
    OneMore(s2, es, 2, skew);
    OneMore(s3, es, 3, skew);
    assert es[0..] == es && es[4..] == [];
  }

  // ----- up to the first send -----

  /** The token in the cell may be used at `now`: it is the "no session" answer, or expires later than `skew` from now. */
  ghost predicate IsFresh(c: Cell, now: int, skew: int) {
    c.held.Some? && (c.held.value.token.NoToken? || c.held.value.exp.None? || now + skew < c.held.value.exp.value)
  }

  /** The request begins, `getToken` answers if it was asked, the request goes on and is sent. */
  function Opening(s: State, now: int, how: Settlement, exp: Option<int>): seq<Event> {
    [Begin(now, false), Settle(|s.cell.refreshes|, how, exp), Resume(|s.requests|), Send(|s.requests|)]
  }

  lemma {:induction false} FreshTokenIsUsed(s: State, now: int, how: Settlement, exp: Option<int>, skew: int)
    requires s.cell.refreshing.None? && IsFresh(s.cell, now, skew)
    ensures var r, h, t := |s.requests|, s.cell.held.value, RunFrom(s, Opening(s, now, how, exp), skew);
            && t.cell == s.cell
            && t.requests == s.requests + [Request(s.cell.generation, Sending(h.token, h.from, false))]
            && t.log == s.log + [Begun(r), Sent(r, h.token, h.from, false)]
  {
    var r, h, id := |s.requests|, s.cell.held.value, |s.cell.refreshes|;
    FourSteps(s, Begin(now, false), Settle(id, how, exp), Resume(r), Send(r), skew);
    var s1 := Step(s, Begin(now, false), skew);
    assert s1 == s.(requests := s.requests + [Request(s.cell.generation, Ready(h.token, h.from, false))], log := s.log + [Begun(r)]);
    assert Step(Step(s1, Settle(id, how, exp), skew), Resume(r), skew) == s1;
  }

  /** Otherwise it asks once, and goes out on the answer; without an answer it fails. */
  lemma {:induction false} OtherwiseItAsks(s: State, now: int, how: Settlement, exp: Option<int>, skew: int)
    requires s.cell.refreshing.None? && !IsFresh(s.cell, now, skew) && !how.Pending?
    ensures var r, id, t := |s.requests|, |s.cell.refreshes|, RunFrom(s, Opening(s, now, how, exp), skew);
            && t.cell.refreshing.None?
            && t.requests == s.requests + [Request(s.cell.generation, if how.Resolved? then Sending(how.token, id, true) else Finished)]
            && t.log == s.log + [Begun(r), Asked(id, r)] + (if how.Resolved? then [Sent(r, how.token, id, true)] else [])
            && (how.Resolved? ==> t.cell.held.Some? && t.cell.held.value.token == how.token && t.cell.held.value.from == id
                                  && (Truthy(how.token) ==> t.cell.held.value.exp == exp))
            && (how.Rejected? ==> t.cell.held == s.cell.held)
  {
    var r, id := |s.requests|, |s.cell.refreshes|;
    FourSteps(s, Begin(now, false), Settle(id, how, exp), Resume(r), Send(r), skew);
    var s1 := Step(s, Begin(now, false), skew);
    assert s1.requests == s.requests + [Request(s.cell.generation, Awaiting(id))];
    assert s1.log == s.log + [Begun(r), Asked(id, r)];
    assert s1.cell == Asking(s.cell, false);
    var s2 := Step(s1, Settle(id, how, exp), skew);
    assert s2.cell.refreshes[id] == Refresh(s.cell.generation, how) && s2.requests == s1.requests && s2.log == s1.log;
    var s3 := Step(s2, Resume(r), skew);
    assert s3.requests == s.requests + [Request(s.cell.generation, if how.Resolved? then Ready(how.token, id, true) else Finished)];
  }

  /** A request that finds a `getToken` running waits for it and asks for nothing of its own. */
  lemma {:induction false} RunningRefreshIsJoined(s: State, now: int, how: Settlement, exp: Option<int>, skew: int)
    requires s.cell.refreshing.Some? && s.cell.refreshing.value < |s.cell.refreshes|
    requires s.cell.refreshes[s.cell.refreshing.value].settlement.Pending? && !how.Pending?
    ensures var r, id := |s.requests|, s.cell.refreshing.value;
            var t := RunFrom(s, [Begin(now, false), Settle(id, how, exp), Resume(r), Send(r)], skew);
            && t.requests == s.requests + [Request(s.cell.generation, if how.Resolved? then Sending(how.token, id, true) else Finished)]
            && t.log == s.log + [Begun(r)] + (if how.Resolved? then [Sent(r, how.token, id, true)] else [])
  {
    var r, id := |s.requests|, s.cell.refreshing.value;
    FourSteps(s, Begin(now, false), Settle(id, how, exp), Resume(r), Send(r), skew);
    var s1 := Step(s, Begin(now, false), skew);
    assert s1 == s.(requests := s.requests + [Request(s.cell.generation, Awaiting(id))], log := s.log + [Begun(r)]);
    var s2 := Step(s1, Settle(id, how, exp), skew);
    assert s2.cell.refreshes[id].settlement == how && s2.requests == s1.requests && s2.log == s1.log;
    var s3 := Step(s2, Resume(r), skew);
    assert s3.requests == s.requests + [Request(s.cell.generation, if how.Resolved? then Ready(how.token, id, true) else Finished)];
  }

  // ----- from the response on -----

  /** Only a 401 on a token that was not minted for the request is followed by more. */
  lemma {:induction false} AnswerIsFinal(s: State, r: RequestId, reply: Reply, skew: int)
    requires r < |s.requests| && s.requests[r].phase.Sending? && (!reply.Unauthorized? || s.requests[r].phase.minted)
    ensures var t := Step(s, Receive(r, reply, false), skew);
            && t.requests[r].phase.Finished? && t.cell == s.cell && t.log == s.log + [Answered(r, reply)]
  {}

  /** A token to retry with: one there is, and another than the one refused. */
  predicate IsWorthARetry(next: Token, refused: Token) {
    Truthy(next) && next != refused
  }

  /** If another token is held by now, it is the one to retry with, and nobody is asked. */
  lemma {:induction false} NewerTokenIsUsed(s: State, r: RequestId, skew: int)
    requires r < |s.requests| && s.requests[r].phase.Sending? && !s.requests[r].phase.minted
    requires s.cell.held.Some? && s.cell.held.value.token != s.requests[r].phase.token
    ensures var h := s.cell.held.value;
            var t := Step(Step(s, Receive(r, Unauthorized, false), skew), Send(r), skew);
            var retried := IsWorthARetry(h.token, s.requests[r].phase.token);
            && t.cell == s.cell
            && t.requests[r].phase == (if retried then SendingRetry else Finished)
            && t.log == s.log + [Answered(r, Unauthorized)] + if retried then [Sent(r, h.token, h.from, false)] else []
  {}

  /** The 401 arrives, `getToken` answers, the request goes on and is sent again. */
  function Retrying(r: RequestId, id: RefreshId, how: Settlement, exp: Option<int>): seq<Event> {
    [Receive(r, Unauthorized, false), Settle(id, how, exp), Resume(r), Send(r)]
  }

  /** Otherwise one answer of `getToken`, joined or asked for, decides: it is sent if it is worth a retry. */
  lemma {:induction false} OtherwiseItRefreshes(s: State, r: RequestId, how: Settlement, exp: Option<int>, skew: int)
    requires r < |s.requests| && s.requests[r].phase.Sending? && !s.requests[r].phase.minted && !how.Pending?
    requires s.cell.held.Some? ==> s.cell.held.value.token == s.requests[r].phase.token
    requires s.cell.refreshing.Some? ==> s.cell.refreshing.value < |s.cell.refreshes|
                                         && s.cell.refreshes[s.cell.refreshing.value].settlement.Pending?
    ensures var id := if s.cell.refreshing.Some? then s.cell.refreshing.value else |s.cell.refreshes|;
            var t := RunFrom(s, Retrying(r, id, how, exp), skew);
            var retried := how.Resolved? && IsWorthARetry(how.token, s.requests[r].phase.token);
            && |t.requests| == |s.requests|
            && t.requests[r].phase == (if retried then SendingRetry else Finished)
            && t.log == s.log + [Answered(r, Unauthorized)] + (if s.cell.refreshing.None? then [Asked(id, r)] else [])
                        + (if retried then [Sent(r, how.token, id, false)] else [])
  {
    var id := if s.cell.refreshing.Some? then s.cell.refreshing.value else |s.cell.refreshes|;
    var sent := s.requests[r].phase.token;
    FourSteps(s, Receive(r, Unauthorized, false), Settle(id, how, exp), Resume(r), Send(r), skew);
    var s1 := Step(s, Receive(r, Unauthorized, false), skew);
    assert s1.requests[r].phase == AwaitingRetry(id, sent);
    assert id < |s1.cell.refreshes| && s1.cell.refreshes[id].settlement.Pending?;
    assert s1.log == s.log + [Answered(r, Unauthorized)] + if s.cell.refreshing.None? then [Asked(id, r)] else [];
    var s2 := Step(s1, Settle(id, how, exp), skew);
    assert s2.cell.refreshes[id].settlement == how && s2.requests == s1.requests && s2.log == s1.log;
    var s3 := Step(s2, Resume(r), skew);
    assert s3.requests[r].phase == if how.Resolved? && IsWorthARetry(how.token, sent) then ReadyRetry(how.token, id) else Finished;
  }

  /** The answer to the second send is the caller's, whatever it is. */
  lemma {:induction false} SecondAnswerIsFinal(s: State, r: RequestId, reply: Reply, skew: int)
    requires r < |s.requests| && s.requests[r].phase.SendingRetry?
    ensures var t := Step(s, Receive(r, reply, false), skew);
            && t.requests[r].phase.Finished? && t.cell == s.cell && t.log == s.log + [Answered(r, reply)]
  {}
}
