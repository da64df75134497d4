/**
 * Who may reach a surface that listens on a socket: the rule of packages/auth/src/exposure.ts and its
 * second implementation in packages/cli/src/bind.ts, compared on every input.
 *
 * Texts of messages are not modelled. Lower-casing is ASCII only; no other character lower-cases into
 * one that the rule looks at.
 */
module Exposure {
  import opened Common

  const LOCALHOST: Text := Ascii("localhost")
  const IPV6_LOOPBACK: Text := Ascii("::1")
  const IPV4_LOOPBACK: Text := Ascii("127.0.0.1")
  const IPV4_WILDCARD: Text := Ascii("0.0.0.0")
  const IPV6_WILDCARD: Text := Ascii("::")
  const DOT: Unit := '.' as int
  const OPEN: Unit := '[' as int
  const CLOSE: Unit := ']' as int

  // ----- hosts -----

  function LowerUnit(u: Unit): Unit {
    if 'A' as int <= u <= 'Z' as int then u + 32 else u
  }

  function Lower(t: Text): (r: Text)
    ensures |r| == |t|
  {
    seq(|t|, i requires 0 <= i < |t| => LowerUnit(t[i]))
  }

  function StripOpen(t: Text): Text {
    if t != [] && t[0] == OPEN then t[1..] else t
  }

  function StripClose(t: Text): Text {
    if t != [] && t[|t| - 1] == CLOSE then t[..|t| - 1] else t
  }

  function Normalize(host: Text): Text {
    StripClose(StripOpen(Lower(Trim(host))))
  }

  // ----- dotted quads -----

  predicate IsDigit(u: Unit) {
    '0' as int <= u <= '9' as int
  }

  /** One to three decimal digits. */
  predicate IsOctet(t: Text) {
    1 <= |t| <= 3 && forall i :: 0 <= i < |t| ==> IsDigit(t[i])
  }

  function DigitValue(u: Unit): nat {
    if IsDigit(u) then u - '0' as int else 0
  }

  /** `Number` of a run of digits. */
  function Value(t: Text): nat {
    if t == [] then 0 else 10 * Value(t[..|t| - 1]) + DigitValue(t[|t| - 1])
  }

  function DigitRun(t: Text): (n: nat)
    ensures n <= |t|
  {
    if t == [] || !IsDigit(t[0]) then 0 else 1 + DigitRun(t[1..])
  }

  lemma {:induction false} DigitRunIs(t: Text)
    ensures forall i :: 0 <= i < DigitRun(t) ==> IsDigit(t[i])
  {
    if t != [] && IsDigit(t[0]) {
      DigitRunIs(t[1..]);
      forall i | 0 <= i < DigitRun(t) ensures IsDigit(t[i]) {
        if i > 0 { assert t[i] == t[1..][i - 1]; }
      }
    }
  }

  lemma {:induction false} RunEndsAt(o: Text, rest: Text)
    requires (forall i :: 0 <= i < |o| ==> IsDigit(o[i])) && (rest != [] ==> !IsDigit(rest[0]))
    ensures DigitRun(o + rest) == |o|
  {
    if o == [] {
      assert o + rest == rest;
    } else {
      assert (o + rest)[1..] == o[1..] + rest;
      RunEndsAt(o[1..], rest);
    }
  }

  /** The regular expression of `isLoopbackHost`: `n` groups of one to three digits, a dot between groups, nothing else. */
  function ReadOctets(t: Text, n: nat): Option<seq<nat>>
    requires n > 0
  {
    var d := DigitRun(t);
    if d < 1 || d > 3 then None
    else if n == 1 then if d == |t| then Some([Value(t[..d])]) else None
    else if d < |t| && t[d] == DOT then
      var rest := ReadOctets(t[d + 1..], n - 1);
      if rest.Some? then Some([Value(t[..d])] + rest.value) else None
    else None
  }

  function JoinDots(os: seq<Text>): Text
    requires os != []
  {
    if |os| == 1 then os[0] else os[0] + [DOT] + JoinDots(os[1..])
  }

  function Values(os: seq<Text>): (vs: seq<nat>)
    ensures |vs| == |os|
  {
    if os == [] then [] else [Value(os[0])] + Values(os[1..])
  }

  ghost predicate AreOctets(os: seq<Text>) {
    forall i :: 0 <= i < |os| ==> IsOctet(os[i])
  }

  lemma {:induction false} ReadsOne(o: Text)
    requires IsOctet(o)
    ensures ReadOctets(o, 1) == Some([Value(o)])
  {
    RunEndsAt(o, []);
    assert o + [] == o && o[..|o|] == o;
  }

  lemma {:induction false} ReadsOneMore(o: Text, rest: Text, n: nat)
    requires IsOctet(o) && n > 0 && ReadOctets(rest, n).Some?
    ensures ReadOctets(o + [DOT] + rest, n + 1) == Some([Value(o)] + ReadOctets(rest, n).value)
  {
    var t := o + [DOT] + rest;
    assert t == o + ([DOT] + rest);
    RunEndsAt(o, [DOT] + rest);
    assert t[..|o|] == o && t[|o|] == DOT && t[|o| + 1..] == rest;
  }

  lemma {:induction false} OneOctet(o: Text)
    requires IsOctet(o)
    ensures AreOctets([o]) && JoinDots([o]) == o && Values([o]) == [Value(o)]
  {
    assert [o][1..] == [];
  }

  lemma {:induction false} OneMoreOctet(o: Text, rest: seq<Text>)
    requires IsOctet(o) && rest != [] && AreOctets(rest)
    ensures AreOctets([o] + rest) && JoinDots([o] + rest) == o + [DOT] + JoinDots(rest)
    ensures Values([o] + rest) == [Value(o)] + Values(rest)
  {
    assert ([o] + rest)[1..] == rest;
  }

  lemma {:induction false} ReadsWhatIsWritten(os: seq<Text>)
    requires os != [] && AreOctets(os)
    ensures ReadOctets(JoinDots(os), |os|) == Some(Values(os))
  {
    var o, tail := os[0], os[1..];
    assert os == [o] + tail;
    assert IsOctet(o) && AreOctets(tail);
    if tail == [] {
      OneOctet(o);
      ReadsOne(o);
    } else {
      ReadsWhatIsWritten(tail);
      OneMoreOctet(o, tail);
      ReadsOneMore(o, JoinDots(tail), |tail|);
    }
  }

  /** The group a successful reading starts with, and what it leaves. */
  lemma {:induction false} FirstOctet(t: Text, n: nat)
    requires n > 0 && ReadOctets(t, n).Some?
    ensures var d := DigitRun(t);
            && IsOctet(t[..d])
            && (n == 1 ==> t[..d] == t && ReadOctets(t, n).value == [Value(t)])
            && (n > 1 ==>
                  && d < |t| && t == t[..d] + [DOT] + t[d + 1..]
                  && ReadOctets(t[d + 1..], n - 1).Some?
                  && ReadOctets(t, n).value == [Value(t[..d])] + ReadOctets(t[d + 1..], n - 1).value)
  {
    DigitRunIs(t);
    var d := DigitRun(t);
    assert d == |t| ==> t[..d] == t;
  }

  lemma {:induction false} WritesWhatIsRead(t: Text, n: nat) returns (os: seq<Text>)
    requires n > 0 && ReadOctets(t, n).Some?
    ensures |os| == n && AreOctets(os) && JoinDots(os) == t && Values(os) == ReadOctets(t, n).value
    decreases n
  {
    var d := DigitRun(t);
    FirstOctet(t, n);
    if n == 1 {
      os := [t];
      OneOctet(t);
    } else {
      var rest := WritesWhatIsRead(t[d + 1..], n - 1);
      os := [t[..d]] + rest;
      OneMoreOctet(t[..d], rest);
    }
  }

  // ----- loopback -----

  /** `isLoopbackHost`; both files have the same code. */
  predicate IsLoopback(host: Text) {
    var h := Normalize(host);
    h == LOCALHOST || h == IPV6_LOOPBACK || IsLoopbackAddress(h)
  }

  /** Four groups, none above 255, the first 127. */
  predicate IsLoopbackAddress(h: Text) {
    var octets := ReadOctets(h, 4);
    octets.Some? && |octets.value| == 4 && (forall i :: 0 <= i < 4 ==> octets.value[i] <= 255) && octets.value[0] == 127
  }

  /** An address of 127.0.0.0/8, written out. */
  ghost predicate IsLoopbackQuad(h: Text, os: seq<Text>) {
    |os| == 4 && AreOctets(os) && h == JoinDots(os) && (forall i :: 0 <= i < 4 ==> Value(os[i]) <= 255) && Value(os[0]) == 127
  }

  /** Exactly `localhost`, `::1` and the well-formed dotted quads of 127.0.0.0/8 are loopback. */
  lemma {:induction false} LoopbackIsExactly(host: Text)
    ensures IsLoopback(host) <==>
            var h := Normalize(host);
            h == LOCALHOST || h == IPV6_LOOPBACK || exists os :: IsLoopbackQuad(h, os)
  {
    QuadIsExactly(Normalize(host));
  }

  lemma {:induction false} QuadIsExactly(h: Text)
    ensures IsLoopbackAddress(h) <==> exists os :: IsLoopbackQuad(h, os)
  {
    if IsLoopbackAddress(h) {
      var os := WritesWhatIsRead(h, 4);
      FourValues(os);
      assert IsLoopbackQuad(h, os);
    }
    if exists os :: IsLoopbackQuad(h, os) {
      var os :| IsLoopbackQuad(h, os);
      ReadsWhatIsWritten(os);
      FourValues(os);
    }
  }

  lemma {:induction false} FourValues(os: seq<Text>)
    requires |os| == 4
    ensures forall i :: 0 <= i < 4 ==> Values(os)[i] == Value(os[i])
  {
    ValueAt(os, 0);
    ValueAt(os, 1);
    ValueAt(os, 2);
    ValueAt(os, 3);
  }

  lemma {:induction false} ValueAt(os: seq<Text>, i: nat)
    requires i < |os|
    ensures Values(os)[i] == Value(os[i])
  {
    if i > 0 {
      ValueAt(os[1..], i - 1);
    }
  }

  predicate IsWildcard(host: Text) {
    Normalize(host) == IPV4_WILDCARD || Normalize(host) == IPV6_WILDCARD
  }

  // ----- credentials -----

  const PUBLISHED: set<Text> := {Ascii("admin-dev"), Ascii("viewer-dev")}

  /** There is a credential, and every credential is one this project once published. */
  predicate IsPublishedDevCredential(tokens: seq<Option<Text>>) {
    && (exists i :: 0 <= i < |tokens| && tokens[i].Some? && tokens[i].value != [])
    && (forall i :: 0 <= i < |tokens| && tokens[i].Some? && tokens[i].value != [] ==> tokens[i].value in PUBLISHED)
  }

  datatype AuthMode = Open | ShippedDevToken | Protected

  datatype Input = Input(host: Option<Text>, authed: bool, credentialTokens: Option<seq<Option<Text>>>, allowOpenNetwork: bool)

  function HostOf(input: Input): Text {
    Trim(if input.host.Some? then input.host.value else IPV4_LOOPBACK)
  }

  // ----- exposure.ts -----

  datatype Warning = LoopbackWithoutAuth | ReachableProtected | ReachableOpen

  datatype Decision = Decision(
    loopback: bool, exposed: bool, hostname: Text, displayHost: Text, authed: bool, shippedCredential: bool,
    mode: AuthMode, allowOpenAccess: bool, refused: bool, warnings: seq<Warning>)

  /** exposure.ts `decideExposure`. */
  function DecideExposure(input: Input): Decision {
    var raw := HostOf(input);
    var loopback := IsLoopback(raw);
    var shipped := input.credentialTokens.Some? && IsPublishedDevCredential(input.credentialTokens.value);
    var authed := input.authed && !shipped;
    var hostname := if loopback && Lower(raw) == LOCALHOST then IPV4_LOOPBACK else raw;
    var displayHost := if loopback then LOCALHOST else if IsWildcard(raw) then LOCALHOST else raw;
    var mode := if !input.authed then Open else if shipped then ShippedDevToken else Protected;
    if !loopback && !authed && !input.allowOpenNetwork then
      Decision(loopback, true, hostname, displayHost, authed, shipped, mode, false, true, [])
    else
      Decision(loopback, !loopback, hostname, displayHost, authed, shipped, mode,
               !authed && (loopback || input.allowOpenNetwork), false,
               (if !authed && loopback then [LoopbackWithoutAuth] else [])
               + (if !loopback then [if authed then ReachableProtected else ReachableOpen] else []))
  }

  /** The host names only this machine, said without the parser. */
  ghost predicate IsLocal(host: Text) {
    var h := Normalize(host);
    h == LOCALHOST || h == IPV6_LOOPBACK || exists os :: IsLoopbackQuad(h, os)
  }

  /** The credentials that are there at all. */
  function Present(tokens: seq<Option<Text>>): set<Text> {
    set i | 0 <= i < |tokens| && tokens[i].Some? && tokens[i].value != [] :: tokens[i].value
  }

  /** Auth counts: a provider resolved, and its credentials, if any were given, are not all published ones. */
  ghost predicate IsProtected(input: Input) {
    && input.authed
    && (input.credentialTokens.Some? ==>
          var present := Present(input.credentialTokens.value); present == {} || !(present <= PUBLISHED))
  }

  lemma {:induction false} PublishedIff(tokens: seq<Option<Text>>)
    ensures IsPublishedDevCredential(tokens) <==> Present(tokens) != {} && Present(tokens) <= PUBLISHED
  {
    if i :| 0 <= i < |tokens| && tokens[i].Some? && tokens[i].value != [] {
      assert tokens[i].value in Present(tokens);
    }
    if Present(tokens) != {} {
      var t :| t in Present(tokens);
    }
    if Present(tokens) <= PUBLISHED {
      forall i | 0 <= i < |tokens| && tokens[i].Some? && tokens[i].value != [] ensures tokens[i].value in PUBLISHED {
        assert tokens[i].value in Present(tokens);
      }
    }
  }

  /**
   * A surface is refused if and only if it would be reachable from outside this machine without auth that
   * counts and without the flag; what is served unprotected is either local or so by the flag, says so to
   * the app, and never without a warning.
   */
  lemma {:induction false} RefusedIff(input: Input)
    ensures var d := DecideExposure(input);
            var local, protected := IsLocal(HostOf(input)), IsProtected(input);
            && (d.refused <==> !local && !protected && !input.allowOpenNetwork)
            && (d.exposed <==> !local) && d.authed == protected
            && (d.allowOpenAccess <==> !d.refused && !protected)
            && (!d.refused && !protected && local ==> LoopbackWithoutAuth in d.warnings)
            && (!d.refused && !protected && !local ==> ReachableOpen in d.warnings)
            && (!d.refused && protected && !local ==> d.warnings == [ReachableProtected])
            && d.hostname == (if Lower(HostOf(input)) == LOCALHOST then IPV4_LOOPBACK else HostOf(input))
            && (local ==> d.displayHost == LOCALHOST)
            && (d.mode.Protected? <==> protected) && (d.mode.Open? <==> !input.authed)
  {
    LoopbackIsExactly(HostOf(input));
    if input.credentialTokens.Some? {
      PublishedIff(input.credentialTokens.value);
    }
    TrimIsIdempotent(if input.host.Some? then input.host.value else IPV4_LOOPBACK);
    if Lower(HostOf(input)) == LOCALHOST {
      LocalhostIsLocal(HostOf(input));
    }
  }

  lemma {:induction false} LocalhostIsLocal(host: Text)
    requires Trim(host) == host && Lower(host) == LOCALHOST
    ensures IsLoopback(host)
  {}

  // ----- bind.ts -----

  datatype BindChoice = BindChoice(hostname: Text, displayHost: Text, exposed: bool, authed: bool, shippedCredential: bool, mode: AuthMode)

  /** bind.ts `resolveBind`; `None` when it throws. */
  function ResolveBind(input: Input): Option<BindChoice> {
    var host := HostOf(input);
    var shipped := if input.credentialTokens.Some? then IsPublishedDevCredential(input.credentialTokens.value) else false;
    var authed := input.authed && !shipped;
    var mode := if !input.authed then Open else if shipped then ShippedDevToken else Protected;
    if IsLoopback(host) then
      Some(BindChoice(if Lower(host) == LOCALHOST then IPV4_LOOPBACK else host, LOCALHOST, false, authed, shipped, mode))
    else if !authed && !input.allowOpenNetwork then None
    else
      var display := if host == IPV4_WILDCARD || host == IPV6_WILDCARD then LOCALHOST else host;
      Some(BindChoice(host, display, true, authed, shipped, mode))
  }

  /** The spellings that only one of the copies takes for a wildcard. */
  const BRACKETED: set<Text> :=
    {[OPEN] + IPV4_WILDCARD, IPV4_WILDCARD + [CLOSE], [OPEN] + IPV4_WILDCARD + [CLOSE],
     [OPEN] + IPV6_WILDCARD, IPV6_WILDCARD + [CLOSE], [OPEN] + IPV6_WILDCARD + [CLOSE]}

  /**
   * The two implementations agree for every host, credential set and flag combination: they refuse
   * together, and otherwise answer alike, except that what they print differs for exactly the six
   * bracketed wildcards.
   */
  lemma {:induction false} CopiesAgree(input: Input)
    ensures var d, b := DecideExposure(input), ResolveBind(input);
            && (d.refused <==> b.None?)
            && (b.Some? ==>
                  && b.value.hostname == d.hostname && b.value.exposed == d.exposed && b.value.authed == d.authed
                  && b.value.shippedCredential == d.shippedCredential && b.value.mode == d.mode
                  && (b.value.displayHost != d.displayHost <==> HostOf(input) in BRACKETED))
  {
    var raw := HostOf(input);
    TrimIsIdempotent(if input.host.Some? then input.host.value else IPV4_LOOPBACK);
    WildcardSpellings(raw);
    if IsWildcard(raw) {
      WildcardIsNotLoopback(raw);
    }
    BracketedAreNotPlain();
  }

  /** Removing one bracket at each end leaves `w` exactly for these four texts. */
  lemma {:induction false} BracketSpellings(l: Text, w: Text)
    requires w != [] && w[0] != OPEN && w[|w| - 1] != CLOSE
    ensures StripClose(StripOpen(l)) == w <==>
            l == w || l == [OPEN] + w || l == w + [CLOSE] || l == [OPEN] + w + [CLOSE]
  {
    var m := StripOpen(l);
    assert l != [] && l[0] == OPEN ==> l == [OPEN] + m;
    assert m != [] && m[|m| - 1] == CLOSE ==> m == StripClose(m) + [CLOSE];
    assert ([OPEN] + w)[1..] == w;
    assert (w + [CLOSE])[..|w|] == w;
    assert ([OPEN] + w + [CLOSE])[1..] == w + [CLOSE];
    assert (w + [CLOSE])[0] == w[0];
  }

  lemma {:induction false} LowerIsExactOn(t: Text, x: Text)
    requires forall i :: 0 <= i < |x| ==> !('a' as int <= x[i] <= 'z' as int || 'A' as int <= x[i] <= 'Z' as int)
    ensures Lower(t) == x <==> t == x
  {
    if Lower(t) == x {
      forall i | 0 <= i < |t| ensures t[i] == x[i] { assert Lower(t)[i] == LowerUnit(t[i]); }
    }
    if t == x {
      forall i | 0 <= i < |t| ensures Lower(t)[i] == t[i] { assert Lower(t)[i] == LowerUnit(t[i]); }
    }
  }

  lemma {:induction false} SpellingsOf(raw: Text, w: Text)
    requires Trim(raw) == raw && w != [] && w[0] != OPEN && w[|w| - 1] != CLOSE
    requires forall i :: 0 <= i < |w| ==> !('a' as int <= w[i] <= 'z' as int || 'A' as int <= w[i] <= 'Z' as int)
    ensures Normalize(raw) == w <==> raw == w || raw == [OPEN] + w || raw == w + [CLOSE] || raw == [OPEN] + w + [CLOSE]
  {
    BracketSpellings(Lower(raw), w);
    LowerIsExactOn(raw, w);
    LowerIsExactOn(raw, [OPEN] + w);
    LowerIsExactOn(raw, w + [CLOSE]);
    LowerIsExactOn(raw, [OPEN] + w + [CLOSE]);
  }

  lemma {:induction false} WildcardSpellings(raw: Text)
    requires Trim(raw) == raw
    ensures IsWildcard(raw) <==> raw == IPV4_WILDCARD || raw == IPV6_WILDCARD || raw in BRACKETED
  {
    SpellingsOf(raw, IPV4_WILDCARD);
    SpellingsOf(raw, IPV6_WILDCARD);
  }

  lemma {:induction false} WildcardIsNotLoopback(raw: Text)
    requires IsWildcard(raw)
    ensures !IsLoopback(raw)
  {
    ZeroIsNotLoopback();
    assert DigitRun(IPV6_WILDCARD) == 0;
  }

  lemma {:induction false} ZeroIsNotLoopback()
    ensures !IsLoopbackAddress(IPV4_WILDCARD)
  {
    var zero: Text := ['0' as int];
    assert Value(zero) == 0 by { assert zero[..0] == []; }
    var t := IPV4_WILDCARD[2..];
    assert IPV4_WILDCARD == zero + ([DOT] + t);
    RunEndsAt(zero, [DOT] + t);
    assert IPV4_WILDCARD[..1] == zero;
  }

  lemma {:induction false} BracketedAreNotPlain()
    ensures forall t :: t in BRACKETED ==> t != IPV4_WILDCARD && t != IPV6_WILDCARD && t != LOCALHOST
  {
    forall t | t in BRACKETED ensures t[0] == OPEN || t[|t| - 1] == CLOSE {}
  }

  lemma {:induction false} TrimIsIdempotent(t: Text)
    ensures Trim(Trim(t)) == Trim(t)
    decreases |t|
  {
    if t != [] && IsSpace(t[0]) {
      TrimIsIdempotent(t[1..]);
    } else if t != [] && IsSpace(t[|t| - 1]) {
      TrimIsIdempotent(t[..|t| - 1]);
    }
  }
}
