/** The SAML assertion replay cache (auth/saml_replay.py) and its use by the verifier (auth/saml_verifier.py).

    The parser is taken to let an assertion through strictly before its NotOnOrAfter plus the clock skew. */
module SamlReplay {
  import opened Prelude

  const SECOND := 1_000_000  // the clock counts microseconds
  const SKEW_SECONDS := 60
  const TTL_MIN := 1
  const TTL_MAX := 86_400

  datatype Assertion = Assertion(id: string, notOnOrAfter: int)

  /** The instant from which the parser refuses the assertion. */
  function Deadline(a: Assertion): int { a.notOnOrAfter + SKEW_SECONDS * SECOND }

  /** int() of a number of seconds drops the fraction, towards zero. */
  function WholeSeconds(microseconds: int): int {
    if microseconds >= 0 then microseconds / SECOND else -(-microseconds / SECOND)
  }

  function RequestedTtl(a: Assertion, now: int): int {
    Max(1, WholeSeconds(a.notOnOrAfter - now) + SKEW_SECONDS)
  }

  function ClampedTtl(ttl: int): int { Max(TTL_MIN, Min(TTL_MAX, ttl)) }

  /** SET NX EX: the key and the instant it vanishes. */
  predicate Seen(store: map<string, int>, id: string, at: int) { id in store && at < store[id] }

  function Marked(store: map<string, int>, id: string, ttl: int, at: int): map<string, int> {
    if Seen(store, id, at) then store else store[id := at + ClampedTtl(ttl) * SECOND]
  }

  /* ---------- runs: any number of responses under verification at once ---------- */

  /** A response that passed the parser, and the instant its TTL was computed at, once it has been. */
  datatype Pending = Pending(assertion: Assertion, read: Option<int>)

  /** An identifier marked for the first time, and the instant of the clock its TTL came from. */
  datatype Acceptance = Acceptance(id: string, at: int, read: int)

  datatype State = State(now: int, store: map<string, int>, pending: map<nat, Pending>, accepted: seq<Acceptance>)

  datatype Event =
    | Parse(at: int, request: nat, assertion: Assertion)  // the parser passes
    | ReadClock(at: int, request: nat)                    // the TTL is computed
    | Mark(at: int, request: nat)                         // the SET NX EX of that request reaches Redis

  const Empty := State(0, map[], map[], [])

  predicate Enabled(s: State, e: Event) {
    s.now <= e.at &&
    match e
    case Parse(at, r, a) => r !in s.pending && at < Deadline(a)
    case ReadClock(_, r) => r in s.pending && s.pending[r].read.None?
    case Mark(_, r) => r in s.pending && s.pending[r].read.Some?
  }

  function Apply(s: State, e: Event): State
    requires Enabled(s, e)
  {
    match e
    case Parse(at, r, a) => s.(now := at, pending := s.pending[r := Pending(a, None)])
    case ReadClock(at, r) =>
      s.(now := at, pending := s.pending[r := s.pending[r].(read := Some(at))])
    case Mark(at, r) =>
      var p := s.pending[r];
      var id := p.assertion.id;
      State(at, Marked(s.store, id, RequestedTtl(p.assertion, p.read.value), at), s.pending - {r},
            if Seen(s.store, id, at) then s.accepted else s.accepted + [Acceptance(id, at, p.read.value)])
  }

  ghost predicate IsRun(s: State, events: seq<Event>, s': State)
    decreases |events|
  {
    if events == [] then s' == s
    else Enabled(s, events[0]) && IsRun(Apply(s, events[0]), events[1..], s')
  }

  function TimesAccepted(accepted: seq<Acceptance>, id: string): nat {
    if accepted == [] then 0
    else TimesAccepted(accepted[..|accepted| - 1], id) + if accepted[|accepted| - 1].id == id then 1 else 0
  }

  /* ---------- when the key outlives the assertion ---------- */

  /** The key set with the TTL computed at `now` is still there when the parser starts refusing the assertion. */
  predicate Outlives(a: Assertion, now: int) { Deadline(a) <= now + ClampedTtl(RequestedTtl(a, now)) * SECOND }

  /** That is so exactly when at most a day is left, skew included, and what is left is a whole number of
      seconds or NotOnOrAfter has passed: the fraction int() drops is otherwise missing from the key. */
  lemma OutlivesExactlyWhen(a: Assertion, now: int)
    ensures var left := a.notOnOrAfter - now;
            && (Outlives(a, now) <==> left <= 86_340_000_000 && (left <= 0 || left % 1_000_000 == 0))
            && Deadline(a) == a.notOnOrAfter + 60_000_000
  {
    var left := a.notOnOrAfter - now;
    if left >= 0 {
      assert left == left / SECOND * SECOND + left % SECOND;
    } else {
      assert -left == (-left) / SECOND * SECOND + (-left) % SECOND;
    }
  }

  /* ---------- single acceptance ---------- */

  /** In this step of a run, identifiers are not reused, the key covers the assertion, and a request that passed
      the parser reaches Redis before the assertion's deadline. */
  ghost predicate Punctual(s: State, e: Event, a: Assertion)
    requires Enabled(s, e)
  {
    match e
    case Parse(at, _, b) => b.id == a.id ==> b == a
    case ReadClock(at, r) => s.pending[r].assertion.id == a.id ==> Outlives(a, at)
    case Mark(at, r) => s.pending[r].assertion.id == a.id ==> at < Deadline(a)
  }

  ghost predicate PunctualRun(s: State, events: seq<Event>, a: Assertion)
    decreases |events|
  {
    events == [] ||
    (Enabled(s, events[0]) && Punctual(s, events[0], a) && PunctualRun(Apply(s, events[0]), events[1..], a))
  }

  ghost predicate AtMostOnce(s: State, a: Assertion) {
    && TimesAccepted(s.accepted, a.id) <= 1
    && (TimesAccepted(s.accepted, a.id) == 1 ==> a.id in s.store && Deadline(a) <= s.store[a.id])
    && (forall r :: r in s.pending && s.pending[r].assertion.id == a.id
          ==> && s.pending[r].assertion == a
              && (s.pending[r].read.Some? ==>
                    s.pending[r].read.value <= s.now && Outlives(a, s.pending[r].read.value)))
  }

  lemma StepKeepsAtMostOnce(s: State, e: Event, a: Assertion)
    requires Enabled(s, e) && Punctual(s, e, a) && AtMostOnce(s, a)
    ensures AtMostOnce(Apply(s, e), a)
  {
    if e.Mark? {
      var p := s.pending[e.request];
      var b := Acceptance(p.assertion.id, e.at, p.read.value);
      assert (s.accepted + [b])[..|s.accepted|] == s.accepted;
    }
  }

  lemma {:induction false} RunKeepsAtMostOnce(s: State, events: seq<Event>, s': State, a: Assertion)
    requires IsRun(s, events, s') && PunctualRun(s, events, a) && AtMostOnce(s, a)
    ensures AtMostOnce(s', a)
    decreases |events|
  {
    if events != [] {
      StepKeepsAtMostOnce(s, events[0], a);
      RunKeepsAtMostOnce(Apply(s, events[0]), events[1..], s', a);
    }
  }

  /** However many copies of an assertion arrive, in whatever order their checks interleave and whichever keys
      expire in between, one is accepted. */
  lemma AcceptedAtMostOnce(events: seq<Event>, s: State, a: Assertion)
    requires IsRun(Empty, events, s) && PunctualRun(Empty, events, a)
    ensures TimesAccepted(s.accepted, a.id) <= 1
  {
    RunKeepsAtMostOnce(Empty, events, s, a);
  }

  /** With a clock of whole seconds and at most a day left at each arrival, every key covers its assertion. */
  lemma WholeSecondClockOutlives(a: Assertion, now: int)
    requires now % SECOND == 0 && a.notOnOrAfter % SECOND == 0
    requires Deadline(a) - now <= TTL_MAX * SECOND
    ensures Outlives(a, now)
  {
    OutlivesExactlyWhen(a, now);
  }

  /** A step of a run by a whole-second clock, in which identifiers are not reused, at most a day is left of this
      assertion when its TTL is computed, and it is marked before its deadline. */
  predicate Orderly(s: State, e: Event, a: Assertion)
    requires Enabled(s, e)
  {
    && e.at % SECOND == 0
    && match e
       case Parse(_, _, b) => b.id == a.id ==> b == a
       case ReadClock(at, r) => s.pending[r].assertion.id == a.id ==> Deadline(a) - at <= TTL_MAX * SECOND
       case Mark(at, r) => s.pending[r].assertion.id == a.id ==> at < Deadline(a)
  }

  ghost predicate OrderlyRun(s: State, events: seq<Event>, a: Assertion)
    decreases |events|
  {
    events == [] ||
    (Enabled(s, events[0]) && Orderly(s, events[0], a) && OrderlyRun(Apply(s, events[0]), events[1..], a))
  }

  lemma {:induction false} OrderlyIsPunctual(s: State, events: seq<Event>, a: Assertion)
    requires OrderlyRun(s, events, a) && a.notOnOrAfter % SECOND == 0
    ensures PunctualRun(s, events, a)
    decreases |events|
  {
    if events != [] {
      var e := events[0];
      if e.ReadClock? && s.pending[e.request].assertion.id == a.id {
        WholeSecondClockOutlives(a, e.at);
      }
      hide Outlives, Apply, Enabled;
      OrderlyIsPunctual(Apply(s, e), events[1..], a);
    }
  }

  /** With a clock of whole seconds, an assertion of which at most a day is left, skew included, is accepted at most
      once, across concurrent arrivals and expiring keys, if it is marked before its deadline. */
  lemma AcceptedAtMostOnceByWholeSeconds(events: seq<Event>, s: State, a: Assertion)
    requires IsRun(Empty, events, s) && OrderlyRun(Empty, events, a) && a.notOnOrAfter % SECOND == 0
    ensures TimesAccepted(s.accepted, a.id) <= 1
  {
    OrderlyIsPunctual(Empty, events, a);
    AcceptedAtMostOnce(events, s, a);
  }

  lemma {:induction false} RunThenStep(s: State, events: seq<Event>, s': State, e: Event)
    requires IsRun(s, events, s') && Enabled(s', e)
    ensures IsRun(s, events + [e], Apply(s', e))
    decreases |events|
  {
    hide Enabled, Apply;
    if events == [] {
      assert IsRun(Apply(s, e), [], Apply(s, e));
      assert [e][1..] == [] && events + [e] == [e];
    } else {
      RunThenStep(Apply(s, events[0]), events[1..], s', e);
      assert (events + [e])[1..] == events[1..] + [e];
    }
  }

  /** A copy that is parsed, timed and marked in one instant, with no key in its way. */
  lemma AcceptNow(s0: State, before: seq<Event>, s: State, request: nat, a: Assertion, now: int)
    returns (events: seq<Event>, s': State)
    requires IsRun(s0, before, s) && s.now <= now < Deadline(a) && request !in s.pending && !Seen(s.store, a.id, now)
    ensures IsRun(s0, events, s')
    ensures s' == State(now, s.store[a.id := now + ClampedTtl(RequestedTtl(a, now)) * SECOND], s.pending,
                        s.accepted + [Acceptance(a.id, now, now)])
    ensures events == before + [Parse(now, request, a), ReadClock(now, request), Mark(now, request)]
  {
    hide IsRun, ClampedTtl, RequestedTtl, Deadline;
    var e1, e2, e3 := Parse(now, request, a), ReadClock(now, request), Mark(now, request);
    var s1 := Apply(s, e1);
    var s2 := Apply(s1, e2);
    RunThenStep(s0, before, s, e1);
    RunThenStep(s0, before + [e1], s1, e2);
    RunThenStep(s0, before + [e1] + [e2], s2, e3);
    events, s' := before + [e1] + [e2] + [e3], Apply(s2, e3);
    assert s2.pending - {request} == s.pending;
    assert events == before + [e1, e2, e3];
  }

  lemma TwoAcceptances(x: Acceptance, y: Acceptance)
    requires x.id == y.id
    ensures TimesAccepted([x, y], x.id) == 2 && FirstRead([x, y], x.id) == Some(x.read)
  {
    OneMoreAcceptance([], x, x.id);
    OneMoreAcceptance([] + [x], y, x.id);
    assert [] + [x] + [y] == [x, y];
  }

  /** The coverage condition is needed: without it the assertion is accepted again when the key is gone, by a
      request that is checked and marked in the same instant, before the deadline. */
  lemma AcceptedTwiceWhenUncovered(a: Assertion, now: int) returns (events: seq<Event>, s: State)
    requires 0 <= now < Deadline(a) && !Outlives(a, now)
    ensures IsRun(Empty, events, s) && TimesAccepted(s.accepted, a.id) == 2
    ensures forall k :: 0 <= k < |events| ==>
              events[k].at < Deadline(a) && (events[k].Parse? ==> events[k].assertion == a)
    ensures FirstRead(s.accepted, a.id) == Some(now)
  {
    hide TimesAccepted, FirstRead;
    var again := now + ClampedTtl(RequestedTtl(a, now)) * SECOND;
    assert IsRun(Empty, [], Empty);
    var e1, s1 := AcceptNow(Empty, [], Empty, 0, a, now);
    events, s := AcceptNow(Empty, e1, s1, 0, a, again);
    assert s.accepted == [Acceptance(a.id, now, now), Acceptance(a.id, again, again)];
    TwoAcceptances(Acceptance(a.id, now, now), Acceptance(a.id, again, again));
  }

  /** Punctuality is needed: a second copy checked in time but marked after the key has gone is accepted too. */
  lemma AcceptedTwiceWhenLate(a: Assertion, now: int) returns (events: seq<Event>, s: State)
    requires 0 <= now < Deadline(a)
    ensures IsRun(Empty, events, s) && TimesAccepted(s.accepted, a.id) == 2
    ensures forall k :: 0 <= k < |events| && events[k].Parse? ==> events[k].at == now
  {
    var late := now + ClampedTtl(RequestedTtl(a, now)) * SECOND;
    var e1, e2 := Parse(now, 1, a), ReadClock(now, 1);
    var s1 := Apply(Empty, e1);
    var s2 := Apply(s1, e2);
    assert IsRun(Empty, [], Empty);
    RunThenStep(Empty, [], Empty, e1);
    RunThenStep(Empty, [] + [e1], s1, e2);
    var before, s3 := AcceptNow(Empty, [] + [e1] + [e2], s2, 0, a, now);
    RunThenStep(Empty, before, s3, Mark(late, 1));
    events, s := before + [Mark(late, 1)], Apply(s3, Mark(late, 1));
    assert s.accepted == [Acceptance(a.id, now, now), Acceptance(a.id, late, now)];
    TwoAcceptances(Acceptance(a.id, now, now), Acceptance(a.id, late, now));
  }

  /* ---------- exactly which keys let no second copy through ---------- */

  /** In this step identifiers are not reused and the assertion is marked before its deadline; any key will do. */
  predicate InTime(s: State, e: Event, a: Assertion)
    requires Enabled(s, e)
  {
    match e
    case Parse(_, _, b) => b.id == a.id ==> b == a
    case ReadClock(_, _) => true
    case Mark(at, r) => s.pending[r].assertion.id == a.id ==> at < Deadline(a)
  }

  ghost predicate InTimeRun(s: State, events: seq<Event>, a: Assertion)
    decreases |events|
  {
    events == [] ||
    (Enabled(s, events[0]) && InTime(s, events[0], a) && InTimeRun(Apply(s, events[0]), events[1..], a))
  }

  /** The instant of the clock that the key of the first acceptance was computed from. */
  function FirstRead(accepted: seq<Acceptance>, id: string): (read: Option<int>)
    ensures read.None? <==> TimesAccepted(accepted, id) == 0
  {
    if accepted == [] then None
    else
      var last := accepted[|accepted| - 1];
      var before := FirstRead(accepted[..|accepted| - 1], id);
      if before.Some? then before else if last.id == id then Some(last.read) else None
  }

  lemma OneMoreAcceptance(accepted: seq<Acceptance>, x: Acceptance, id: string)
    ensures TimesAccepted(accepted + [x], id) == TimesAccepted(accepted, id) + if x.id == id then 1 else 0
    ensures FirstRead(accepted + [x], id)
            == if FirstRead(accepted, id).None? && x.id == id then Some(x.read) else FirstRead(accepted, id)
  {
    assert (accepted + [x])[..|accepted|] == accepted;
  }

  lemma StepKeepsFirst(s: State, e: Event, id: string)
    requires Enabled(s, e)
    ensures FirstRead(s.accepted, id).Some? ==> FirstRead(Apply(s, e).accepted, id) == FirstRead(s.accepted, id)
  {
    hide FirstRead;
    if e.Mark? {
      var p := s.pending[e.request];
      OneMoreAcceptance(s.accepted, Acceptance(p.assertion.id, e.at, p.read.value), id);
    }
  }

  lemma {:induction false} RunKeepsFirst(s: State, events: seq<Event>, s': State, id: string)
    requires IsRun(s, events, s')
    ensures FirstRead(s.accepted, id).Some? ==> FirstRead(s'.accepted, id) == FirstRead(s.accepted, id)
    decreases |events|
  {
    if events != [] {
      StepKeepsFirst(s, events[0], id);
      RunKeepsFirst(Apply(s, events[0]), events[1..], s', id);
    }
  }

  /** Once the assertion has been accepted its key stays to the deadline. */
  ghost predicate AcceptedIsCovered(s: State, a: Assertion) {
    && (forall r :: r in s.pending && s.pending[r].assertion.id == a.id ==>
          s.pending[r].assertion == a && (s.pending[r].read.Some? ==> s.pending[r].read.value <= s.now))
    && TimesAccepted(s.accepted, a.id) <= 1
    && (TimesAccepted(s.accepted, a.id) == 1 ==> a.id in s.store && Deadline(a) <= s.store[a.id])
  }

  lemma StepKeepsCovered(s: State, e: Event, a: Assertion, now: int)
    requires Enabled(s, e) && InTime(s, e, a) && AcceptedIsCovered(s, a) && Outlives(a, now)
    requires FirstRead(Apply(s, e).accepted, a.id) in {None, Some(now)}
    ensures AcceptedIsCovered(Apply(s, e), a)
  {
    hide FirstRead, TimesAccepted, ClampedTtl, RequestedTtl;
    if e.Mark? {
      var p := s.pending[e.request];
      OneMoreAcceptance(s.accepted, Acceptance(p.assertion.id, e.at, p.read.value), a.id);
    }
  }

  lemma {:induction false} RunKeepsCovered(s: State, events: seq<Event>, s': State, a: Assertion, now: int)
    requires IsRun(s, events, s') && InTimeRun(s, events, a) && AcceptedIsCovered(s, a) && Outlives(a, now)
    requires FirstRead(s'.accepted, a.id) in {None, Some(now)}
    ensures AcceptedIsCovered(s', a)
    decreases |events|
  {
    if events != [] {
      var s1 := Apply(s, events[0]);
      RunKeepsFirst(s1, events[1..], s', a.id);
      StepKeepsCovered(s, events[0], a, now);
      hide FirstRead, AcceptedIsCovered, Outlives, Apply, Enabled;
      RunKeepsCovered(s1, events[1..], s', a, now);
    }
  }

  lemma {:induction false} EarlyIsInTime(s: State, events: seq<Event>, s': State, a: Assertion)
    requires IsRun(s, events, s')
    requires forall k :: 0 <= k < |events| ==>
               events[k].at < Deadline(a) && (events[k].Parse? ==> events[k].assertion == a)
    ensures InTimeRun(s, events, a)
    decreases |events|
  {
    hide Deadline, Apply;
    if events != [] {
      assert forall k :: 0 <= k < |events| - 1 ==> events[1..][k] == events[k + 1];
      EarlyIsInTime(Apply(s, events[0]), events[1..], s', a);
    }
  }

  /** A key computed at some instant outlives its assertion exactly when no run in which it is the one that the first
      acceptance sets lets a second copy through; other copies may compute whatever keys they like. */
  lemma CoversExactlyWhen(a: Assertion, now: nat)
    ensures Outlives(a, now)
            <==> forall events, s ::
                   IsRun(Empty, events, s) && InTimeRun(Empty, events, a) && FirstRead(s.accepted, a.id) == Some(now)
                   ==> TimesAccepted(s.accepted, a.id) == 1
  {
    if Outlives(a, now) {
      forall events, s |
        IsRun(Empty, events, s) && InTimeRun(Empty, events, a) && FirstRead(s.accepted, a.id) == Some(now)
        ensures TimesAccepted(s.accepted, a.id) == 1
      {
        RunKeepsCovered(Empty, events, s, a, now);
      }
    } else {
      OutlivesExactlyWhen(a, now);
      var events, s := AcceptedTwiceWhenUncovered(a, now);
      EarlyIsInTime(Empty, events, s, a);
    }
  }

  /* ---------- one response verified without interruption ---------- */

  datatype SamlError = Signature | Timing | Audience | Replay

  /** What the SAML library makes of a response. */
  datatype Parsed =
    | StatusError
    | Raised(name: string)
    | NoResponse
    | NoAssertion
    | Parsed(id: string, notOnOrAfter: Option<int>)

  /** The three steps of one request, one after the other. */
  predicate IsRequest(s: State, r: nat, a: Assertion, parsedAt: int, now: int, markedAt: int, s': State) {
    && Enabled(s, Parse(parsedAt, r, a))
    && var s1 := Apply(s, Parse(parsedAt, r, a));
       && Enabled(s1, ReadClock(now, r))
       && var s2 := Apply(s1, ReadClock(now, r));
          Enabled(s2, Mark(markedAt, r)) && s' == Apply(s2, Mark(markedAt, r))
  }

  lemma RequestIs(s: State, r: nat, a: Assertion, parsedAt: int, now: int, markedAt: int)
    requires s.now <= parsedAt <= now <= markedAt && r !in s.pending && parsedAt < Deadline(a)
    ensures IsRequest(s, r, a, parsedAt, now, markedAt,
                      State(markedAt, Marked(s.store, a.id, RequestedTtl(a, now), markedAt), s.pending,
                            if Seen(s.store, a.id, markedAt) then s.accepted
                            else s.accepted + [Acceptance(a.id, markedAt, now)]))
  {
    var s2 := Apply(Apply(s, Parse(parsedAt, r, a)), ReadClock(now, r));
    assert s2.pending - {r} == s.pending;
  }

  class Verifier {
    var state: State

    constructor ()
      ensures state == Empty
    {
      state := Empty;
    }

    method MarkSeen(id: string, ttlSeconds: int, at: int) returns (first: bool)
      modifies this
      ensures first == !Seen(old(state).store, id, at)
      ensures state == old(state).(store := Marked(old(state).store, id, ttlSeconds, at))
      ensures first ==>
                && id in state.store
                && state.store[id] == at + 1_000_000 * (if ttlSeconds < 1 then 1
                                                        else if ttlSeconds > 86_400 then 86_400 else ttlSeconds)
                && state.store == old(state).store[id := state.store[id]]
    {
      var ttl := Max(TTL_MIN, Min(TTL_MAX, ttlSeconds));
      first := !(id in state.store && at < state.store[id]);
      if first {
        state := state.(store := state.store[id := at + ttl * SECOND]);
      }
    }

    /** The three steps of one request, or a refusal that changes nothing; a replay leaves the store as it is. The
        parser let the response through at `parsedAt`; the clock is read later, and Redis answers later still. */
    method VerifyAndExtract(response: Parsed, request: nat, parsedAt: int, now: int, markedAt: int)
      returns (r: Result<Assertion, SamlError>)
      requires state.now <= parsedAt <= now <= markedAt && request !in state.pending
      requires response.Parsed? && response.notOnOrAfter.Some?
               ==> parsedAt < Deadline(Assertion(response.id, response.notOnOrAfter.value))
      modifies this
      ensures response.Parsed? && response.notOnOrAfter.Some? ==>
                var a := Assertion(response.id, response.notOnOrAfter.value);
                && IsRequest(old(state), request, a, parsedAt, now, markedAt, state)
                && r == if Seen(old(state).store, a.id, markedAt) then Failure(Replay) else Success(a)
      ensures !response.Parsed? || response.notOnOrAfter.None? ==> state == old(state) && r.Failure?
      ensures r == Failure(Timing) <==>
                || (response.Raised? && response.name in {"ToEarly", "ResponseLifetimeExceed"})
                || (response.Parsed? && response.notOnOrAfter.None?)
      ensures r == Failure(Audience) <==> response.Raised? && response.name == "NotForMe"
      ensures r == Failure(Replay) <==>
                response.Parsed? && response.notOnOrAfter.Some? && Seen(old(state).store, response.id, markedAt)
      ensures r == Failure(Signature) <==>
                || response.StatusError? || response.NoResponse? || response.NoAssertion?
                || (response.Raised? && response.name !in {"ToEarly", "ResponseLifetimeExceed", "NotForMe"})
    {
      match response {
        case StatusError => return Failure(Signature);
        case Raised(name) =>
          if name == "ToEarly" || name == "ResponseLifetimeExceed" {
            return Failure(Timing);
          }
          if name == "NotForMe" {
            return Failure(Audience);
          }
          return Failure(Signature);
        case NoResponse => return Failure(Signature);
        case NoAssertion => return Failure(Signature);
        case Parsed(id, None) => return Failure(Timing);
        case Parsed(id, Some(notOnOrAfter)) =>
          var ttl := Max(1, WholeSeconds(notOnOrAfter - now) + SKEW_SECONDS);
          var first := MarkSeen(id, ttl, markedAt);
          state := state.(now := markedAt);
          if first {
            state := state.(accepted := state.accepted + [Acceptance(id, markedAt, now)]);
          }
          RequestIs(old(state), request, Assertion(id, notOnOrAfter), parsedAt, now, markedAt);
          return if first then Success(Assertion(id, notOnOrAfter)) else Failure(Replay);
      }
    }
  }
}
