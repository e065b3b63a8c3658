/** The bearer-token cache in front of the streaming catalog: an OAuth 2.0
    client-credentials grant (section 4.4 of RFC 6749) whose `expires_in` is a
    lifetime in seconds (section 5.1 of RFC 6749), cached until it runs out. */
module TokenCache {

  /** `expires_in` is in seconds, the cache's clock in milliseconds. */
  const MillisPerSecond: int := 1000

  /** The answer of the token endpoint to one issuance request. */
  datatype Issuance =
    | Success(accessToken: string, expiresInSeconds: int)
    | Failure

  /** What a caller of the cache gets: a bearer token, or the error thrown by
      the failed issuance request. */
  datatype TokenOutcome = Token(value: string) | AcquisitionError

  /** The two process-wide variables: the token ("" when absent) and the
      absolute expiry time in milliseconds. */
  datatype Cache = Cache(token: string, expiry: int)

  /** The state at process start. */
  const Initial: Cache := Cache("", 0)

  /** The cached token may be handed out at time `now`. */
  predicate Reusable(c: Cache, now: int) {
    c.token != "" && now < c.expiry
  }

  /** The absolute expiry of a token whose lifetime `seconds` starts at `receivedAt`. */
  function ExpiryAt(receivedAt: int, seconds: int): (t: int)
    ensures seconds > 0 ==> t > receivedAt
    ensures seconds <= 0 ==> t <= receivedAt
  {
    receivedAt + seconds * MillisPerSecond
  }

  /** The effect of one call: the new state, what the caller gets, and whether
      an issuance request went out. */
  datatype Step = Step(cache: Cache, outcome: TokenOutcome, requested: bool)

  /** One call of the cache at clock reading `now`. When it has to refresh, the
      endpoint answers `issuance` and the clock reads `receivedAt` once the
      answer is in (the source reads the clock a second time after the await). */
  function Lookup(c: Cache, now: int, issuance: Issuance, receivedAt: int): (r: Step)
    // exactly one request when the cache is absent or expired, none otherwise
    ensures r.requested <==> !Reusable(c, now)
    // reuse: the cached token, and nothing changes
    ensures Reusable(c, now) ==> r.outcome == Token(c.token) && r.cache == c
    // refresh: the new token is stored, its lifetime converted to milliseconds
    ensures !Reusable(c, now) && issuance.Success? ==>
      r.cache.token == issuance.accessToken &&
      r.cache.expiry == receivedAt + issuance.expiresInSeconds * MillisPerSecond
    // the caller always gets exactly what is now stored
    ensures r.outcome.Token? ==> r.outcome.value == r.cache.token
    // failure isolation: an error, and the old state kept
    ensures r.outcome.AcquisitionError? <==> !Reusable(c, now) && issuance.Failure?
    ensures r.outcome.AcquisitionError? ==> r.cache == c
  {
    if Reusable(c, now) then
      Step(c, Token(c.token), false)
    else
      match issuance
      case Failure => Step(c, AcquisitionError, true)
      case Success(token, seconds) =>
        var c' := Cache(token, ExpiryAt(receivedAt, seconds));
        Step(c', Token(c'.token), true)
  }

  /** One call made on the cache: the clock when it starts, the endpoint's
      answer should it refresh, and the clock when that answer is in. */
  datatype Call = Call(now: int, issuance: Issuance, receivedAt: int)

  /** The effect of a sequence of calls, made one after another. */
  datatype Trace = Trace(cache: Cache, outcomes: seq<TokenOutcome>, requests: nat)

  function Run(c: Cache, calls: seq<Call>): (r: Trace)
    ensures |r.outcomes| == |calls|
    ensures r.requests <= |calls|
    decreases |calls|
  {
    if calls == [] then Trace(c, [], 0)
    else
      var s := Lookup(c, calls[0].now, calls[0].issuance, calls[0].receivedAt);
      var rest := Run(s.cache, calls[1..]);
      Trace(rest.cache, [s.outcome] + rest.outcomes, rest.requests + (if s.requested then 1 else 0))
  }

  /** Any number of calls made while a non-empty token is unexpired all receive
      that token, make no issuance request and leave the cache as it was. */
  lemma {:induction false} RunWithinLifetime(c: Cache, calls: seq<Call>)
    requires c.token != ""
    requires forall i :: 0 <= i < |calls| ==> calls[i].now < c.expiry
    ensures Run(c, calls).cache == c
    ensures Run(c, calls).requests == 0
    ensures forall i :: 0 <= i < |calls| ==> Run(c, calls).outcomes[i] == Token(c.token)
    decreases |calls|
  {
    if calls != [] {
      assert forall i :: 0 <= i < |calls[1..]| ==> calls[1..][i].now < c.expiry by {
        forall i | 0 <= i < |calls[1..]| ensures calls[1..][i].now < c.expiry {
          assert calls[1..][i] == calls[i + 1];
        }
      }
      RunWithinLifetime(c, calls[1..]);
    }
  }

  /** Failed issuance requests never change the cache, however many there are:
      when every call's endpoint answer is a failure, the state is untouched. */
  lemma {:induction false} FailuresKeepCache(c: Cache, calls: seq<Call>)
    requires forall i :: 0 <= i < |calls| ==> calls[i].issuance.Failure?
    ensures Run(c, calls).cache == c
    decreases |calls|
  {
    if calls != [] {
      assert forall i :: 0 <= i < |calls[1..]| ==> calls[1..][i].issuance.Failure? by {
        forall i | 0 <= i < |calls[1..]| ensures calls[1..][i].issuance.Failure? {
          assert calls[1..][i] == calls[i + 1];
        }
      }
      FailuresKeepCache(c, calls[1..]);
    }
  }

  /** A token issued at `receivedAt` with a lifetime of `seconds` is reused by
      every later call made strictly before `seconds` have elapsed, and by no
      call made once they have. */
  lemma ReusedForItsLifetime(c: Cache, now: int, token: string, seconds: int, receivedAt: int, later: int)
    requires !Reusable(c, now) && token != ""
    ensures var c' := Lookup(c, now, Success(token, seconds), receivedAt).cache;
      Reusable(c', later) <==> later - receivedAt < seconds * MillisPerSecond
  {
  }

  /** An endpoint that issues an empty `access_token` leaves the cache absent:
      the next call requests again, whatever the lifetime. */
  lemma EmptyTokenNotReused(c: Cache, now: int, seconds: int, receivedAt: int, later: int)
    requires !Reusable(c, now)
    ensures var c' := Lookup(c, now, Success("", seconds), receivedAt).cache;
      Lookup(c', later, Failure, later).requested
  {
  }

  /** Three calls an hour apart in the life of the process: the first call
      fetches a token valid for 3600 seconds, a call ten seconds later reuses it,
      and a call 3601 seconds after the first fetches again. */
  lemma ThreeCallScenario(t0: int)
    ensures var calls := [
        Call(t0, Success("first", 3600), t0),
        Call(t0 + 10000, Success("unused", 3600), t0 + 10000),
        Call(t0 + 3601000, Success("second", 3600), t0 + 3601000)];
      var r := Run(Initial, calls);
      r.outcomes == [Token("first"), Token("first"), Token("second")] &&
      r.requests == 2 &&
      r.cache == Cache("second", t0 + 7201000)
  {
    var calls := [
        Call(t0, Success("first", 3600), t0),
        Call(t0 + 10000, Success("unused", 3600), t0 + 10000),
        Call(t0 + 3601000, Success("second", 3600), t0 + 3601000)];
    var c1 := Cache("first", t0 + 3600000);
    var c2 := Cache("second", t0 + 7201000);
    assert Run(c2, calls[3..]) == Trace(c2, [], 0);
    assert Run(c1, calls[2..]) == Trace(c2, [Token("second")], 1);
    assert Run(c1, calls[1..]) == Trace(c2, [Token("first"), Token("second")], 1);
  }

  /** The process-wide cache. */
  class TokenManager {
    var token: string
    var expiry: int

    /** The state as a value. */
    function State(): Cache
      reads this
    {
      Cache(token, expiry)
    }

    /** The state at process start: no token, expiry 0. */
    constructor ()
      ensures State() == Initial
    {
      token := "";
      expiry := 0;
    }

    /** Returns a bearer token, reusing the cached one while it is unexpired and
        refreshing it otherwise; `requested` says whether the issuance request
        was sent (and `issuance` consumed). */
    method GetToken(now: int, issuance: Issuance, receivedAt: int)
      returns (outcome: TokenOutcome, requested: bool)
      modifies this
      ensures Lookup(old(State()), now, issuance, receivedAt) == Step(State(), outcome, requested)
      ensures outcome.AcquisitionError? ==> token == old(token) && expiry == old(expiry)
    {
      if Reusable(State(), now) {
        return Token(token), false;
      }
      requested := true;
      match issuance
      case Failure =>
        outcome := AcquisitionError;
      case Success(accessToken, seconds) =>
        token := accessToken;
        expiry := ExpiryAt(receivedAt, seconds);
        outcome := Token(token);
    }
  }
}
