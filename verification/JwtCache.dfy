/**
 The client's cached kernel JWT: the client measures its age by its own reading before the
 request, the issuer truncates its clock, and the verifier compares against the stamped expiry.
 */
module JwtCache {
  import opened Wrappers

  /** What the verifier reads of a kernel JWT, which it accepts before `exp`. */
  datatype Jwt = Jwt(iat: int, exp: int)

  const TTL: int := 300

  /** int(now) drops the fraction of a time that is not negative. */
  function Mint(now: real): (jwt: Jwt)
    requires now >= 0.0
    ensures jwt.exp as real > now + TTL as real - 1.0
  {
    Jwt(now.Floor, now.Floor + TTL)
  }

  /** A shared clock that never goes back: the k-th reading anyone takes. */
  ghost predicate Clock(clock: nat -> real) {
    clock(0) >= 0.0 && forall i: nat, j: nat :: i <= j ==> clock(i) <= clock(j)
  }

  /** How long after it is handed out a JWT verifies, but for the second lost to truncation. */
  function Margin(skew: real): (m: real)
    ensures m <= skew && m <= 300.0 && (m == skew || m == 300.0)
  {
    if TTL as real < skew then TTL as real else skew
  }

  /**
   That second is really lost, whatever the skew: a JWT asked for at one time is handed out at the
   same time or again later, from the cache, and fails within any larger margin from then.
   */
  lemma MarginIsTight(skew: real, slack: real) returns (asked: real, again: real)
    requires 0.0 < slack <= 1.0
    ensures 0.0 <= asked <= again && (again == asked || again < asked + TTL as real - skew)
    ensures again + Margin(skew) - 1.0 + slack >= Mint(asked).exp as real
  {
    asked := 1.0 - slack / 4.0;
    assert asked.Floor == 0;
    var left := TTL as real - Margin(skew);
    again := if left < slack / 4.0 then asked else asked + left - slack / 4.0;
  }

  class Transport {
    const skew: real
    const clock: nat -> real
    var ticks: nat
    var jwt: Option<Jwt>
    var jwtExp: real

    /** The cached JWT outlives the client's own estimate of its expiry, but for a second. */
    ghost predicate Valid()
      reads this
    {
      jwt.Some? ==> jwt.value.exp as real > jwtExp - 1.0 && jwt.value.exp == jwt.value.iat + 300
    }

    constructor (skew: real, clock: nat -> real)
      ensures Valid() && this.skew == skew && this.clock == clock && ticks == 0
    {
      this.skew, this.clock := skew, clock;
      ticks, jwt, jwtExp := 0, None, 0.0;
    }

    method Now() returns (now: real)
      modifies this`ticks
      ensures now == clock(old(ticks)) && ticks == old(ticks) + 1
    {
      now := clock(ticks);
      ticks := ticks + 1;
    }

    /**
     A JWT for the Authorization header. The exchange may fail; waited is how many clock
     readings others take before the issuer takes its own.
     */
    method Bearer(succeeds: bool, waited: nat) returns (r: Option<Jwt>)
      requires Valid() && Clock(clock)
      modifies this`ticks, this`jwt, this`jwtExp
      ensures Valid()
      ensures r.None? ==> !succeeds && jwt == old(jwt) && jwtExp == old(jwtExp)
      ensures r.Some? ==> r == jwt
      ensures var asked := clock(old(ticks));
              if old(jwt).Some? && asked < old(jwtExp) - skew then r == old(jwt) && jwtExp == old(jwtExp)
              else
                && (r.Some? <==> succeeds)
                && (succeeds ==> r.value.iat == clock(old(ticks) + 1 + waited).Floor && jwtExp == asked + 300.0)
      ensures r.Some? ==> r.value.exp == r.value.iat + 300
      ensures r.Some? ==> clock(old(ticks)) + Margin(skew) - 1.0 < r.value.exp as real
    {
      var now := Now();
      if jwt.Some? && now < jwtExp - skew {
        return jwt;
      }
      if !succeeds {
        return None;
      }
      ticks := ticks + waited;
      assert clock(ticks) >= now >= clock(0);
      var minted := Mint(clock(ticks));
      ticks := ticks + 1;
      jwt, jwtExp := Some(minted), now + TTL as real;
      return jwt;
    }
  }
}
