/**
 refresh_if_needed: one caller of the single-writer refresh.

 The caller is given twice.  `Advance` says which store, clock or provider call comes
 next after each answer; `RefreshIfNeeded` is the nested loop, and is proved to make
 exactly the calls `Advance` allows, whatever the answers are.
 */
module Refresh {
  import opened Wrappers

  datatype Token = Token(access: string, refresh: string, expiresAt: real, scope: string)

  predicate IsExpired(t: Token, skew: real, now: real) {
    now + skew >= t.expiresAt
  }

  datatype Connection = Connection(token: Option<Token>)

  datatype Params = Params(skew: real, leaseTtl: real, waitTimeout: real)

  const POLL: real := 0.05

  datatype Outcome =
    | Returned(token: Token)
    | NoConnection          // KeyError
    | TimedOut              // TimeoutError
    | ProviderRaised
    | Broken                // the connection or its token vanished

  /** One outside call together with its answer. */
  datatype Event =
    | GotConnection(conn: Option<Connection>)
    | ReadClock(now: real)
    | TriedLease(until: real, now: real, granted: bool)
    | CalledProvider(given: Token, now: real, result: Option<Token>)
    | WroteToken(token: Token, now: real)
    | ReleasedLease
    | Slept
    | Probed(now: real, held: bool)

  datatype Pc =
    | Opening | FirstClock | TakingClock | Acquiring
    | Rereading | UnderClock | Asking | Saving(renewed: Token) | Freeing(result: Outcome)
    | Sleeping | WaitReading | WaitClock | Probing
    | Finished(outcome: Outcome) | Stuck

  datatype Local = Local(pc: Pc, conn: Option<Connection>, now: real, waited: real)

  const START := Local(Opening, None, 0.0, 0.0)

  predicate HasToken(conn: Option<Connection>) {
    conn.Some? && conn.value.token.Some?
  }

  predicate Fresh(p: Params, conn: Option<Connection>, now: real) {
    HasToken(conn) && !IsExpired(conn.value.token.value, p.skew, now)
  }

  /** The test of the waiting loop. */
  function WaitOn(p: Params, l: Local): Local {
    l.(pc := if l.waited < p.waitTimeout then Sleeping else Finished(TimedOut))
  }

  function Advance(p: Params, l: Local, e: Event): Local {
    match (l.pc, e)
    case (Opening, GotConnection(conn)) =>
      if HasToken(conn) then l.(pc := FirstClock, conn := conn) else l.(pc := Finished(NoConnection))
    case (FirstClock, ReadClock(now)) =>
      if Fresh(p, l.conn, now) then l.(pc := Finished(Returned(l.conn.value.token.value)))
      else l.(pc := TakingClock, now := now)
    case (TakingClock, ReadClock(now)) => l.(pc := Acquiring, now := now)
    case (Acquiring, TriedLease(until, now, granted)) =>
      if until != l.now + p.leaseTtl || now != l.now then l.(pc := Stuck)
      else if granted then l.(pc := Rereading)
      else WaitOn(p, l)
    case (Rereading, GotConnection(conn)) => l.(pc := UnderClock, conn := conn)
    case (UnderClock, ReadClock(now)) =>
      if !HasToken(l.conn) then l.(pc := Freeing(Broken))
      else if Fresh(p, l.conn, now) then l.(pc := Freeing(Returned(l.conn.value.token.value)))
      else l.(pc := Asking, now := now)
    case (Asking, CalledProvider(given, now, result)) =>
      if !HasToken(l.conn) || given != l.conn.value.token.value || now != l.now then l.(pc := Stuck)
      else l.(pc := if result.Some? then Saving(result.value) else Freeing(ProviderRaised))
    case (Saving(renewed), WroteToken(token, now)) =>
      if token != renewed || now != l.now then l.(pc := Stuck) else l.(pc := Freeing(Returned(renewed)))
    case (Freeing(result), ReleasedLease) => l.(pc := Finished(result))
    case (Sleeping, Slept) => l.(pc := WaitReading, waited := l.waited + POLL)
    case (WaitReading, GotConnection(conn)) => l.(pc := WaitClock, conn := conn)
    case (WaitClock, ReadClock(now)) =>
      if l.conn.None? then l.(pc := Finished(Broken))
      else if Fresh(p, l.conn, now) then l.(pc := Finished(Returned(l.conn.value.token.value)))
      else l.(pc := Probing, now := now)
    case (Probing, Probed(now, held)) =>
      if now != l.now then l.(pc := Stuck)
      else if held then WaitOn(p, l)
      else l.(pc := if l.waited >= p.waitTimeout then Finished(TimedOut) else TakingClock)
    case _ => l.(pc := Stuck)
  }

  function Drive(p: Params, trace: seq<Event>): Local {
    if trace == [] then START else Advance(p, Drive(p, trace[..|trace| - 1]), trace[|trace| - 1])
  }

  /** `trace` is what a caller may do: no call out of turn, none after the end. */
  predicate Allowed(p: Params, trace: seq<Event>) {
    Drive(p, trace).pc != Stuck
  }

  lemma DriveSnoc(p: Params, trace: seq<Event>, e: Event)
    ensures Drive(p, trace + [e]) == Advance(p, Drive(p, trace), e)
  {
    assert (trace + [e])[..|trace|] == trace;
  }

  lemma AllowedFront(p: Params, trace: seq<Event>)
    requires trace != [] && Allowed(p, trace)
    ensures Allowed(p, trace[..|trace| - 1])
    ensures !Drive(p, trace[..|trace| - 1]).pc.Finished?
  {
  }

  // ----- bounds -----

  function Sleeps(trace: seq<Event>): nat {
    if trace == [] then 0 else Sleeps(trace[..|trace| - 1]) + if trace[|trace| - 1].Slept? then 1 else 0
  }

  function Tries(trace: seq<Event>): nat {
    if trace == [] then 0 else Tries(trace[..|trace| - 1]) + if trace[|trace| - 1].TriedLease? then 1 else 0
  }

  /** The least whole number of polls that reaches the timeout. */
  function MaxSleeps(timeout: real): nat {
    if timeout <= 0.0 then 0 else -((-20.0 * timeout).Floor)
  }

  function MaxTries(timeout: real): nat {
    if MaxSleeps(timeout) > 1 then MaxSleeps(timeout) else 1
  }

  predicate BeforeTry(pc: Pc) {
    pc.TakingClock? || pc.Acquiring?
  }

  predicate AfterSleep(pc: Pc) {
    pc.WaitReading? || pc.WaitClock? || pc.Probing?
  }

  lemma {:induction false} Budget(p: Params, trace: seq<Event>)
    requires Allowed(p, trace)
    ensures var l := Drive(p, trace);
            && l.waited == Sleeps(trace) as real * POLL
            && Sleeps(trace) <= MaxSleeps(p.waitTimeout)
            && Tries(trace) <= MaxTries(p.waitTimeout)
            && (l.pc.Opening? || l.pc.FirstClock? ==> Sleeps(trace) == Tries(trace) == 0)
            && (BeforeTry(l.pc) ==> Tries(trace) <= Sleeps(trace)
                                    && (Tries(trace) == 0 || Sleeps(trace) < MaxSleeps(p.waitTimeout)))
            && (AfterSleep(l.pc) ==> Tries(trace) <= Sleeps(trace))
            && (l.pc.Sleeping? ==> l.waited < p.waitTimeout && Tries(trace) <= Sleeps(trace) + 1)
  {
    if trace != [] {
      AllowedFront(p, trace);
      Budget(p, trace[..|trace| - 1]);
    }
  }

  predicate InSection(pc: Pc) {
    pc.Rereading? || pc.UnderClock? || pc.Asking? || pc.Saving? || pc.Freeing?
  }

  /** Calls made beyond two per acquire attempt and four per sleep. */
  function Charge(pc: Pc): int {
    match pc
    case Opening => 0
    case FirstClock => 1
    case TakingClock => 2
    case Acquiring => 3
    case Rereading => 2
    case UnderClock => 3
    case Asking => 4
    case Saving(_) => 5
    case Freeing(_) => 6
    case Sleeping => 2
    case WaitReading => -1
    case WaitClock => 0
    case Probing => 1
    case Finished(_) => 7
    case Stuck => 0
  }

  lemma {:induction false} LengthBound(p: Params, trace: seq<Event>)
    requires Allowed(p, trace)
    ensures |trace| <= Charge(Drive(p, trace).pc) + 2 * Tries(trace) + 4 * Sleeps(trace)
  {
    if trace != [] {
      AllowedFront(p, trace);
      LengthBound(p, trace[..|trace| - 1]);
    }
  }

  /**
   Whatever the store, clock and provider answer, a call makes at most ceil(timeout / poll)
   sleeps, at most max(1, that) acquire attempts, and a bounded number of calls in all.
   */
  lemma CallHalts(p: Params, trace: seq<Event>)
    requires Allowed(p, trace)
    ensures Sleeps(trace) <= MaxSleeps(p.waitTimeout)
    ensures Tries(trace) <= MaxTries(p.waitTimeout)
    ensures |trace| <= 7 + 2 * MaxTries(p.waitTimeout) + 4 * MaxSleeps(p.waitTimeout)
  {
    Budget(p, trace);
    LengthBound(p, trace);
  }

  // ----- the lease bracket -----

  function Grants(trace: seq<Event>): nat {
    if trace == [] then 0
    else
      var e := trace[|trace| - 1];
      Grants(trace[..|trace| - 1]) + if e.TriedLease? && e.granted then 1 else 0
  }

  function Releases(trace: seq<Event>): nat {
    if trace == [] then 0 else Releases(trace[..|trace| - 1]) + if trace[|trace| - 1].ReleasedLease? then 1 else 0
  }

  /** The lease is taken at most once and freed on every way out. */
  lemma {:induction false} LeaseBracket(p: Params, trace: seq<Event>)
    requires Allowed(p, trace)
    ensures var l := Drive(p, trace);
            && Grants(trace) == Releases(trace) + (if InSection(l.pc) then 1 else 0)
            && Grants(trace) <= 1
            && (!InSection(l.pc) && !l.pc.Finished? ==> Grants(trace) == 0)
  {
    if trace != [] {
      AllowedFront(p, trace);
      LeaseBracket(p, trace[..|trace| - 1]);
    }
  }

  /** The provider is asked, and the token written, only while the lease is held. */
  lemma WritesUnderLease(p: Params, trace: seq<Event>, i: nat)
    requires Allowed(p, trace) && i < |trace|
    requires trace[i].CalledProvider? || trace[i].WroteToken?
    ensures Grants(trace[..i]) == 1 && Releases(trace[..i]) == 0
  {
    AllowedPrefix(p, trace, i + 1);
    assert trace[..i + 1][..i] == trace[..i];
    AllowedFront(p, trace[..i + 1]);
    LeaseBracket(p, trace[..i]);
  }

  lemma {:induction false} AllowedPrefix(p: Params, trace: seq<Event>, n: nat)
    requires Allowed(p, trace) && n <= |trace|
    ensures Allowed(p, trace[..n])
  {
    if n < |trace| {
      AllowedFront(p, trace);
      AllowedPrefix(p, trace[..|trace| - 1], n);
      assert trace[..|trace| - 1][..n] == trace[..n];
    } else {
      assert trace[..n] == trace;
    }
  }

  // ----- what is returned -----

  /** The caller saw this token in the store and then read a clock more than the skew before its expiry. */
  ghost predicate SeenFresh(p: Params, trace: seq<Event>, t: Token) {
    exists i, j :: 0 <= i < j < |trace|
                   && trace[i] == GotConnection(Some(Connection(Some(t))))
                   && trace[j].ReadClock? && trace[j].now + p.skew < t.expiresAt
  }

  ghost predicate Wrote(trace: seq<Event>, t: Token) {
    exists i :: 0 <= i < |trace| && trace[i].WroteToken? && trace[i].token == t
  }

  ghost predicate Justified(p: Params, trace: seq<Event>, outcome: Outcome) {
    outcome.Returned? ==> SeenFresh(p, trace, outcome.token) || Wrote(trace, outcome.token)
  }

  ghost predicate ReadFromStore(trace: seq<Event>, conn: Option<Connection>) {
    conn.None? || exists i :: 0 <= i < |trace| && trace[i] == GotConnection(conn)
  }

  lemma ReadGrows(trace: seq<Event>, e: Event, conn: Option<Connection>)
    requires ReadFromStore(trace, conn)
    ensures ReadFromStore(trace + [e], conn)
  {
    if conn.Some? {
      var i :| 0 <= i < |trace| && trace[i] == GotConnection(conn);
      assert (trace + [e])[i] == GotConnection(conn);
    }
  }

  lemma JustifiedGrows(p: Params, trace: seq<Event>, e: Event, outcome: Outcome)
    requires Justified(p, trace, outcome)
    ensures Justified(p, trace + [e], outcome)
  {
    if outcome.Returned? {
      var t := outcome.token;
      if SeenFresh(p, trace, t) {
        var i, j :| 0 <= i < j < |trace| && trace[i] == GotConnection(Some(Connection(Some(t))))
                    && trace[j].ReadClock? && trace[j].now + p.skew < t.expiresAt;
        assert (trace + [e])[i] == trace[i] && (trace + [e])[j] == trace[j];
      } else {
        var i :| 0 <= i < |trace| && trace[i].WroteToken? && trace[i].token == t;
        assert (trace + [e])[i] == trace[i];
      }
    }
  }

  lemma FreshIsSeen(p: Params, trace: seq<Event>, conn: Option<Connection>, now: real)
    requires ReadFromStore(trace, conn) && Fresh(p, conn, now)
    ensures SeenFresh(p, trace + [ReadClock(now)], conn.value.token.value)
  {
    var i :| 0 <= i < |trace| && trace[i] == GotConnection(conn);
    var all := trace + [ReadClock(now)];
    assert all[i] == GotConnection(Some(Connection(Some(conn.value.token.value)))) && all[|trace|].ReadClock?;
  }

  function Promised(pc: Pc): Outcome {
    match pc
    case Freeing(o) => o
    case Finished(o) => o
    case _ => TimedOut
  }

  lemma {:induction false} Provenance(p: Params, trace: seq<Event>)
    requires Allowed(p, trace)
    ensures ReadFromStore(trace, Drive(p, trace).conn)
    ensures Justified(p, trace, Promised(Drive(p, trace).pc))
  {
    if trace != [] {
      var front, e := trace[..|trace| - 1], trace[|trace| - 1];
      assert trace == front + [e];
      AllowedFront(p, trace);
      Provenance(p, front);
      var l := Drive(p, front);
      ReadGrows(front, e, l.conn);
      JustifiedGrows(p, front, e, Promised(l.pc));
      if e.ReadClock? && Fresh(p, l.conn, e.now) { FreshIsSeen(p, front, l.conn, e.now); }
      if e.GotConnection? { assert trace[|front|] == e; }
      if e.WroteToken? { assert trace[|front|] == e; }
    }
  }

  /**
   Any token returned was seen in the store and more than the skew from its expiry at a clock value
   read later in the call, or was written by this call while it held the lease.
   */
  lemma ReturnIsFreshOrOwn(p: Params, trace: seq<Event>, t: Token)
    requires Drive(p, trace).pc == Finished(Returned(t))
    ensures SeenFresh(p, trace, t) || Wrote(trace, t)
    ensures Grants(trace) == Releases(trace) <= 1
    ensures Wrote(trace, t) ==> exists i :: 0 <= i < |trace| && trace[i].WroteToken? && trace[i].token == t
                                            && Grants(trace[..i]) == 1 && Releases(trace[..i]) == 0
  {
    Provenance(p, trace);
    LeaseBracket(p, trace);
    if Wrote(trace, t) {
      var i :| 0 <= i < |trace| && trace[i].WroteToken? && trace[i].token == t;
      WritesUnderLease(p, trace, i);
    }
  }

  // ----- the loop -----

  /** Answers of an arbitrary environment, one per call. */
  datatype Script = Script(connection: nat -> Option<Connection>, clock: nat -> real, grant: nat -> bool,
                           held: nat -> bool, provider: nat -> Option<Token>)

  /** The outside world of one call: it answers from the script and remembers every call. */
  class Session {
    const script: Script
    const params: Params
    var log: seq<Event>

    constructor (script: Script, params: Params)
      ensures log == [] && this.script == script && this.params == params
    {
      this.script := script;
      this.params := params;
      log := [];
    }

    method Note(e: Event)
      modifies this
      ensures log == old(log) + [e]
      ensures Drive(params, log) == Advance(params, Drive(params, old(log)), e)
    {
      DriveSnoc(params, log, e);
      log := log + [e];
    }

    method GetConnection() returns (conn: Option<Connection>)
      modifies this
      ensures conn == script.connection(|old(log)|)
      ensures log == old(log) + [GotConnection(conn)]
      ensures Drive(params, log) == Advance(params, Drive(params, old(log)), GotConnection(conn))
    {
      conn := script.connection(|log|);
      Note(GotConnection(conn));
    }

    method Now() returns (now: real)
      modifies this
      ensures now == script.clock(|old(log)|)
      ensures log == old(log) + [ReadClock(now)]
      ensures Drive(params, log) == Advance(params, Drive(params, old(log)), ReadClock(now))
    {
      now := script.clock(|log|);
      Note(ReadClock(now));
    }

    method AcquireLease(until: real, now: real) returns (granted: bool)
      modifies this
      ensures granted == script.grant(|old(log)|)
      ensures log == old(log) + [TriedLease(until, now, granted)]
      ensures Drive(params, log) == Advance(params, Drive(params, old(log)), TriedLease(until, now, granted))
    {
      granted := script.grant(|log|);
      Note(TriedLease(until, now, granted));
    }

    method CallProvider(given: Token, now: real) returns (renewed: Option<Token>)
      modifies this
      ensures renewed == script.provider(|old(log)|)
      ensures log == old(log) + [CalledProvider(given, now, renewed)]
      ensures Drive(params, log) == Advance(params, Drive(params, old(log)), CalledProvider(given, now, renewed))
    {
      renewed := script.provider(|log|);
      Note(CalledProvider(given, now, renewed));
    }

    method LeaseHeld(now: real) returns (held: bool)
      modifies this
      ensures held == script.held(|old(log)|)
      ensures log == old(log) + [Probed(now, held)]
      ensures Drive(params, log) == Advance(params, Drive(params, old(log)), Probed(now, held))
    {
      held := script.held(|log|);
      Note(Probed(now, held));
    }
  }

  /** Polls left before the timeout. */
  function PollsLeft(timeout: real, waited: real): int {
    (20.0 * (timeout - waited)).Floor
  }

  method RefreshIfNeeded(env: Session) returns (outcome: Outcome)
    requires env.log == []
    modifies env
    ensures Drive(env.params, env.log).pc == Finished(outcome)
  {
    var p := env.params;
    var conn := env.GetConnection();
    if conn.None? || conn.value.token.None? {
      return NoConnection;
    }
    var now := env.Now();
    if !IsExpired(conn.value.token.value, p.skew, now) {
      return Returned(conn.value.token.value);
    }
    var waited := 0.0;
    while true
      invariant Drive(p, env.log).pc == TakingClock && Drive(p, env.log).waited == waited
      decreases PollsLeft(p.waitTimeout, waited) + 1
    {
      var granted := TryLease(env);
      if granted {
        outcome := WithLease(env);
        env.Note(ReleasedLease);
        return;
      }
      var result;
      waited, result := WaitForHolder(env, waited);
      if result.Some? {
        return result.value;
      }
    }
  }

  method TryLease(env: Session) returns (granted: bool)
    requires Drive(env.params, env.log).pc == TakingClock
    modifies env
    ensures var l := Drive(env.params, env.log);
            && l.waited == Drive(env.params, old(env.log)).waited
            && l.pc == if granted then Rereading
                       else if l.waited < env.params.waitTimeout then Sleeping else Finished(TimedOut)
  {
    var now := env.Now();
    granted := env.AcquireLease(now + env.params.leaseTtl, now);
  }

  /** The inner loop: poll until the holder publishes, frees the lease, or the budget is gone. */
  method WaitForHolder(env: Session, start: real) returns (waited: real, result: Option<Outcome>)
    requires Drive(env.params, env.log).waited == start
    requires Drive(env.params, env.log).pc == if start < env.params.waitTimeout then Sleeping else Finished(TimedOut)
    modifies env
    ensures result.Some? ==> Drive(env.params, env.log).pc == Finished(result.value)
    ensures result.None? ==>
              && Drive(env.params, env.log).pc == TakingClock && Drive(env.params, env.log).waited == waited
              && start + POLL <= waited < env.params.waitTimeout
  {
    var p := env.params;
    waited := start;
    while waited < p.waitTimeout
      invariant start == waited || start + POLL <= waited
      invariant Drive(p, env.log).pc == (if waited < p.waitTimeout then Sleeping else Finished(TimedOut))
      invariant Drive(p, env.log).waited == waited
      decreases PollsLeft(p.waitTimeout, waited) + 1
    {
      var conn, now := SleepAndLook(env);
      waited := waited + POLL;
      if conn.None? {
        return waited, Some(Broken);
      }
      if conn.value.token.Some? && !IsExpired(conn.value.token.value, p.skew, now) {
        return waited, Some(Returned(conn.value.token.value));
      }
      var held := env.LeaseHeld(now);
      if !held {
        break;
      }
    }
    if waited >= p.waitTimeout {
      return waited, Some(TimedOut);
    }
    return waited, None;
  }

  /** One poll: sleep, read the connection, read the clock. */
  method SleepAndLook(env: Session) returns (conn: Option<Connection>, now: real)
    requires Drive(env.params, env.log).pc == Sleeping
    modifies env
    ensures var l := Drive(env.params, env.log);
            && l.waited == Drive(env.params, old(env.log)).waited + POLL
            && (conn.None? ==> l.pc == Finished(Broken))
            && (Fresh(env.params, conn, now) ==> l.pc == Finished(Returned(conn.value.token.value)))
            && (conn.Some? && !Fresh(env.params, conn, now) ==> l.pc == Probing && l.now == now)
  {
    env.Note(Slept);
    conn := env.GetConnection();
    now := env.Now();
  }

  /** The body of the `try`: double-checked read, provider call, write. */
  method WithLease(env: Session) returns (outcome: Outcome)
    requires Drive(env.params, env.log).pc == Rereading
    modifies env
    ensures Drive(env.params, env.log).pc == Freeing(outcome)
  {
    var p := env.params;
    var conn := env.GetConnection();
    var now := env.Now();
    if conn.None? || conn.value.token.None? {
      return Broken;
    }
    if !IsExpired(conn.value.token.value, p.skew, now) {
      return Returned(conn.value.token.value);
    }
    var renewed := env.CallProvider(conn.value.token.value, now);
    if renewed.None? {
      return ProviderRaised;
    }
    env.Note(WroteToken(renewed.value, now));
    return Returned(renewed.value);
  }
}
