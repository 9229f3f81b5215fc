/** What one refresh_if_needed call does after what it has heard, told from its trace alone. */
module RefreshCalls {
  import opened Wrappers
  import opened Refresh

  /** At this reading the token is still more than the skew from its expiry. */
  predicate Good(p: Params, t: Token, now: real) {
    now + p.skew < t.expiresAt
  }

  // ----- which call comes next -----

  /** Call n reads the clock for a connection just read. */
  predicate Judges(trace: seq<Event>, n: nat) {
    0 < n < |trace| && trace[n].ReadClock? && trace[n - 1].GotConnection?
  }

  /** What follows a reading of the clock by which a connection was judged. */
  predicate FollowsJudgement(p: Params, trace: seq<Event>, n: nat)
    requires Judges(trace, n) && n + 1 < |trace|
  {
    var conn, now, next := trace[n - 1].conn, trace[n].now, trace[n + 1];
    if n == 1 then                                          // the first look
      HasToken(conn) && !Good(p, conn.value.token.value, now) && next.ReadClock?
    else if trace[n - 2].Slept? then                        // a look while waiting
      conn.Some? && (HasToken(conn) ==> !Good(p, conn.value.token.value, now)) && next.Probed? && next.now == now
    else if HasToken(conn) && !Good(p, conn.value.token.value, now) then   // the second look, under the lease
      next.CalledProvider? && next.given == conn.value.token.value && next.now == now
    else next.ReleasedLease?
  }

  /** What call n + 1 of a trace is, given the calls before it. */
  predicate Follows(p: Params, trace: seq<Event>, n: nat)
    requires n + 1 < |trace|
  {
    var next := trace[n + 1];
    match trace[n]
    case GotConnection(_) => next.ReadClock?
    case ReadClock(now) =>
      if Judges(trace, n) then FollowsJudgement(p, trace, n)
      else next.TriedLease? && next.now == now && next.until == now + p.leaseTtl
    case TriedLease(_, _, granted) => if granted then next.GotConnection? else next.Slept?
    case CalledProvider(_, now, result) =>
      if result.Some? then next == WroteToken(result.value, now) else next.ReleasedLease?
    case WroteToken(_, _) => next.ReleasedLease?
    case ReleasedLease => false
    case Slept => next.GotConnection?
    case Probed(_, held) => if held then next.Slept? else next.ReadClock?
  }

  /** How a finished trace ended. */
  predicate Ends(p: Params, trace: seq<Event>, outcome: Outcome) {
    var n := |trace|;
    if n <= 1 then n == 1 && outcome == NoConnection && trace[0].GotConnection? && !HasToken(trace[0].conn)
    else
      match trace[n - 1]
      case ReadClock(now) =>
        Judges(trace, n - 1) && EndsWith(trace[n - 2].conn, outcome)
        && (outcome.Returned? ==> Good(p, outcome.token, now))
      case ReleasedLease =>
        (match trace[n - 2]
         case WroteToken(t, _) => outcome == Returned(t)
         case CalledProvider(_, _, result) => result.None? && outcome == ProviderRaised
         case ReadClock(now) =>
           Judges(trace, n - 2) && EndsWith(trace[n - 3].conn, outcome)
           && (outcome.Returned? ==> Good(p, outcome.token, now))
         case _ => false)
      case TriedLease(_, _, granted) => !granted && outcome == TimedOut
      case Probed(_, _) => outcome == TimedOut
      case _ => false
  }

  predicate EndsWith(conn: Option<Connection>, outcome: Outcome) {
    outcome == if HasToken(conn) then Returned(conn.value.token.value) else Broken
  }

  // ----- the automaton at each point of a trace -----

  predicate LastIs(trace: seq<Event>, e: Event) {
    trace != [] && trace[|trace| - 1] == e
  }

  /** What the automaton knows is what was last heard. */
  predicate Knows(p: Params, trace: seq<Event>, l: Local) {
    var n := |trace|;
    match l.pc
    case Opening => n == 0
    case FirstClock => n == 1 && LastIs(trace, GotConnection(l.conn)) && HasToken(l.conn)
    case TakingClock =>
      || (n == 2 && LastIs(trace, ReadClock(l.now)) && trace[0] == GotConnection(l.conn) && HasToken(l.conn)
          && !Good(p, l.conn.value.token.value, l.now))
      || (n >= 2 && LastIs(trace, Probed(l.now, false)))
    case Acquiring => n >= 3 && LastIs(trace, ReadClock(l.now)) && !trace[n - 2].GotConnection?
    case Rereading => n >= 3 && trace[n - 1].TriedLease? && trace[n - 1].granted
    case UnderClock =>
      n >= 3 && LastIs(trace, GotConnection(l.conn)) && trace[n - 2].TriedLease? && trace[n - 2].granted
    case Asking =>
      && n >= 3 && LastIs(trace, ReadClock(l.now)) && trace[n - 2] == GotConnection(l.conn) && trace[n - 3].TriedLease?
      && HasToken(l.conn) && !Good(p, l.conn.value.token.value, l.now)
    case Saving(renewed) =>
      n >= 3 && trace[n - 1].CalledProvider? && trace[n - 1].now == l.now && trace[n - 1].result == Some(renewed)
    case Freeing(outcome) => n >= 3 && Ends(p, trace + [ReleasedLease], outcome) && FreesNext(p, trace)
    case Sleeping =>
      n >= 1 && ((trace[n - 1].TriedLease? && !trace[n - 1].granted) || (trace[n - 1].Probed? && trace[n - 1].held))
    case WaitReading => n >= 1 && trace[n - 1].Slept?
    case WaitClock => n >= 2 && LastIs(trace, GotConnection(l.conn)) && trace[n - 2].Slept?
    case Probing =>
      && n >= 3 && LastIs(trace, ReadClock(l.now)) && trace[n - 2] == GotConnection(l.conn) && trace[n - 3].Slept?
      && l.conn.Some? && (HasToken(l.conn) ==> !Good(p, l.conn.value.token.value, l.now))
    case Finished(outcome) => Ends(p, trace, outcome)
    case Stuck => true
  }

  /** The lease may be freed now. */
  predicate FreesNext(p: Params, trace: seq<Event>) {
    trace != [] && Follows(p, trace + [ReleasedLease], |trace| - 1)
  }

  lemma KnowsNext(p: Params, trace: seq<Event>, l: Local, e: Event)
    requires Knows(p, trace, l) && !l.pc.Finished? && Advance(p, l, e).pc != Stuck
    ensures Knows(p, trace + [e], Advance(p, l, e))
    ensures trace != [] ==> Follows(p, trace + [e], |trace| - 1)
  {
  }

  lemma {:induction false} TraceKnows(p: Params, trace: seq<Event>)
    requires Allowed(p, trace)
    ensures Knows(p, trace, Drive(p, trace))
  {
    if trace != [] {
      hide Knows, Advance;
      var front := trace[..|trace| - 1];
      AllowedFront(p, trace);
      TraceKnows(p, front);
      assert trace == front + [trace[|trace| - 1]];
      KnowsNext(p, front, Drive(p, front), trace[|trace| - 1]);
    } else {
      assert Drive(p, trace) == START;
    }
  }

  lemma FollowsLocally(p: Params, trace: seq<Event>, n: nat)
    requires n + 1 < |trace| && Follows(p, trace[..n + 2], n)
    ensures Follows(p, trace, n)
  {
  }

  /**
   Whatever the store, clock, lease and provider answer, each call of a trace is the one its caller
   owes after the calls before it, and a trace that is finished ended as those say.
   */
  lemma CallsFollow(p: Params, trace: seq<Event>)
    requires Allowed(p, trace)
    ensures forall n :: 0 <= n < |trace| - 1 ==> Follows(p, trace, n)
    ensures Drive(p, trace).pc.Finished? ==> Ends(p, trace, Drive(p, trace).pc.outcome)
  {
    TraceKnows(p, trace);
    hide Follows, Allowed, Advance, Ends;
    forall n | 0 <= n < |trace| - 1 ensures Follows(p, trace, n) { CallFollows(p, trace, n); }
  }

  lemma CallFollows(p: Params, trace: seq<Event>, n: nat)
    requires Allowed(p, trace) && n + 1 < |trace|
    ensures Follows(p, trace, n)
  {
    var upTo, front := trace[..n + 2], trace[..n + 1];
    AllowedPrefix(p, trace, n + 2);
    AllowedFront(p, upTo);
    assert upTo[..|upTo| - 1] == front && upTo == front + [trace[n + 1]];
    hide Knows, Advance, Follows;
    TraceKnows(p, front);
    KnowsNext(p, front, Drive(p, front), trace[n + 1]);
    FollowsLocally(p, trace, n);
  }

  // ----- when a token is refreshed -----

  /**
   The provider is asked only about a token read under the lease and, by a reading of the clock
   after that, within the skew of its expiry.
   */
  lemma AsksOnlyWhenDue(p: Params, trace: seq<Event>, n: nat)
    requires Allowed(p, trace) && n < |trace| && trace[n].CalledProvider?
    ensures n >= 3 && trace[n - 2] == GotConnection(Some(Connection(Some(trace[n].given))))
    ensures trace[n - 1] == ReadClock(trace[n].now) && trace[n].now + p.skew >= trace[n].given.expiresAt
    ensures Grants(trace[..n - 2]) == 1 && Releases(trace[..n - 2]) == 0
  {
    AllowedPrefix(p, trace, n + 1);
    var upTo, front := trace[..n + 1], trace[..n];
    AllowedFront(p, upTo);
    assert upTo[..n] == front;
    TraceKnows(p, front);
    var l := Drive(p, front);
    assert l.pc.Asking?;
    WritesUnderLease(p, trace, n);
    hide Knows, Advance, Drive;
    assert trace[..n][..n - 1] == trace[..n - 1] && trace[..n - 1][..n - 2] == trace[..n - 2];
  }

  /**
   The first look decides: a token more than the skew from its expiry at the first clock reading is
   returned at once, after two calls; any other leads to a second reading and a try for the lease,
   which is asked for until the lease time after that reading.
   */
  lemma FirstLookDecides(p: Params, trace: seq<Event>, t: Token)
    requires Allowed(p, trace) && |trace| >= 2 && trace[0] == GotConnection(Some(Connection(Some(t))))
    ensures trace[1].ReadClock?
    ensures trace[1].now + p.skew < t.expiresAt ==> |trace| == 2 && Drive(p, trace).pc == Finished(Returned(t))
    ensures trace[1].now + p.skew >= t.expiresAt ==>
              && !Drive(p, trace[..2]).pc.Finished?
              && (|trace| > 2 ==> trace[2].ReadClock?)
              && (|trace| > 3 ==> trace[3].TriedLease? && trace[3].now == trace[2].now
                                  && trace[3].until == trace[2].now + p.leaseTtl)
  {
    CallsFollow(p, trace);
    assert Follows(p, trace, 0);
    if |trace| > 2 { assert Follows(p, trace, 1); }
    if |trace| > 3 { assert Follows(p, trace, 2); }
    var two := trace[..2];
    assert two[..1] == [trace[0]] && [trace[0]][..0] == [];
    assert Drive(p, [trace[0]]) == Advance(p, START, trace[0]);
    assert Drive(p, two) == Advance(p, Advance(p, START, trace[0]), trace[1]);
    if |trace| == 2 { assert trace == two; }
  }

  /** A call that times out has slept ceil(timeout / 0.05 s) times, no more and no less. */
  lemma TimesOutAfterEverySleep(p: Params, trace: seq<Event>)
    requires Allowed(p, trace) && Drive(p, trace).pc == Finished(TimedOut)
    ensures 0.05 * Sleeps(trace) as real >= p.waitTimeout
    ensures Sleeps(trace) > 0 ==> 0.05 * (Sleeps(trace) - 1) as real < p.waitTimeout
  {
    Budget(p, trace);
  }
}
