/**
 What a refresh comes to when no other caller moves and no time passes: the stored token while it
 is fresh, one call to the provider when the lease is free, a timeout when it is held.
 */
module RefreshAlone {
  import opened Wrappers
  import Leases
  import opened Refresh
  import TokenChain
  import opened RefreshMachine

  /** n steps of one caller, whose provider gives this answer if asked. */
  function Turns(i: nat, provider: Option<Token>, n: nat): (run: seq<Action>)
    ensures |run| == n
  {
    if n == 0 then [] else Turns(i, provider, n - 1) + [Go(i, provider)]
  }

  /** After n turns: the leases, what has been written, what the provider was asked, and where the caller is. */
  ghost predicate Reaches(p: Params, s: State, i: nat, provider: Option<Token>, n: nat,
                          leases: Leases.Table<string>, written: seq<Token>, asked: seq<Token>, local: Local) {
    var t := Exec(p, s, Turns(i, provider, n));
    && t.clock == s.clock && t.leases == leases && t.history == s.history + written && s.history != []
    && |t.calls| == |s.calls| + |asked| && s.calls <= t.calls
    && (forall k :: 0 <= k < |asked| ==> t.calls[|s.calls| + k].given == asked[k])
    && |t.procs| == |s.procs| && i < |t.procs| && !t.procs[i].crashed
    && t.procs[i].local == local && t.procs[i].holder == s.procs[i].holder
    && (forall j :: 0 <= j < |s.procs| && j != i ==> t.procs[j] == s.procs[j])
  }

  lemma Turn(p: Params, s: State, i: nat, provider: Option<Token>, n: nat)
    ensures Exec(p, s, Turns(i, provider, n + 1)) == Step(p, Exec(p, s, Turns(i, provider, n)), Go(i, provider))
  {
    hide Step;
    assert Turns(i, provider, n + 1)[..n] == Turns(i, provider, n);
  }

  /** The token read by any look at the store so far. */
  function Held(s: State): Option<Connection>
    requires s.history != []
  {
    Some(Connection(Some(Current(s))))
  }

  /** A call that only looks: nothing changes but where the caller is. */
  lemma LookTurn(p: Params, s: State, i: nat, provider: Option<Token>, n: nat, l: Local)
    requires Reaches(p, s, i, provider, n, s.leases, [], [], l)
    requires l.pc.Opening? || l.pc.FirstClock? || l.pc.TakingClock?
             || l.pc.Sleeping? || l.pc.WaitReading? || l.pc.WaitClock? || l.pc.Probing?
    ensures var e := match l.pc
                     case Opening => GotConnection(Held(s))
                     case WaitReading => GotConnection(Held(s))
                     case Sleeping => Slept
                     case Probing => Probed(l.now, Leases.Held(s.leases, KEY, l.now))
                     case _ => ReadClock(s.clock);
            Reaches(p, s, i, provider, n + 1, s.leases, [], [], Advance(p, l, e))
  {
    Turn(p, s, i, provider, n);
    hide Exec, Turns, Advance;
  }

  // ----- the lease is held -----

  /** The caller once it has slept k polls in all, or has none left. */
  function Waiting(p: Params, s: State, k: nat): Local
    requires s.history != []
  {
    Local(if k as real * POLL < p.waitTimeout then Sleeping else Finished(TimedOut), Held(s), s.clock, k as real * POLL)
  }

  /** A poll that finds the token old and the lease held is followed by another until the budget is spent. */
  lemma PollTurns(p: Params, s: State, i: nat, provider: Option<Token>, n: nat, k: nat)
    requires s.history != [] && Reaches(p, s, i, provider, n, s.leases, [], [], Waiting(p, s, k))
    requires k as real * POLL < p.waitTimeout && s.clock + p.skew >= Current(s).expiresAt
    requires Leases.Held(s.leases, KEY, s.clock)
    ensures Reaches(p, s, i, provider, n + 4, s.leases, [], [], Waiting(p, s, k + 1))
  {
    hide Reaches, Leases.Held;
    var l := Waiting(p, s, k);
    var l1 := l.(pc := WaitReading, waited := l.waited + POLL);
    assert l1.waited == (k + 1) as real * POLL;
    LookTurn(p, s, i, provider, n, l);
    LookTurn(p, s, i, provider, n + 1, l1);
    LookTurn(p, s, i, provider, n + 2, l1.(pc := WaitClock));
    LookTurn(p, s, i, provider, n + 3, l1.(pc := Probing));
  }

  lemma {:induction false} WaitTurns(p: Params, s: State, i: nat, provider: Option<Token>, n: nat, k: nat)
    returns (m: nat)
    requires s.history != [] && Reaches(p, s, i, provider, n, s.leases, [], [], Waiting(p, s, k))
    requires s.clock + p.skew >= Current(s).expiresAt && Leases.Held(s.leases, KEY, s.clock)
    requires k <= MaxSleeps(p.waitTimeout)
    ensures m <= n + 4 * (MaxSleeps(p.waitTimeout) - k)
    ensures exists waited :: Reaches(p, s, i, provider, m, s.leases, [], [],
                                     Local(Finished(TimedOut), Held(s), s.clock, waited))
    decreases MaxSleeps(p.waitTimeout) - k
  {
    hide Reaches, Leases.Held;
    if k as real * POLL < p.waitTimeout {
      PollTurns(p, s, i, provider, n, k);
      assert k + 1 <= MaxSleeps(p.waitTimeout);
      m := WaitTurns(p, s, i, provider, n + 4, k + 1);
    } else {
      m := n;
    }
  }

  // ----- the lease is free -----

  lemma GrantTurn(p: Params, s: State, i: nat, provider: Option<Token>, n: nat, l: Local)
    requires Reaches(p, s, i, provider, n, s.leases, [], [], l) && l.pc.Acquiring?
    ensures var (leases, granted) := Leases.Acquire(s.leases, KEY, s.procs[i].holder, l.now + p.leaseTtl, l.now);
            Reaches(p, s, i, provider, n + 1, leases, [], [],
                    if granted then l.(pc := Rereading) else WaitOn(p, l))
  {
    Turn(p, s, i, provider, n);
    hide Exec, Turns;
  }

  lemma RereadTurn(p: Params, s: State, i: nat, provider: Option<Token>, n: nat, leases: Leases.Table<string>, l: Local)
    requires Reaches(p, s, i, provider, n, leases, [], [], l) && (l.pc.Rereading? || l.pc.UnderClock?)
    ensures Reaches(p, s, i, provider, n + 1, leases, [], [],
                    Advance(p, l, if l.pc.Rereading? then GotConnection(Held(s)) else ReadClock(s.clock)))
  {
    Turn(p, s, i, provider, n);
    hide Exec, Turns, Advance;
  }

  lemma AskTurn(p: Params, s: State, i: nat, provider: Option<Token>, n: nat, leases: Leases.Table<string>, l: Local)
    requires Reaches(p, s, i, provider, n, leases, [], [], l) && l.pc.Asking? && l.conn == Held(s)
    ensures if provider.Some?
            then Reaches(p, s, i, provider, n + 1, leases, [], [Current(s)], l.(pc := Saving(provider.value)))
            else Reaches(p, s, i, provider, n + 1, leases, [], [], l.(pc := Freeing(ProviderRaised)))
  {
    Turn(p, s, i, provider, n);
    hide Exec, Turns;
  }

  lemma SaveTurn(p: Params, s: State, i: nat, provider: Option<Token>, n: nat, leases: Leases.Table<string>,
                 asked: seq<Token>, l: Local)
    requires Reaches(p, s, i, provider, n, leases, [], asked, l) && l.pc.Saving?
    ensures Reaches(p, s, i, provider, n + 1, leases, [l.pc.renewed], asked, l.(pc := Freeing(Returned(l.pc.renewed))))
  {
    Turn(p, s, i, provider, n);
    hide Exec, Turns;
  }

  lemma FreeTurn(p: Params, s: State, i: nat, provider: Option<Token>, n: nat, leases: Leases.Table<string>,
                 written: seq<Token>, asked: seq<Token>, l: Local)
    requires Reaches(p, s, i, provider, n, leases, written, asked, l) && l.pc.Freeing?
    ensures Reaches(p, s, i, provider, n + 1, Leases.Release(leases, KEY, s.procs[i].holder), written, asked,
                    l.(pc := Finished(l.pc.result)))
  {
    Turn(p, s, i, provider, n);
    hide Exec, Turns;
  }

  /** The caller finished with this outcome. */
  ghost predicate Ends(p: Params, s: State, i: nat, provider: Option<Token>, n: nat, leases: Leases.Table<string>,
                       written: seq<Token>, asked: seq<Token>, outcome: Outcome) {
    exists l: Local :: l.pc == Finished(outcome) && Reaches(p, s, i, provider, n, leases, written, asked, l)
  }

  lemma SectionTurns(p: Params, s: State, i: nat, provider: Option<Token>, n: nat, leases: Leases.Table<string>,
                     l: Local)
    returns (m: nat)
    requires s.history != [] && i < |s.procs| && s.clock + p.skew >= Current(s).expiresAt
    requires Reaches(p, s, i, provider, n, leases, [], [], l) && l.pc.Rereading?
    ensures m <= n + 5
    ensures var free := Leases.Release(leases, KEY, s.procs[i].holder);
            match provider
            case Some(token) => Ends(p, s, i, provider, m, free, [token], [Current(s)], Returned(token))
            case None => Ends(p, s, i, provider, m, free, [], [], ProviderRaised)
  {
    hide Reaches, Leases.Release;
    RereadTurn(p, s, i, provider, n, leases, l);
    var l1 := l.(pc := UnderClock, conn := Held(s));
    RereadTurn(p, s, i, provider, n + 1, leases, l1);
    var l2 := l1.(pc := Asking, now := s.clock);
    AskTurn(p, s, i, provider, n + 2, leases, l2);
    if provider.Some? {
      var l3 := l2.(pc := Saving(provider.value));
      SaveTurn(p, s, i, provider, n + 3, leases, [Current(s)], l3);
      var l4 := l3.(pc := Freeing(Returned(provider.value)));
      FreeTurn(p, s, i, provider, n + 4, leases, [provider.value], [Current(s)], l4);
      m := n + 5;
    } else {
      FreeTurn(p, s, i, provider, n + 3, leases, [], [], l2.(pc := Freeing(ProviderRaised)));
      m := n + 4;
    }
  }

  lemma StartReaches(p: Params, s: State, i: nat, provider: Option<Token>)
    requires s.history != [] && i < |s.procs| && s.procs[i].local == START && !s.procs[i].crashed
    ensures Reaches(p, s, i, provider, 0, s.leases, [], [], START)
  {
  }

  /** The token is old: the lease decides. */
  lemma LeaseTurns(p: Params, s: State, i: nat, provider: Option<Token>) returns (n: nat)
    requires s.history != [] && i < |s.procs| && s.clock + p.skew >= Current(s).expiresAt
    requires Reaches(p, s, i, provider, 2, s.leases, [], [], Local(TakingClock, Held(s), s.clock, 0.0))
    ensures n <= 9 + 4 * MaxSleeps(p.waitTimeout)
    ensures if Leases.Held(s.leases, KEY, s.clock) then Ends(p, s, i, provider, n, s.leases, [], [], TimedOut)
            else
              match provider
              case Some(renewed) =>
                Ends(p, s, i, provider, n, s.leases - {KEY}, [renewed], [Current(s)], Returned(renewed))
              case None => Ends(p, s, i, provider, n, s.leases - {KEY}, [], [], ProviderRaised)
  {
    hide Reaches, Turns, MaxSleeps;
    var l := Local(TakingClock, Held(s), s.clock, 0.0);
    LookTurn(p, s, i, provider, 2, l);
    GrantTurn(p, s, i, provider, 3, l.(pc := Acquiring));
    if Leases.Held(s.leases, KEY, s.clock) {
      assert WaitOn(p, l.(pc := Acquiring)) == Waiting(p, s, 0);
      n := WaitTurns(p, s, i, provider, 4, 0);
    } else {
      var leases := Leases.Acquire(s.leases, KEY, s.procs[i].holder, s.clock + p.leaseTtl, s.clock).0;
      assert Leases.Release(leases, KEY, s.procs[i].holder) == s.leases - {KEY};
      n := SectionTurns(p, s, i, provider, 4, leases, l.(pc := Rereading));
    }
  }

  /**
   A caller alone returns the stored token while it is fresh; with the lease free it asks the provider
   once about that token, stores and returns the answer, or raises, and leaves the lease free; with the
   lease held it gives up when its sleeps are spent.
   */
  lemma RefreshesAlone(p: Params, s: State, i: nat, provider: Option<Token>) returns (n: nat)
    requires s.history != [] && i < |s.procs| && s.procs[i].local == START && !s.procs[i].crashed
    ensures n <= 9 + 4 * MaxSleeps(p.waitTimeout)
    ensures var token, free := Current(s), s.leases - {KEY};
            if s.clock + p.skew < token.expiresAt
            then Ends(p, s, i, provider, n, s.leases, [], [], Returned(token))
            else if KEY in s.leases && s.leases[KEY].until > s.clock
            then Ends(p, s, i, provider, n, s.leases, [], [], TimedOut)
            else
              match provider
              case Some(renewed) => Ends(p, s, i, provider, n, free, [renewed], [token], Returned(renewed))
              case None => Ends(p, s, i, provider, n, free, [], [], ProviderRaised)
  {
    hide Reaches, Turns, MaxSleeps;
    StartReaches(p, s, i, provider);
    LookTurn(p, s, i, provider, 0, START);
    LookTurn(p, s, i, provider, 1, START.(pc := FirstClock, conn := Held(s)));
    n := 2;
    if s.clock + p.skew >= Current(s).expiresAt {
      n := LeaseTurns(p, s, i, provider);
    }
  }
}
