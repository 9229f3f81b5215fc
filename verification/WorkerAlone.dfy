/** A worker that nobody comes between does to the ledger what the bus's own dispatch and retry do. */
module WorkerAlone {
  import opened Wrappers
  import opened Deliveries
  import opened Dict
  import LedgerSpec
  import Leases
  import opened DispatchMachine

  function Outcomes(calls: seq<LedgerSpec.Call>): (log: seq<Completed>)
    ensures |log| == |calls|
    ensures forall n :: 0 <= n < |calls| ==>
              log[n] == Completed(KeyOf(calls[n].event, calls[n].sub), calls[n].error.None?)
  {
    seq(|calls|, n requires 0 <= n < |calls| =>
      Completed(KeyOf(calls[n].event, calls[n].sub), calls[n].error.None?))
  }

  /** The workers go over what this ledger holds, and their calls are its calls. */
  ghost predicate Shows(s: State, l: LedgerSpec.Ledger) {
    && s.events == l.events && s.subs == l.subs && s.rows == l.rows.data && s.leases == l.leases
    && s.log == Outcomes(l.calls)
  }

  /** Since s0 only worker i has moved, to w, and the ledger is now l. */
  ghost predicate Stands(s0: State, s: State, i: nat, l: LedgerSpec.Ledger, w: Worker) {
    && Shows(s, l) && i < |s0.workers| && s.workers == s0.workers[i := w]
    && s.lost == s0.lost && s.erased == s0.erased
  }

  /** Policy and lease time are the bus's. */
  predicate Same(p: Params, env: LedgerSpec.Env) {
    p.policy == env.policy && p.leaseTtl == env.leaseTtl
  }

  function Calls(i: nat, holder: string, error: Option<string>, n: nat): (run: seq<Action>)
    ensures |run| == n
  {
    if n == 0 then [] else Calls(i, holder, error, n - 1) + [Go(i, holder, error)]
  }

  lemma OneMoreCall(p: Params, s: State, i: nat, holder: string, error: Option<string>, n: nat)
    ensures Exec(p, s, Calls(i, holder, error, 0)) == s
    ensures Exec(p, s, Calls(i, holder, error, n + 1))
            == Step(p, Exec(p, s, Calls(i, holder, error, n)), Go(i, holder, error))
  {
    hide Step;
    assert Calls(i, holder, error, n + 1)[..n] == Calls(i, holder, error, n);
  }

  /** After n calls of worker i, named and answered so, the ledger is l and the worker w, and no time has gone by. */
  ghost predicate Reaches(p: Params, s0: State, s: State, i: nat, holder: string, error: Option<string>, n: nat,
                          l: LedgerSpec.Ledger, w: Worker) {
    var t := Exec(p, s, Calls(i, holder, error, n));
    t.clock == s.clock && Stands(s0, t, i, l, w)
  }

  lemma StartReaches(p: Params, s0: State, s: State, i: nat, holder: string, error: Option<string>,
                     l: LedgerSpec.Ledger, w: Worker)
    requires Stands(s0, s, i, l, w)
    ensures Reaches(p, s0, s, i, holder, error, 0, l, w)
  {
    hide Step;
  }

  /** A worker whose row is delivered already passes on. */
  lemma SkipsTurn(p: Params, s0: State, s: State, i: nat, holder: string, error: Option<string>, n: nat,
                  l: LedgerSpec.Ledger, event: Event, todo: seq<Subscription>)
    requires Reaches(p, s0, s, i, holder, error, n, l, Working(event, todo, FastPath)) && todo != []
    ensures Reaches(p, s0, s, i, holder, error, n + 1, l,
                    if IsDelivered(l.rows.data, KeyOf(event, todo[0])) then Next(event, todo[1..])
                    else Working(event, todo, Timing))
  {
    OneMoreCall(p, s, i, holder, error, n);
    hide Exec, Calls;
  }

  lemma TimesTurn(p: Params, s0: State, s: State, i: nat, holder: string, error: Option<string>, n: nat,
                  l: LedgerSpec.Ledger, event: Event, todo: seq<Subscription>)
    requires Reaches(p, s0, s, i, holder, error, n, l, Working(event, todo, Timing)) && todo != []
    ensures Reaches(p, s0, s, i, holder, error, n + 1, l,
                    Working(event, todo, Locking(s.clock)))
  {
    OneMoreCall(p, s, i, holder, error, n);
    hide Exec, Calls;
  }

  /** The ledger once a clock reading and a name have been taken and the lease asked for. */
  function Asked(env: LedgerSpec.Env, l: LedgerSpec.Ledger, k: RowKey): LedgerSpec.Ledger {
    var now, holder := env.clock(l.ticks), env.newName(l.names);
    l.(ticks := l.ticks + 1, names := l.names + 1,
       leases := Leases.Acquire(l.leases, LeaseKey(k), holder, now + env.leaseTtl, now).0)
  }

  function ClaimOf(env: LedgerSpec.Env, l: LedgerSpec.Ledger): Claim {
    Claim(env.newName(l.names), env.clock(l.ticks), env.clock(l.ticks) + env.leaseTtl)
  }

  lemma LocksTurn(p: Params, s0: State, s: State, i: nat, holder: string, error: Option<string>, n: nat,
                  env: LedgerSpec.Env, l: LedgerSpec.Ledger, event: Event, todo: seq<Subscription>)
    requires Reaches(p, s0, s, i, holder, error, n, l, Working(event, todo, Locking(env.clock(l.ticks)))) && todo != []
    requires Same(p, env) && holder == env.newName(l.names)
    ensures Reaches(p, s0, s, i, holder, error, n + 1, Asked(env, l, KeyOf(event, todo[0])),
                    if Leases.Held(l.leases, LeaseKey(KeyOf(event, todo[0])), env.clock(l.ticks))
                    then Next(event, todo[1..]) else Working(event, todo, Rechecking(ClaimOf(env, l))))
  {
    OneMoreCall(p, s, i, holder, error, n);
    hide Exec, Calls;
  }

  lemma ChecksTurn(p: Params, s0: State, s: State, i: nat, holder: string, error: Option<string>, n: nat,
                   l: LedgerSpec.Ledger, event: Event, todo: seq<Subscription>, c: Claim)
    requires Reaches(p, s0, s, i, holder, error, n, l, Working(event, todo, Rechecking(c))) && todo != []
    requires !IsDelivered(l.rows.data, KeyOf(event, todo[0]))
    ensures Reaches(p, s0, s, i, holder, error, n + 1, l,
                    Working(event, todo, Delivering(c, AttemptsOf(l.rows.data, KeyOf(event, todo[0])) + 1)))
  {
    OneMoreCall(p, s, i, holder, error, n);
    hide Exec, Calls;
  }

  /** The ledger once the handler has been called, once its row is stored too, and once its lease is free. */
  function Called(l: LedgerSpec.Ledger, event: Event, sub: Subscription, error: Option<string>,
                  now: real): LedgerSpec.Ledger {
    l.(calls := l.calls + [LedgerSpec.Call(sub, event, error, now)])
  }

  function Stored(l: LedgerSpec.Ledger, k: RowKey, row: Delivery): LedgerSpec.Ledger {
    l.(rows := Put(l.rows, k, row))
  }

  function Freed(l: LedgerSpec.Ledger, k: RowKey, holder: string): LedgerSpec.Ledger {
    l.(leases := Leases.Release(l.leases, LeaseKey(k), holder))
  }

  lemma DeliversTurn(p: Params, s0: State, s: State, i: nat, holder: string, error: Option<string>, n: nat,
                     l: LedgerSpec.Ledger, event: Event, todo: seq<Subscription>, c: Claim, m: nat)
    requires Reaches(p, s0, s, i, holder, error, n, l, Working(event, todo, Delivering(c, m))) && todo != []
    requires m >= 1
    ensures Reaches(p, s0, s, i, holder, error, n + 1, Called(l, event, todo[0], error, c.now),
                    Working(event, todo, Storing(c, RowAfter(p.policy, KeyOf(event, todo[0]), m, error, c.now))))
  {
    OneMoreCall(p, s, i, holder, error, n);
    hide Exec, Calls, RowAfter;
  }

  lemma StoresTurn(p: Params, s0: State, s: State, i: nat, holder: string, error: Option<string>, n: nat,
                   l: LedgerSpec.Ledger, event: Event, todo: seq<Subscription>, c: Claim, row: Delivery)
    requires Reaches(p, s0, s, i, holder, error, n, l, Working(event, todo, Storing(c, row))) && todo != []
    requires !IsDelivered(l.rows.data, KeyOf(event, todo[0]))
    ensures Reaches(p, s0, s, i, holder, error, n + 1, Stored(l, KeyOf(event, todo[0]), row),
                    Working(event, todo, Unlocking(c)))
  {
    OneMoreCall(p, s, i, holder, error, n);
    hide Exec, Calls;
  }

  lemma UnlocksTurn(p: Params, s0: State, s: State, i: nat, holder: string, error: Option<string>, n: nat,
                    l: LedgerSpec.Ledger, event: Event, todo: seq<Subscription>, c: Claim)
    requires Reaches(p, s0, s, i, holder, error, n, l, Working(event, todo, Unlocking(c))) && todo != []
    ensures Reaches(p, s0, s, i, holder, error, n + 1, Freed(l, KeyOf(event, todo[0]), c.holder),
                    Next(event, todo[1..]))
  {
    OneMoreCall(p, s, i, holder, error, n);
    hide Exec, Calls;
  }

  /** The row that call leaves. */
  function RowOf(env: LedgerSpec.Env, l: LedgerSpec.Ledger, k: RowKey, now: real): Delivery {
    RowAfter(env.policy, k, AttemptsOf(l.rows.data, k) + 1, env.handler(|l.calls|), now)
  }

  /** From the lease granted to the lease released. */
  lemma SectionTurns(p: Params, s0: State, s: State, i: nat, holder: string, error: Option<string>, n: nat,
                     env: LedgerSpec.Env, l: LedgerSpec.Ledger, event: Event, todo: seq<Subscription>, c: Claim)
    requires Reaches(p, s0, s, i, holder, error, n, l, Working(event, todo, Rechecking(c))) && todo != []
    requires Same(p, env) && !IsDelivered(l.rows.data, KeyOf(event, todo[0])) && error == env.handler(|l.calls|)
    ensures Reaches(p, s0, s, i, holder, error, n + 4,
                    Freed(LedgerSpec.Deliver(env, l, event, todo[0], c.now), KeyOf(event, todo[0]), c.holder),
                    Next(event, todo[1..]))
  {
    var k, attempts := KeyOf(event, todo[0]), AttemptsOf(l.rows.data, KeyOf(event, todo[0])) + 1;
    var l1, row := Called(l, event, todo[0], error, c.now), RowAfter(p.policy, k, attempts, error, c.now);
    assert LedgerSpec.Deliver(env, l, event, todo[0], c.now) == Stored(l1, k, row) && l1.rows == l.rows;
    hide Reaches, RowAfter, LedgerSpec.Deliver, Called, Stored, Freed;
    ChecksTurn(p, s0, s, i, holder, error, n, l, event, todo, c);
    DeliversTurn(p, s0, s, i, holder, error, n + 1, l, event, todo, c, attempts);
    StoresTurn(p, s0, s, i, holder, error, n + 2, l1, event, todo, c, row);
    UnlocksTurn(p, s0, s, i, holder, error, n + 3, Stored(l1, k, row), event, todo, c);
  }

  lemma AttemptIs(env: LedgerSpec.Env, l: LedgerSpec.Ledger, event: Event, sub: Subscription)
    ensures var k, t := KeyOf(event, sub), LedgerSpec.Attempt(env, l, event, sub);
            if IsDelivered(l.rows.data, k) then t == l
            else if Leases.Held(l.leases, LeaseKey(k), env.clock(l.ticks)) then t == Asked(env, l, k)
            else t == Freed(LedgerSpec.Deliver(env, Asked(env, l, k), event, sub, env.clock(l.ticks)), k,
                            env.newName(l.names))
  {
    hide LedgerSpec.Deliver;
  }

  /** From the clock reading on, when the row is not delivered. */
  lemma LeaseTurns(p: Params, s0: State, s: State, i: nat, holder: string, error: Option<string>,
                   env: LedgerSpec.Env, l: LedgerSpec.Ledger, event: Event, todo: seq<Subscription>)
    returns (n: nat)
    requires Reaches(p, s0, s, i, holder, error, 1, l, Working(event, todo, Timing)) && todo != []
    requires Same(p, env) && s.clock == env.clock(l.ticks) && !IsDelivered(l.rows.data, KeyOf(event, todo[0]))
    requires holder == env.newName(l.names) && error == env.handler(|l.calls|)
    ensures n <= 7
    ensures Reaches(p, s0, s, i, holder, error, n, LedgerSpec.Attempt(env, l, event, todo[0]), Next(event, todo[1..]))
  {
    var k := KeyOf(event, todo[0]);
    var asked, c := Asked(env, l, k), ClaimOf(env, l);
    AttemptIs(env, l, event, todo[0]);
    assert asked.rows == l.rows && asked.calls == l.calls;
    hide Reaches, LedgerSpec.Attempt, LedgerSpec.Deliver, Freed, Asked, Next, IsDelivered;
    TimesTurn(p, s0, s, i, holder, error, 1, l, event, todo);
    LocksTurn(p, s0, s, i, holder, error, 2, env, l, event, todo);
    if Leases.Held(l.leases, LeaseKey(k), env.clock(l.ticks)) {
      n := 3;
    } else {
      SectionTurns(p, s0, s, i, holder, error, 3, env, asked, event, todo, c);
      n := 7;
    }
  }

  /** Seven undisturbed calls at most make the bus's attempt. */
  lemma AttemptsAlone(p: Params, env: LedgerSpec.Env, s0: State, s: State, i: nat, l: LedgerSpec.Ledger,
                      event: Event, todo: seq<Subscription>) returns (n: nat)
    requires Same(p, env) && todo != [] && s.clock == env.clock(l.ticks)
    requires Stands(s0, s, i, l, Working(event, todo, FastPath))
    ensures n <= 7
    ensures Reaches(p, s0, s, i, env.newName(l.names), env.handler(|l.calls|), n,
                    LedgerSpec.Attempt(env, l, event, todo[0]), Next(event, todo[1..]))
  {
    var k, holder, error := KeyOf(event, todo[0]), env.newName(l.names), env.handler(|l.calls|);
    AttemptIs(env, l, event, todo[0]);
    hide Reaches, Stands, LedgerSpec.Attempt, Freed, Asked, Next, IsDelivered;
    StartReaches(p, s0, s, i, holder, error, l, Working(event, todo, FastPath));
    SkipsTurn(p, s0, s, i, holder, error, 0, l, event, todo);
    n := 1;
    if !IsDelivered(l.rows.data, k) {
      n := LeaseTurns(p, s0, s, i, holder, error, env, l, event, todo);
    }
  }

  // ----- a whole dispatch -----

  /** Fanning out goes through the subscriptions from the first on. */
  lemma {:induction false} FirstThenRest(env: LedgerSpec.Env, l: LedgerSpec.Ledger, event: Event,
                                         subs: seq<Subscription>)
    requires subs != []
    ensures LedgerSpec.AttemptAll(env, l, event, subs)
            == LedgerSpec.AttemptAll(env, LedgerSpec.Attempt(env, l, event, subs[0]), event, subs[1..])
  {
    hide LedgerSpec.Attempt;
    if |subs| > 1 {
      FirstThenRest(env, l, event, subs[..|subs| - 1]);
      assert subs[..|subs| - 1][1..] == subs[1..][..|subs[1..]| - 1];
    }
  }

  /** Only time and this worker move. */
  ghost predicate OnlyMoves(run: seq<Action>, i: nat) {
    forall a :: a in run ==> a.Tick? || (a.Go? && a.w == i)
  }

  lemma {:induction false} CallsMoveOne(i: nat, holder: string, error: Option<string>, n: nat)
    ensures OnlyMoves(Calls(i, holder, error, n), i)
  {
    if n > 0 { CallsMoveOne(i, holder, error, n - 1); }
  }

  /** The clock that everybody reads never goes back. */
  ghost predicate Ascends(env: LedgerSpec.Env) {
    forall m: nat, n: nat :: m <= n ==> env.clock(m) <= env.clock(n)
  }

  lemma TickStands(p: Params, s0: State, s: State, i: nat, l: LedgerSpec.Ledger, w: Worker, to: real)
    requires Stands(s0, s, i, l, w) && s.clock <= to
    ensures Exec(p, s, [Tick(to)]).clock == to && Stands(s0, Exec(p, s, [Tick(to)]), i, l, w)
  {
    assert [Tick(to)][..0] == [];
  }

  lemma AttemptTicks(env: LedgerSpec.Env, l: LedgerSpec.Ledger, event: Event, sub: Subscription)
    ensures l.ticks <= LedgerSpec.Attempt(env, l, event, sub).ticks
  {
  }

  lemma OneCall(p: Params, s: State, i: nat, name: string)
    requires i < |s.workers|
    ensures Exec(p, s, [Go(i, name, None)]) == Act(p, s, i, name, None)
  {
    hide Act;
    assert [Go(i, name, None)][..0] == [];
  }

  /** Undisturbed, a worker goes through its subscriptions as the bus does. */
  lemma {:induction false} FansOutAlone(p: Params, env: LedgerSpec.Env, s0: State, s: State, i: nat,
                                        l: LedgerSpec.Ledger, event: Event, todo: seq<Subscription>)
    returns (run: seq<Action>)
    requires Same(p, env) && Ascends(env) && s.clock <= env.clock(l.ticks) && Stands(s0, s, i, l, Next(event, todo))
    ensures OnlyMoves(run, i)
    ensures Stands(s0, Exec(p, s, run), i, LedgerSpec.AttemptAll(env, l, event, todo), Stopped)
    decreases |todo|
  {
    if todo == [] {
      run := [];
    } else {
      var holder, error, now := env.newName(l.names), env.handler(|l.calls|), env.clock(l.ticks);
      FirstThenRest(env, l, event, todo);
      AttemptTicks(env, l, event, todo[0]);
      TickStands(p, s0, s, i, l, Next(event, todo), now);
      hide Exec, Stands, LedgerSpec.Attempt, LedgerSpec.AttemptAll, Calls;
      var s1 := Exec(p, s, [Tick(now)]);
      var n := AttemptsAlone(p, env, s0, s1, i, l, event, todo);
      CallsMoveOne(i, holder, error, n);
      var calls := Calls(i, holder, error, n);
      var s2 := Exec(p, s1, calls);
      var rest := FansOutAlone(p, env, s0, s2, i, LedgerSpec.Attempt(env, l, event, todo[0]), event, todo[1..]);
      ExecAppend(p, s, [Tick(now)], calls);
      ExecAppend(p, s, [Tick(now)] + calls, rest);
      run := [Tick(now)] + calls + rest;
    }
  }

  /**
   Undisturbed, a worker given an event does to the ledger what the bus's dispatch does: the same rows,
   leases and handler calls.
   */
  lemma DispatchesAlone(p: Params, env: LedgerSpec.Env, s: State, i: nat, l: LedgerSpec.Ledger, event: Event,
                        name: string) returns (run: seq<Action>)
    requires Same(p, env) && Ascends(env) && s.clock <= env.clock(l.ticks) && Shows(s, l)
    requires i < |s.workers| && s.workers[i] == Listing(event)
    ensures OnlyMoves(run, i)
    ensures Stands(s, Exec(p, s, run), i, LedgerSpec.Dispatch(env, l, event), Stopped)
  {
    var todo, lists := LedgerSpec.Matching(l, event.org, event.kind), [Go(i, name, None)];
    OneCall(p, s, i, name);
    var s1 := Exec(p, s, lists);
    assert Stands(s, s1, i, l, Next(event, todo));
    hide Exec, Stands, Act;
    var rest := FansOutAlone(p, env, s, s1, i, l, event, todo);
    ExecAppend(p, s, lists, rest);
    run := lists + rest;
  }

  /** And a worker given a stored delivery does what the bus's retry of it does. */
  lemma RetriesAlone(p: Params, env: LedgerSpec.Env, s: State, i: nat, l: LedgerSpec.Ledger, k: RowKey, name: string)
    returns (run: seq<Action>)
    requires Same(p, env) && Ascends(env) && s.clock <= env.clock(l.ticks) && Shows(s, l)
    requires i < |s.workers| && s.workers[i] == Loading(k)
    ensures OnlyMoves(run, i)
    ensures Stands(s, Exec(p, s, run), i, LedgerSpec.AttemptPending(env, l, k), Stopped)
  {
    var loads := [Go(i, name, None)];
    OneCall(p, s, i, name);
    var s1 := Exec(p, s, loads);
    run := loads;
    if (k.source, k.eventId) in l.events {
      var event := l.events[(k.source, k.eventId)];
      var s2 := Act(p, s1, i, name, None);
      OneCall(p, s1, i, name);
      ExecAppend(p, s, loads, loads);
      run := loads + loads;
      if k.subId in l.subs.data {
        var todo := [l.subs.data[k.subId]];
        assert Stands(s, s2, i, l, Next(event, todo));
        assert todo[..0] == [] && LedgerSpec.AttemptAll(env, l, event, []) == l;
        hide Exec, Stands, Act, LedgerSpec.Attempt;
        var rest := FansOutAlone(p, env, s, s2, i, l, event, todo);
        ExecAppend(p, s, loads + loads, rest);
        run := loads + loads + rest;
      }
    }
  }

  /** Whoever else records an event under its key, the one recorded first stays. */
  lemma {:induction false} FirstEventStays(p: Params, s: State, run: seq<Action>, key: (string, string))
    requires key in s.events
    ensures key in Exec(p, s, run).events && Exec(p, s, run).events[key] == s.events[key]
  {
    if run != [] {
      hide WorkerAfter, LeasesAfter, RowsAfter, LogAfter, ErasedAfter;
      FirstEventStays(p, s, run[..|run| - 1], key);
    }
  }
}
