/**
 Any number of refresh_if_needed callers over one store, one call at a time.

 Every caller runs `Refresh.Advance`; the store answers from its current token and its
 dictionary of leases, the provider from the scheduler's choice.  `history` and `calls`
 only remember what was written and what the provider was asked.
 */
module RefreshMachine {
  import opened Wrappers
  import Leases
  import opened Refresh
  import TokenChain

  /** `version` and `until` remember what the caller last read and last asked for. */
  datatype Proc = Proc(local: Local, holder: string, version: nat, until: real, crashed: bool)

  datatype State = State(clock: real, leases: Leases.Table<string>, history: seq<Token>, calls: seq<TokenChain.Call>,
                         procs: seq<Proc>)

  datatype Action =
    | Tick(to: real)
    | Go(p: nat, provider: Option<Token>)   // the caller's next call; the provider's answer if it is asked
    | Crash(p: nat)

  const KEY: string := "connection"

  function Current(s: State): Token
    requires s.history != []
  {
    s.history[|s.history| - 1]
  }

  /** The next call of a caller and the answer it gets; None once it has finished. */
  function Answer(p: Params, s: State, me: Proc, provider: Option<Token>): Option<Event>
    requires s.history != []
  {
    var l := me.local;
    match l.pc
    case Opening => Some(GotConnection(Some(Connection(Some(Current(s))))))
    case Rereading => Some(GotConnection(Some(Connection(Some(Current(s))))))
    case WaitReading => Some(GotConnection(Some(Connection(Some(Current(s))))))
    case FirstClock => Some(ReadClock(s.clock))
    case TakingClock => Some(ReadClock(s.clock))
    case UnderClock => Some(ReadClock(s.clock))
    case WaitClock => Some(ReadClock(s.clock))
    case Acquiring =>
      var until := l.now + p.leaseTtl;
      Some(TriedLease(until, l.now, Leases.Acquire(s.leases, KEY, me.holder, until, l.now).1))
    case Asking => if HasToken(l.conn) then Some(CalledProvider(l.conn.value.token.value, l.now, provider)) else None
    case Saving(renewed) => Some(WroteToken(renewed, l.now))
    case Freeing(_) => Some(ReleasedLease)
    case Sleeping => Some(Slept)
    case Probing => Some(Probed(l.now, Leases.Held(s.leases, KEY, l.now)))
    case Finished(_) => None
    case Stuck => None
  }

  function LeasesAfter(s: State, me: Proc, e: Event): Leases.Table<string> {
    match e
    case TriedLease(until, now, _) => Leases.Acquire(s.leases, KEY, me.holder, until, now).0
    case ReleasedLease => Leases.Release(s.leases, KEY, me.holder)
    case _ => s.leases
  }

  function HistoryAfter(s: State, e: Event): seq<Token> {
    if e.WroteToken? then s.history + [e.token] else s.history
  }

  function CallsAfter(s: State, me: Proc, e: Event): seq<TokenChain.Call> {
    if e.CalledProvider? && e.result.Some?
    then s.calls + [TokenChain.Call(me.version, e.given, e.result.value)]
    else s.calls
  }

  function ProcAfter(p: Params, s: State, me: Proc, e: Event): Proc
    requires s.history != []
  {
    Proc(Advance(p, me.local, e), me.holder,
         if e.GotConnection? then |s.history| - 1 else me.version,
         if e.TriedLease? then e.until else me.until,
         me.crashed)
  }

  function Act(p: Params, s: State, i: nat, provider: Option<Token>): State
    requires i < |s.procs| && s.history != []
  {
    var me := s.procs[i];
    match Answer(p, s, me, provider)
    case None => s
    case Some(e) =>
      State(s.clock, LeasesAfter(s, me, e), HistoryAfter(s, e), CallsAfter(s, me, e),
            s.procs[i := ProcAfter(p, s, me, e)])
  }

  /** A caller may die anywhere; it then keeps its lease until that expires. */
  function Step(p: Params, s: State, a: Action): State {
    match a
    case Tick(to) => if to >= s.clock then s.(clock := to) else s
    case Go(i, provider) =>
      if i < |s.procs| && !s.procs[i].crashed && s.history != [] then Act(p, s, i, provider) else s
    case Crash(i) => if i < |s.procs| then s.(procs := s.procs[i := s.procs[i].(crashed := true)]) else s
  }

  function Exec(p: Params, s: State, run: seq<Action>): State {
    if run == [] then s else Step(p, Exec(p, s, run[..|run| - 1]), run[|run| - 1])
  }

  ghost predicate Initial(s: State) {
    && |s.history| == 1 && s.calls == []
    && (forall i :: 0 <= i < |s.procs| ==> s.procs[i].local == START && !s.procs[i].crashed)
  }

  predicate Inside(q: Proc) {
    InSection(q.local.pc) && !q.crashed
  }

  /** Caller i asks for the lease with a clock reading at or past the deadline of another caller inside. */
  ghost predicate LateEntry(s: State, i: nat) {
    && i < |s.procs| && !s.procs[i].crashed && s.procs[i].local.pc.Acquiring?
    && exists j :: 0 <= j < |s.procs| && j != i && Inside(s.procs[j]) && s.procs[j].until <= s.procs[i].local.now
  }

  ghost predicate NoLateEntry(p: Params, s: State, run: seq<Action>) {
    forall k :: 0 <= k < |run| && run[k].Go? ==> !LateEntry(Exec(p, s, run[..k]), run[k].p)
  }

  /** A caller dies holding the provider's answer, before writing it. */
  predicate LosesAnswer(s: State, a: Action) {
    a.Crash? && a.p < |s.procs| && s.procs[a.p].local.pc.Saving?
  }

  ghost predicate NoLostAnswer(p: Params, s: State, run: seq<Action>) {
    forall k :: 0 <= k < |run| ==> !LosesAnswer(Exec(p, s, run[..k]), run[k])
  }

  /** A caller gets an answer from the provider for a version whose first answer died with another caller. */
  ghost predicate AsksAgain(s: State, a: Action) {
    && a.Go? && a.provider.Some? && a.p < |s.procs| && !s.procs[a.p].crashed && s.procs[a.p].local.pc.Asking?
    && DeadOnAnswer(s)
  }

  /** Some caller died with the provider's answer for the current version, unwritten. */
  ghost predicate DeadOnAnswer(s: State) {
    exists j :: 0 <= j < |s.procs| && s.procs[j].crashed && s.procs[j].local.pc.Saving?
                && s.procs[j].version == |s.history| - 1
  }

  ghost predicate NeverAsksAgain(p: Params, s: State, run: seq<Action>) {
    forall k :: 0 <= k < |run| ==> !AsksAgain(Exec(p, s, run[..k]), run[k])
  }

  /** No lease runs out while its acquirer is between acquire and release. */
  ghost predicate Timely(s: State) {
    forall i :: 0 <= i < |s.procs| && Inside(s.procs[i]) ==> s.clock < s.procs[i].until
  }

  ghost predicate AlwaysTimely(p: Params, s: State, run: seq<Action>) {
    forall k :: 0 <= k <= |run| ==> Timely(Exec(p, s, run[..k]))
  }

  ghost predicate Exclusive(s: State) {
    forall i, j :: 0 <= i < j < |s.procs| ==> !(Inside(s.procs[i]) && Inside(s.procs[j]))
  }

  ghost predicate AlwaysExclusive(p: Params, s: State, run: seq<Action>) {
    forall k :: 0 <= k <= |run| ==> Exclusive(Exec(p, s, run[..k]))
  }

  /** What the callers have in common with those of any other lease. */
  function View(s: State): TokenChain.Vault {
    TokenChain.Vault(s.history, s.calls,
                     seq(|s.procs|, i requires 0 <= i < |s.procs| =>
                       TokenChain.Caller(s.procs[i].local, s.procs[i].version, s.procs[i].crashed)))
  }

  /** The step as TokenChain sees it: a call with its answer, a death, or nothing. */
  function Seen(p: Params, s: State, a: Action): TokenChain.Action {
    match a
    case Tick(_) => TokenChain.Rest
    case Go(i, provider) =>
      if i < |s.procs| && !s.procs[i].crashed && s.history != [] then
        match Answer(p, s, s.procs[i], provider)
        case None => TokenChain.Rest
        case Some(e) => TokenChain.Hear(i, e)
      else TokenChain.Rest
    case Crash(i) => TokenChain.Die(i)
  }

  function SeenRun(p: Params, s: State, run: seq<Action>): (seen: seq<TokenChain.Action>)
    ensures |seen| == |run|
  {
    if run == [] then [] else
      SeenRun(p, s, run[..|run| - 1]) + [Seen(p, Exec(p, s, run[..|run| - 1]), run[|run| - 1])]
  }

  /** The provider never answers a caller whose version has been replaced, or is answered already. */
  ghost predicate NeverRepeats(p: Params, s: State, run: seq<Action>) {
    TokenChain.NeverRepeats(p, View(s), SeenRun(p, s, run))
  }

  lemma StepFrame(p: Params, s: State, a: Action)
    ensures |Step(p, s, a).procs| == |s.procs|
    ensures s.clock <= Step(p, s, a).clock
    ensures s.history <= Step(p, s, a).history && s.calls <= Step(p, s, a).calls
    ensures forall i :: 0 <= i < |s.procs| && (a.Tick? || i != a.p) ==> Step(p, s, a).procs[i] == s.procs[i]
    ensures forall i :: 0 <= i < |s.procs| ==> Step(p, s, a).procs[i].holder == s.procs[i].holder
  {
  }

  // ----- who is inside -----

  /** What caller i holds. */
  ghost predicate LeaseOk(s: State, i: nat)
    requires i < |s.procs|
  {
    var me := s.procs[i];
    && me.local.pc != Stuck
    && (me.local.pc.Acquiring? ==> me.local.now <= s.clock)
    && (Inside(me) ==> KEY in s.leases && s.leases[KEY] == Leases.Lease(me.holder, me.until))
  }

  ghost predicate LeaseInv(s: State) {
    s.history != [] && Exclusive(s) && forall i :: 0 <= i < |s.procs| ==> LeaseOk(s, i)
  }

  /** The lease is there for caller i to take. */
  predicate Free(s: State, me: Proc) {
    me.local.pc.Acquiring? && !Leases.Held(s.leases, KEY, me.local.now)
  }

  /** What a call of caller i may do to the rest of the system. */
  ghost predicate Touches(s: State, t: State, i: nat)
    requires i < |s.procs|
  {
    && t.clock == s.clock && |t.procs| == |s.procs|
    && (forall j :: 0 <= j < |s.procs| && j != i ==> t.procs[j] == s.procs[j])
    && s.history <= t.history && s.calls <= t.calls
    && (Inside(s.procs[i]) || (t.history == s.history && t.calls == s.calls))
    && (t.leases == s.leases || Inside(s.procs[i]) || Free(s, s.procs[i]))
    && (Inside(t.procs[i]) ==> Inside(s.procs[i]) || Free(s, s.procs[i]))
  }

  lemma GoTouches(p: Params, s: State, i: nat, provider: Option<Token>)
    requires s.history != [] && i < |s.procs| && !s.procs[i].crashed
    ensures Touches(s, Act(p, s, i, provider), i)
  {
  }

  lemma OthersStay(s: State, t: State, i: nat, j: nat)
    requires LeaseInv(s) && !LateEntry(s, i) && i < |s.procs| && j < |s.procs| && i != j
    requires !s.procs[i].crashed && Touches(s, t, i)
    ensures LeaseOk(t, j)
    ensures Inside(t.procs[i]) ==> !Inside(t.procs[j])
  {
    assert LeaseOk(s, j);
    assert i < j ==> !(Inside(s.procs[i]) && Inside(s.procs[j]));
    assert j < i ==> !(Inside(s.procs[i]) && Inside(s.procs[j]));
  }

  lemma MineStays(p: Params, s: State, i: nat, provider: Option<Token>)
    requires s.history != [] && i < |s.procs| && LeaseOk(s, i)
    ensures i < |Act(p, s, i, provider).procs| && LeaseOk(Act(p, s, i, provider), i)
  {
  }

  lemma GoKeepsLeases(p: Params, s: State, i: nat, provider: Option<Token>)
    requires LeaseInv(s) && !LateEntry(s, i) && i < |s.procs| && !s.procs[i].crashed
    ensures LeaseInv(Act(p, s, i, provider))
  {
    hide Act, LateEntry;
    var t := Act(p, s, i, provider);
    assert LeaseOk(s, i);
    MineStays(p, s, i, provider);
    GoTouches(p, s, i, provider);
    forall j | 0 <= j < |s.procs| && j != i
      ensures LeaseOk(t, j) && (Inside(t.procs[i]) ==> !Inside(t.procs[j]))
    {
      OthersStay(s, t, i, j);
    }
    forall j, k | 0 <= j < k < |t.procs| ensures !(Inside(t.procs[j]) && Inside(t.procs[k])) {
      assert !(Inside(s.procs[j]) && Inside(s.procs[k]));
    }
  }

  lemma StepKeepsLeases(p: Params, s: State, a: Action)
    requires LeaseInv(s) && (a.Go? ==> !LateEntry(s, a.p))
    ensures LeaseInv(Step(p, s, a))
  {
    if a.Go? {
      if a.p < |s.procs| && !s.procs[a.p].crashed { GoKeepsLeases(p, s, a.p, a.provider); }
    } else {
      var t := Step(p, s, a);
      forall i | 0 <= i < |t.procs| ensures LeaseOk(t, i) { assert LeaseOk(s, i); }
      forall i, j | 0 <= i < j < |t.procs| ensures !(Inside(t.procs[i]) && Inside(t.procs[j])) {
        assert !(Inside(s.procs[i]) && Inside(s.procs[j]));
      }
    }
  }

  lemma {:induction false} ExecKeepsLeases(p: Params, s: State, run: seq<Action>)
    requires Initial(s) && NoLateEntry(p, s, run)
    ensures LeaseInv(Exec(p, s, run))
  {
    if run != [] {
      hide Step, LateEntry, LeaseInv, Initial;
      var front := run[..|run| - 1];
      assert forall k :: 0 <= k <= |front| ==> front[..k] == run[..k];
      ExecKeepsLeases(p, s, front);
      StepKeepsLeases(p, Exec(p, s, front), run[|run| - 1]);
    }
  }

  /** A second caller gets in beside the first exactly when it reads a clock at or past the first one's deadline. */
  lemma EntersExactlyOnExpiry(p: Params, s: State, i: nat, j: nat, provider: Option<Token>)
    requires LeaseInv(s) && i < |s.procs| && j < |s.procs| && i != j
    requires !s.procs[i].crashed && s.procs[i].local.pc.Acquiring? && Inside(s.procs[j])
    ensures var t := Act(p, s, i, provider);
            i < |t.procs| && j < |t.procs| && Inside(t.procs[j])
            && (Inside(t.procs[i]) <==> s.procs[j].until <= s.procs[i].local.now)
  {
    assert LeaseOk(s, i) && LeaseOk(s, j);
  }

  /** A late entry is granted: two callers are inside. */
  lemma LateEntryBreaks(p: Params, s: State, i: nat, provider: Option<Token>)
    requires LeaseInv(s) && LateEntry(s, i)
    ensures !Exclusive(Step(p, s, Go(i, provider)))
  {
    var j :| 0 <= j < |s.procs| && j != i && Inside(s.procs[j]) && s.procs[j].until <= s.procs[i].local.now;
    EntersExactlyOnExpiry(p, s, i, j, provider);
    assert i < j || j < i;
  }

  lemma ExclusiveFront(p: Params, s: State, run: seq<Action>)
    requires run != [] && AlwaysExclusive(p, s, run)
    ensures AlwaysExclusive(p, s, run[..|run| - 1]) && Exclusive(Exec(p, s, run))
  {
    hide Exec, Exclusive;
    var front := run[..|run| - 1];
    assert forall k :: 0 <= k <= |front| ==> front[..k] == run[..k];
    assert run[..|run|] == run;
  }

  lemma {:induction false} ExclusiveHasNoLateEntry(p: Params, s: State, run: seq<Action>)
    requires Initial(s) && AlwaysExclusive(p, s, run)
    ensures NoLateEntry(p, s, run)
  {
    if run != [] {
      var front, last := run[..|run| - 1], run[|run| - 1];
      assert Exec(p, s, run) == Step(p, Exec(p, s, front), last);
      hide Step, Exec, LateEntry, NoLateEntry, AlwaysExclusive, LeaseInv, Initial, Exclusive;
      ExclusiveFront(p, s, run);
      ExclusiveHasNoLateEntry(p, s, front);
      ExecKeepsLeases(p, s, front);
      if last.Go? {
        assert last == Go(last.p, last.provider);
        if LateEntry(Exec(p, s, front), last.p) { LateEntryBreaks(p, Exec(p, s, front), last.p, last.provider); }
      }
      NeverLateNext(p, s, run);
    }
  }

  // ----- what is written -----

  lemma StepSeen(p: Params, s: State, a: Action)
    ensures View(Step(p, s, a)) == TokenChain.Step(p, View(s), Seen(p, s, a))
  {
  }

  lemma {:induction false} ExecSeen(p: Params, s: State, run: seq<Action>)
    ensures View(Exec(p, s, run)) == TokenChain.Exec(p, View(s), SeenRun(p, s, run))
  {
    if run != [] {
      hide Step, View, Seen;
      var front := run[..|run| - 1];
      ExecSeen(p, s, front);
      StepSeen(p, Exec(p, s, front), run[|run| - 1]);
      assert SeenRun(p, s, run)[..|front|] == SeenRun(p, s, front);
    }
  }

  /** Whoever asks has a token to ask about, and whoever does so inside has the current one. */
  ghost predicate ReadOk(s: State, i: nat)
    requires i < |s.procs|
  {
    var me, pc := s.procs[i], s.procs[i].local.pc;
    && (pc.Asking? ==> HasToken(me.local.conn))
    && (Inside(me) && (pc.UnderClock? || pc.Asking? || pc.Saving?) ==> me.version == |s.history| - 1)
  }

  ghost predicate ReadsOk(s: State) {
    forall i :: 0 <= i < |s.procs| ==> ReadOk(s, i)
  }

  lemma GoKeepsReads(p: Params, s: State, i: nat, provider: Option<Token>)
    requires s.history != [] && Exclusive(s) && ReadsOk(s) && i < |s.procs| && !s.procs[i].crashed
    ensures ReadsOk(Act(p, s, i, provider))
  {
    GoTouches(p, s, i, provider);
    var t := Act(p, s, i, provider);
    MyReadStays(p, s, i, provider);
    hide Act;
    forall j | 0 <= j < |t.procs| && j != i ensures ReadOk(t, j) {
      assert ReadOk(s, j);
      assert i < j || j < i;
    }
  }

  lemma MyReadStays(p: Params, s: State, i: nat, provider: Option<Token>)
    requires s.history != [] && i < |s.procs| && !s.procs[i].crashed && ReadOk(s, i)
    ensures var t := Act(p, s, i, provider); i < |t.procs| && ReadOk(t, i)
  {
  }

  lemma StepKeepsReads(p: Params, s: State, a: Action)
    requires LeaseInv(s) && ReadsOk(s)
    ensures ReadsOk(Step(p, s, a))
  {
    if a.Go? && a.p < |s.procs| && !s.procs[a.p].crashed {
      GoKeepsReads(p, s, a.p, a.provider);
    } else {
      var t := Step(p, s, a);
      forall i | 0 <= i < |t.procs| ensures ReadOk(t, i) { assert ReadOk(s, i); }
    }
  }

  lemma {:induction false} ExecKeepsReads(p: Params, s: State, run: seq<Action>)
    requires Initial(s) && NoLateEntry(p, s, run)
    ensures LeaseInv(Exec(p, s, run)) && ReadsOk(Exec(p, s, run))
  {
    ExecKeepsLeases(p, s, run);
    if run != [] {
      hide Step, LateEntry, LeaseInv, Initial, ReadsOk;
      var front := run[..|run| - 1];
      assert forall k :: 0 <= k <= |front| ==> front[..k] == run[..k];
      ExecKeepsReads(p, s, front);
      StepKeepsReads(p, Exec(p, s, front), run[|run| - 1]);
    }
  }

  /** One at a time inside, the only repeats are answers for a version whose first answer died with its caller. */
  lemma RepeatsOnlyOnDeath(p: Params, s: State, a: Action)
    requires LeaseInv(s) && ReadsOk(s)
    ensures TokenChain.Repeats(p, View(s), Seen(p, s, a)) <==> AsksAgain(s, a)
  {
    if a.Go? && a.p < |s.procs| && !s.procs[a.p].crashed && s.procs[a.p].local.pc.Asking? {
      assert ReadOk(s, a.p);
      AnsweredMeansDead(s, a.p);
    }
  }

  lemma AnsweredMeansDead(s: State, i: nat)
    requires Exclusive(s) && i < |s.procs| && Inside(s.procs[i]) && s.procs[i].local.pc.Asking?
    ensures TokenChain.Answered(View(s)) <==> DeadOnAnswer(s)
  {
    var v := View(s);
    if TokenChain.Answered(v) {
      var j :| 0 <= j < |v.callers| && v.callers[j].local.pc.Saving? && v.callers[j].version == |v.history| - 1;
      assert i < j || j < i;
      assert s.procs[j].crashed && s.procs[j].local.pc.Saving?;
    }
    if DeadOnAnswer(s) {
      var j :| 0 <= j < |s.procs| && s.procs[j].crashed && s.procs[j].local.pc.Saving?
        && s.procs[j].version == |s.history| - 1;
      assert v.callers[j].local.pc.Saving?;
    }
  }

  lemma AsksAgainNext(p: Params, s: State, run: seq<Action>)
    requires run != []
    ensures var front := run[..|run| - 1];
            NeverAsksAgain(p, s, run) <==> NeverAsksAgain(p, s, front) && !AsksAgain(Exec(p, s, front), run[|run| - 1])
  {
    hide Exec, AsksAgain;
    var front := run[..|run| - 1];
    assert forall k :: 0 <= k < |front| ==> front[..k] == run[..k] && front[k] == run[k];
    assert run[..|front|] == front;
    if NeverAsksAgain(p, s, run) {
      forall k | 0 <= k < |front| ensures !AsksAgain(Exec(p, s, front[..k]), front[k]) {
        assert !AsksAgain(Exec(p, s, run[..k]), run[k]);
      }
    }
    if NeverAsksAgain(p, s, front) && !AsksAgain(Exec(p, s, front), run[|run| - 1]) {
      forall k | 0 <= k < |run| ensures !AsksAgain(Exec(p, s, run[..k]), run[k]) {
        if k < |front| { assert !AsksAgain(Exec(p, s, front[..k]), front[k]); }
      }
    }
  }

  lemma {:induction false} NeverRepeatsIsNeverAskedAgain(p: Params, s: State, run: seq<Action>)
    requires Initial(s) && NoLateEntry(p, s, run)
    ensures NeverRepeats(p, s, run) <==> NeverAsksAgain(p, s, run)
  {
    if run != [] {
      var front, last := run[..|run| - 1], run[|run| - 1];
      assert SeenRun(p, s, run)[..|front|] == SeenRun(p, s, front);
      assert SeenRun(p, s, run)[|front|] == Seen(p, Exec(p, s, front), last);
      assert forall k :: 0 <= k <= |front| ==> front[..k] == run[..k];
      hide Exec, Step, View, Seen, SeenRun, AsksAgain, NeverAsksAgain, LeaseInv, LateEntry, Initial, ReadsOk;
      hide TokenChain.NeverRepeats, TokenChain.Repeats;
      NeverRepeatsIsNeverAskedAgain(p, s, front);
      ExecSeen(p, s, front);
      ExecKeepsReads(p, s, front);
      RepeatsOnlyOnDeath(p, Exec(p, s, front), last);
      AsksAgainNext(p, s, run);
      TokenChain.NeverRepeatsNext(p, View(s), SeenRun(p, s, run));
    }
  }

  /** The store's answers are always ones the caller's code provides for. */
  ghost predicate NoneStuck(s: State) {
    forall i :: 0 <= i < |s.procs| ==> s.procs[i].local.pc != Stuck
  }

  lemma InvNoneStuck(s: State)
    requires LeaseInv(s)
    ensures NoneStuck(s)
  {
    forall i | 0 <= i < |s.procs| ensures s.procs[i].local.pc != Stuck { assert LeaseOk(s, i); }
  }

  // ----- what holds in every run -----

  /**
   In every interleaving of any number of callers, dying where they may: one caller at most is
   ever inside exactly when none enters at a time past the deadline of one that is inside.
   */
  lemma ExclusiveExactlyWithoutLateEntry(p: Params, s: State, run: seq<Action>)
    requires Initial(s)
    ensures AlwaysExclusive(p, s, run) <==> NoLateEntry(p, s, run)
  {
    if NoLateEntry(p, s, run) {
      forall k | 0 <= k <= |run| ensures Exclusive(Exec(p, s, run[..k])) {
        var part := run[..k];
        assert forall m :: 0 <= m < k ==> part[..m] == run[..m] && part[m] == run[m];
        ExecKeepsLeases(p, s, part);
      }
    }
    if AlwaysExclusive(p, s, run) { ExclusiveHasNoLateEntry(p, s, run); }
  }

  /**
   In every interleaving, late or not, every stored token version is refreshed at most once exactly
   when the provider never answers a caller whose version has been replaced or is answered already,
   and the stored tokens then form one unforked chain.  With nobody late one caller at most is inside,
   and that is when nobody gets an answer for a version whose first answer died with its caller.
   */
  lemma RefreshedAtMostOnce(p: Params, s: State, run: seq<Action>)
    requires Initial(s)
    ensures var t := Exec(p, s, run);
            && (TokenChain.Distinct(t.calls) <==> NeverRepeats(p, s, run))
            && (NeverRepeats(p, s, run) ==> TokenChain.Chain(t.history, t.calls))
            && (NoLateEntry(p, s, run) ==>
                  Exclusive(t) && NoneStuck(t) && (NeverRepeats(p, s, run) <==> NeverAsksAgain(p, s, run)))
  {
    hide Exec, SeenRun, TokenChain.NeverRepeats, NeverAsksAgain, NoLateEntry;
    ExecSeen(p, s, run);
    TokenChain.RefreshedOnceExactlyWithoutRepeats(p, View(s), SeenRun(p, s, run));
    if NoLateEntry(p, s, run) {
      ExecKeepsLeases(p, s, run);
      InvNoneStuck(Exec(p, s, run));
      NeverRepeatsIsNeverAskedAgain(p, s, run);
    }
  }

  ghost predicate NobodyDiedSaving(s: State) {
    forall j :: 0 <= j < |s.procs| && s.procs[j].local.pc.Saving? ==> !s.procs[j].crashed
  }

  lemma StepLosesNothing(p: Params, s: State, a: Action)
    requires NobodyDiedSaving(s) && !LosesAnswer(s, a)
    ensures !AsksAgain(s, a) && NobodyDiedSaving(Step(p, s, a))
  {
    StepFrame(p, s, a);
  }

  /** Callers that do not die between the provider's answer and the write are enough. */
  lemma {:induction false} UnlostIsNeverAskedAgain(p: Params, s: State, run: seq<Action>)
    requires Initial(s) && NoLostAnswer(p, s, run)
    ensures NeverAsksAgain(p, s, run) && NobodyDiedSaving(Exec(p, s, run))
  {
    if run != [] {
      hide Step, LosesAnswer, AsksAgain, NobodyDiedSaving, Initial;
      var front, last := run[..|run| - 1], run[|run| - 1];
      assert forall k :: 0 <= k <= |front| ==> front[..k] == run[..k];
      UnlostIsNeverAskedAgain(p, s, front);
      StepLosesNothing(p, Exec(p, s, front), last);
      forall k | 0 <= k < |run| ensures !AsksAgain(Exec(p, s, run[..k]), run[k]) {
        if k < |front| { assert front[k] == run[k] && front[..k] == run[..k]; }
      }
    }
  }

  lemma OnTime(s: State, i: nat)
    requires LeaseInv(s) && Timely(s)
    ensures !LateEntry(s, i)
  {
    if i < |s.procs| { assert LeaseOk(s, i); }
  }

  lemma TimelyFront(p: Params, s: State, run: seq<Action>)
    requires run != [] && AlwaysTimely(p, s, run)
    ensures var front := run[..|run| - 1]; AlwaysTimely(p, s, front) && Timely(Exec(p, s, front))
  {
    hide Exec, Timely;
    var front := run[..|run| - 1];
    assert forall k :: 0 <= k <= |front| ==> front[..k] == run[..k];
    assert run[..|front|] == front;
  }

  lemma NeverLateNext(p: Params, s: State, run: seq<Action>)
    requires run != [] && NoLateEntry(p, s, run[..|run| - 1])
    requires run[|run| - 1].Go? ==> !LateEntry(Exec(p, s, run[..|run| - 1]), run[|run| - 1].p)
    ensures NoLateEntry(p, s, run)
  {
    hide Exec, LateEntry;
    var front := run[..|run| - 1];
    forall k | 0 <= k < |run| && run[k].Go? ensures !LateEntry(Exec(p, s, run[..k]), run[k].p) {
      if k < |front| { assert front[k] == run[k] && front[..k] == run[..k]; }
    }
  }

  /** Leases that outlast their sections are enough: nobody is then late. */
  lemma {:induction false} TimelyIsNeverLate(p: Params, s: State, run: seq<Action>)
    requires Initial(s) && AlwaysTimely(p, s, run)
    ensures NoLateEntry(p, s, run)
  {
    if run != [] {
      hide Step, Exec, LateEntry, NoLateEntry, AlwaysTimely, LeaseInv, Timely, Initial;
      var front, last := run[..|run| - 1], run[|run| - 1];
      TimelyFront(p, s, run);
      TimelyIsNeverLate(p, s, front);
      ExecKeepsLeases(p, s, front);
      if last.Go? { OnTime(Exec(p, s, front), last.p); }
      NeverLateNext(p, s, run);
    }
  }

  /** The token to renew is expired from the start and its replacement outlives the run. */
  ghost predicate OneLongRenewal(p: Params, first: State, last: State) {
    && first.history != [] && IsExpired(first.history[0], p.skew, first.clock)
    && (last.calls != [] ==> !IsExpired(last.calls[0].issued, p.skew, last.clock))
  }

  /** Every clock reading of a run lies between its ends. */
  lemma {:induction false} ReadingsInRun(p: Params, s: State, run: seq<Action>)
    ensures s.clock <= Exec(p, s, run).clock
    ensures forall k :: 0 <= k < |run| && SeenRun(p, s, run)[k].Hear? && SeenRun(p, s, run)[k].e.ReadClock? ==>
              s.clock <= SeenRun(p, s, run)[k].e.now <= Exec(p, s, run).clock
  {
    if run != [] {
      hide Step;
      var front, last := run[..|run| - 1], run[|run| - 1];
      ReadingsInRun(p, s, front);
      StepFrame(p, Exec(p, s, front), last);
      forall k | 0 <= k < |run| && SeenRun(p, s, run)[k].Hear? && SeenRun(p, s, run)[k].e.ReadClock?
        ensures s.clock <= SeenRun(p, s, run)[k].e.now <= Exec(p, s, run).clock
      {
        if k < |front| { assert SeenRun(p, s, run)[k] == SeenRun(p, s, front)[k]; }
      }
    }
  }

  /**
   The single-writer promise: if the stored token is expired and the first replacement stays
   unexpired, there is at most one refresh, and every caller that returns returns its result.
   */
  lemma OneRefreshServesAll(p: Params, s: State, run: seq<Action>)
    requires Initial(s) && NeverRepeats(p, s, run) && OneLongRenewal(p, s, Exec(p, s, run))
    ensures var t := Exec(p, s, run);
            && |t.calls| <= 1
            && (forall i :: 0 <= i < |t.procs| && TokenChain.HasReturned(t.procs[i].local.pc) ==>
                  |t.calls| == 1 && t.procs[i].local.pc.outcome.token == t.calls[0].issued)
  {
    hide Exec, SeenRun;
    var t := Exec(p, s, run);
    ReadingsInRun(p, s, run);
    ExecSeen(p, s, run);
    TokenChain.OneRefreshServesAll(p, View(s), SeenRun(p, s, run));
    forall i | 0 <= i < |t.procs| && TokenChain.HasReturned(t.procs[i].local.pc)
      ensures |t.calls| == 1 && t.procs[i].local.pc.outcome.token == t.calls[0].issued
    {
      assert View(t).callers[i].local == t.procs[i].local;
    }
  }

  // ----- both conditions are needed -----

  lemma ExecSnoc(p: Params, s: State, run: seq<Action>, a: Action)
    ensures Exec(p, s, run + [a]) == Step(p, Exec(p, s, run), a)
  {
    assert (run + [a])[..|run|] == run;
  }

  lemma {:induction false} ExecAppend(p: Params, s: State, run: seq<Action>, tail: seq<Action>)
    ensures Exec(p, s, run + tail) == Exec(p, Exec(p, s, run), tail)
  {
    if tail == [] {
      assert run + tail == run;
    } else {
      assert run + tail == (run + tail[..|tail| - 1]) + [tail[|tail| - 1]];
      ExecAppend(p, s, run, tail[..|tail| - 1]);
      ExecSnoc(p, s, run + tail[..|tail| - 1], tail[|tail| - 1]);
    }
  }

  function Approach(i: nat): seq<Action> {
    [Go(i, None), Go(i, None), Go(i, None)] + [Go(i, None), Go(i, None), Go(i, None)]
  }

  lemma Exec3(p: Params, s: State, a: Action, b: Action, c: Action)
    ensures Exec(p, s, [a, b, c]) == Step(p, Step(p, Step(p, s, a), b), c)
  {
    ExecSnoc(p, s, [], a);
    ExecSnoc(p, s, [a], b);
    ExecSnoc(p, s, [a, b], c);
    assert [] + [a] == [a] && [a] + [b] == [a, b] && [a, b] + [c] == [a, b, c];
  }

  /** Caller i, having read the current token, at this point of its call. */
  function At(s: State, i: nat, pc: Pc, until: real): State
    requires i < |s.procs| && s.history != []
  {
    s.(procs := s.procs[i := Proc(Local(pc, Some(Connection(Some(Current(s)))), s.clock, 0.0),
                                  s.procs[i].holder, |s.history| - 1, until, false)])
  }

  function Granted(p: Params, s: State, i: nat): State
    requires i < |s.procs|
  {
    s.(leases := s.leases[KEY := Leases.Lease(s.procs[i].holder, s.clock + p.leaseTtl)])
  }

  lemma ComesToAcquire(p: Params, s: State, i: nat)
    requires i < |s.procs| && s.procs[i].local == START && !s.procs[i].crashed && s.history != []
    requires IsExpired(Current(s), p.skew, s.clock)
    ensures var g := Go(i, None);
            Step(p, Step(p, Step(p, s, g), g), g) == At(s, i, Acquiring, s.procs[i].until)
  {
    var s1 := Step(p, s, Go(i, None));
    assert s1.procs[i].local == Local(FirstClock, Some(Connection(Some(Current(s)))), 0.0, 0.0);
    var s2 := Step(p, s1, Go(i, None));
    assert s2 == At(s, i, TakingClock, s.procs[i].until);
  }

  lemma ComesThroughLease(p: Params, s: State, i: nat, until: real)
    requires i < |s.procs| && s.history != []
    requires IsExpired(Current(s), p.skew, s.clock) && !Leases.Held(s.leases, KEY, s.clock)
    ensures var g := Go(i, None);
            Step(p, Step(p, Step(p, At(s, i, Acquiring, until), g), g), g)
            == At(Granted(p, s, i), i, Asking, s.clock + p.leaseTtl)
  {
    var u := Granted(p, s, i);
    var s1 := Step(p, At(s, i, Acquiring, until), Go(i, None));
    assert s1 == At(u, i, Rereading, s.clock + p.leaseTtl);
    var s2 := Step(p, s1, Go(i, None));
    assert s2 == At(u, i, UnderClock, s.clock + p.leaseTtl);
  }

  /** Left alone, a new caller of an expired token comes to the point of asking the provider. */
  lemma ComesToAsk(p: Params, s: State, i: nat)
    requires i < |s.procs| && s.procs[i].local == START && !s.procs[i].crashed && s.history != []
    requires IsExpired(Current(s), p.skew, s.clock) && !Leases.Held(s.leases, KEY, s.clock)
    ensures Exec(p, s, Approach(i)) == At(Granted(p, s, i), i, Asking, s.clock + p.leaseTtl)
  {
    var g := Go(i, None);
    ExecAppend(p, s, [g, g, g], [g, g, g]);
    Exec3(p, s, g, g, g);
    ComesToAcquire(p, s, i);
    Exec3(p, At(s, i, Acquiring, s.procs[i].until), g, g, g);
    ComesThroughLease(p, s, i, s.procs[i].until);
  }

  function TwoCallers(stale: Token): State {
    State(0.0, map[], [stale], [], [Proc(START, "a", 0, 0.0, false), Proc(START, "b", 0, 0.0, false)])
  }

  /** Caller 0 stalls before asking, its lease of one second runs out, caller 1 takes over. */
  function Stall(): seq<Action> {
    Approach(0) + [Tick(2.0)] + Approach(1)
  }

  lemma StallReached(p: Params, stale: Token)
    requires p.leaseTtl == 1.0 && IsExpired(stale, p.skew, 0.0)
    ensures var s := TwoCallers(stale);
            var s2 := At(Granted(p, s, 0), 0, Asking, 1.0).(clock := 2.0);
            Exec(p, s, Stall()) == At(Granted(p, s2, 1), 1, Asking, 3.0)
  {
    var s := TwoCallers(stale);
    ComesToAsk(p, s, 0);
    ExecSnoc(p, s, Approach(0), Tick(2.0));
    ExecAppend(p, s, Approach(0) + [Tick(2.0)], Approach(1));
    ComesToAsk(p, At(Granted(p, s, 0), 0, Asking, 1.0).(clock := 2.0), 1);
  }

  lemma BothAsk(p: Params, s: State, renewed: Token)
    requires s.calls == [] && |s.history| == 1 && |s.procs| == 2
    requires forall i :: 0 <= i < 2 ==> s.procs[i].local.pc == Asking && HasToken(s.procs[i].local.conn)
                                        && s.procs[i].version == 0 && !s.procs[i].crashed
    ensures var t := Step(p, Step(p, s, Go(0, Some(renewed))), Go(1, Some(renewed)));
            && !Exclusive(t) && |t.calls| == 2 && t.calls[0].version == 0 == t.calls[1].version
  {
    var s1 := Step(p, s, Go(0, Some(renewed)));
    assert s1.procs[0].local.pc == Saving(renewed) && s1.procs[1] == s.procs[1];
    var t := Step(p, s1, Go(1, Some(renewed)));
    assert Inside(t.procs[0]) && Inside(t.procs[1]);
  }

  /** With a late entry one token version is refreshed twice. */
  lemma ExpiryRefreshesTwice(p: Params, stale: Token, renewed: Token)
    requires p.leaseTtl == 1.0 && IsExpired(stale, p.skew, 0.0)
    ensures Initial(TwoCallers(stale))
    ensures var t := Exec(p, TwoCallers(stale), Stall() + [Go(0, Some(renewed))] + [Go(1, Some(renewed))]);
            !Exclusive(t) && |t.calls| == 2 && t.calls[0].version == t.calls[1].version
  {
    var s := TwoCallers(stale);
    StallReached(p, stale);
    ExecSnoc(p, s, Stall(), Go(0, Some(renewed)));
    ExecSnoc(p, s, Stall() + [Go(0, Some(renewed))], Go(1, Some(renewed)));
    BothAsk(p, Exec(p, s, Stall()), renewed);
  }

  // ----- a caller that dies with the answer in hand -----

  predicate OnlyMoves(run: seq<Action>, i: nat) {
    forall k :: 0 <= k < |run| ==> (run[k].Go? && run[k].p == i) || !run[k].Go?
  }

  ghost predicate OthersOutside(s: State, i: nat) {
    forall j :: 0 <= j < |s.procs| && j != i ==> !Inside(s.procs[j])
  }

  /** Nobody is late where only one caller moves and no other is inside. */
  lemma {:induction false} AloneIsNeverLate(p: Params, s: State, run: seq<Action>, i: nat)
    requires OthersOutside(s, i) && OnlyMoves(run, i)
    ensures NoLateEntry(p, s, run) && OthersOutside(Exec(p, s, run), i)
  {
    if run != [] {
      var front := run[..|run| - 1];
      assert forall k :: 0 <= k <= |front| ==> front[..k] == run[..k];
      AloneIsNeverLate(p, s, front, i);
      StepFrame(p, Exec(p, s, front), run[|run| - 1]);
    }
  }

  lemma AppendedAt<T>(run: seq<T>, tail: seq<T>, k: nat)
    requires k < |run + tail|
    ensures k < |run| ==> (run + tail)[..k] == run[..k] && (run + tail)[k] == run[k]
    ensures |run| <= k ==> (run + tail)[..k] == run + tail[..k - |run|] && (run + tail)[k] == tail[k - |run|]
  {
  }

  lemma NeverLateAppend(p: Params, s: State, run: seq<Action>, tail: seq<Action>)
    requires NoLateEntry(p, s, run) && NoLateEntry(p, Exec(p, s, run), tail)
    ensures NoLateEntry(p, s, run + tail)
  {
    hide LateEntry, Exec;
    var all := run + tail;
    forall k | 0 <= k < |all| && all[k].Go? ensures !LateEntry(Exec(p, s, all[..k]), all[k].p) {
      AppendedAt(run, tail, k);
      if k >= |run| { ExecAppend(p, s, run, tail[..k - |run|]); }
    }
  }

  /** Caller 0 comes as far as the provider's answer and dies; its lease of one second runs out. */
  function Death(renewed: Token): seq<Action> {
    Approach(0) + [Go(0, Some(renewed)), Crash(0), Tick(2.0)]
  }

  lemma DeathReached(p: Params, stale: Token, renewed: Token)
    requires p.leaseTtl == 1.0 && IsExpired(stale, p.skew, 0.0)
    ensures var t := Exec(p, TwoCallers(stale), Death(renewed));
            && t.clock == 2.0 && t.history == [stale] && |t.procs| == 2 && t.procs[1] == TwoCallers(stale).procs[1]
            && t.procs[0].crashed && |t.calls| == 1 && t.calls[0].version == 0
            && !Leases.Held(t.leases, KEY, 2.0)
  {
    var s := TwoCallers(stale);
    ComesToAsk(p, s, 0);
    ExecAppend(p, s, Approach(0), [Go(0, Some(renewed)), Crash(0), Tick(2.0)]);
    Exec3(p, At(Granted(p, s, 0), 0, Asking, 1.0), Go(0, Some(renewed)), Crash(0), Tick(2.0));
  }

  /** The next caller finds the same version stored and refreshes it. */
  lemma RefreshesCurrent(p: Params, s: State, i: nat, renewed: Token)
    requires i < |s.procs| && s.procs[i].local == START && !s.procs[i].crashed && s.history != []
    requires IsExpired(Current(s), p.skew, s.clock) && !Leases.Held(s.leases, KEY, s.clock)
    ensures var t := Exec(p, s, Approach(i) + [Go(i, Some(renewed))]);
            t.calls == s.calls + [TokenChain.Call(|s.history| - 1, Current(s), renewed)]
  {
    ComesToAsk(p, s, i);
    ExecSnoc(p, s, Approach(i), Go(i, Some(renewed)));
  }

  function Again(renewed: Token): seq<Action> {
    Approach(1) + [Go(1, Some(renewed))]
  }

  lemma DeathIsNeverLate(p: Params, stale: Token, renewed: Token)
    requires OthersOutside(Exec(p, TwoCallers(stale), Death(renewed)), 1)
    ensures NoLateEntry(p, TwoCallers(stale), Death(renewed) + Again(renewed))
  {
    var s := TwoCallers(stale);
    assert OthersOutside(s, 0) && OnlyMoves(Death(renewed), 0) && OnlyMoves(Again(renewed), 1);
    hide Exec, NoLateEntry, Death, Again, OthersOutside, OnlyMoves, TwoCallers;
    AloneIsNeverLate(p, s, Death(renewed), 0);
    AloneIsNeverLate(p, Exec(p, s, Death(renewed)), Again(renewed), 1);
    NeverLateAppend(p, s, Death(renewed), Again(renewed));
  }

  /** Though nobody is ever late, the lost answer makes the next caller refresh the same version again. */
  lemma LostAnswerRefreshesTwice(p: Params, stale: Token, renewed: Token)
    requires p.leaseTtl == 1.0 && IsExpired(stale, p.skew, 0.0)
    ensures var run := Death(renewed) + Again(renewed);
            var t := Exec(p, TwoCallers(stale), run);
            && Initial(TwoCallers(stale)) && NoLateEntry(p, TwoCallers(stale), run)
            && |t.calls| == 2 && t.calls[0].version == t.calls[1].version
  {
    hide Exec, Step, NoLateEntry, Death, Approach;
    var s := TwoCallers(stale);
    DeathReached(p, stale, renewed);
    DeathIsNeverLate(p, stale, renewed);
    ExecAppend(p, s, Death(renewed), Again(renewed));
    RefreshesCurrent(p, Exec(p, s, Death(renewed)), 1, renewed);
  }
}
