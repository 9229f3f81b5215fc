/**
 What any number of refresh_if_needed callers do to the stored token, whatever the clocks and
 the lease answer: the store answers from its current token, the provider and everything else
 as they like. `calls` remembers what the provider was asked.
 */
module TokenChain {
  import opened Wrappers
  import opened Refresh

  datatype Call = Call(version: nat, given: Token, issued: Token)

  /** `version` remembers which of the stored tokens the caller last read. */
  datatype Caller = Caller(local: Local, version: nat, dead: bool)

  datatype Vault = Vault(history: seq<Token>, calls: seq<Call>, callers: seq<Caller>)

  datatype Action =
    | Hear(i: nat, e: Event)   // caller i makes its next call and gets this answer
    | Die(i: nat)
    | Rest

  function Current(v: Vault): Token
    requires v.history != []
  {
    v.history[|v.history| - 1]
  }

  /** The answer is to the call the caller is about to make, and a read finds the current token. */
  predicate Hears(p: Params, v: Vault, i: nat, e: Event) {
    && v.history != [] && i < |v.callers| && !v.callers[i].dead
    && (e.GotConnection? ==> e.conn == Some(Connection(Some(Current(v)))))
    && Advance(p, v.callers[i].local, e).pc != Stuck
  }

  function Heard(p: Params, v: Vault, i: nat, e: Event): Vault
    requires Hears(p, v, i, e)
  {
    var me := v.callers[i];
    Vault(if e.WroteToken? then v.history + [e.token] else v.history,
          if e.CalledProvider? && e.result.Some?
          then v.calls + [Call(me.version, e.given, e.result.value)]
          else v.calls,
          v.callers[i := Caller(Advance(p, me.local, e),
                                if e.GotConnection? then |v.history| - 1 else me.version, false)])
  }

  /** A caller may die anywhere. */
  function Step(p: Params, v: Vault, a: Action): Vault {
    match a
    case Hear(i, e) => if Hears(p, v, i, e) then Heard(p, v, i, e) else v
    case Die(i) => if i < |v.callers| then v.(callers := v.callers[i := v.callers[i].(dead := true)]) else v
    case Rest => v
  }

  function Exec(p: Params, v: Vault, run: seq<Action>): Vault {
    if run == [] then v else Step(p, Exec(p, v, run[..|run| - 1]), run[|run| - 1])
  }

  ghost predicate Initial(v: Vault) {
    |v.history| == 1 && v.calls == [] && forall i :: 0 <= i < |v.callers| ==> v.callers[i].local == START
  }

  /** Some caller, dead or alive, has the provider's answer for the current version, unwritten. */
  ghost predicate Answered(v: Vault) {
    exists i :: 0 <= i < |v.callers| && v.callers[i].local.pc.Saving? && v.callers[i].version == |v.history| - 1
  }

  /** Some caller died with that answer. */
  ghost predicate DeadOnAnswer(v: Vault) {
    exists i :: 0 <= i < |v.callers| && v.callers[i].dead && v.callers[i].local.pc.Saving?
                && v.callers[i].version == |v.history| - 1
  }

  /** The provider answers a caller whose version has been replaced, or is answered already. */
  ghost predicate Repeats(p: Params, v: Vault, a: Action) {
    && a.Hear? && Hears(p, v, a.i, a.e) && a.e.CalledProvider? && a.e.result.Some?
    && (v.callers[a.i].version < |v.history| - 1 || Answered(v))
  }

  ghost predicate NeverRepeats(p: Params, v: Vault, run: seq<Action>) {
    forall k :: 0 <= k < |run| ==> !Repeats(p, Exec(p, v, run[..k]), run[k])
  }

  /** No version is refreshed twice. */
  ghost predicate Distinct(calls: seq<Call>) {
    forall i, j :: 0 <= i < j < |calls| ==> calls[i].version != calls[j].version
  }

  /** One unforked chain: the k-th provider call refreshed version k and produced version k + 1. */
  ghost predicate Chain(history: seq<Token>, calls: seq<Call>) {
    && |calls| <= |history| <= |calls| + 1
    && (forall k :: 0 <= k < |calls| ==>
          && calls[k].version == k && calls[k].given == history[k]
          && (k + 1 < |history| ==> history[k + 1] == calls[k].issued))
  }

  // ----- what is kept -----

  /** What caller i has read and is about to write. */
  ghost predicate CallerOk(v: Vault, i: nat)
    requires i < |v.callers|
  {
    var me, l := v.callers[i], v.callers[i].local;
    && (l.conn.Some? ==> me.version < |v.history| && l.conn == Some(Connection(Some(v.history[me.version]))))
    && (l.pc.UnderClock? || l.pc.Asking? || l.pc.Saving? ==> l.conn.Some?)
    && (l.pc.Saving? ==>
          me.version == |v.history| - 1 && |v.calls| == |v.history| && v.calls[|v.calls| - 1].issued == l.pc.renewed)
  }

  ghost predicate OneAnswer(v: Vault) {
    forall i, j :: 0 <= i < j < |v.callers| ==> !(v.callers[i].local.pc.Saving? && v.callers[j].local.pc.Saving?)
  }

  ghost predicate ChainInv(v: Vault) {
    && v.history != [] && Chain(v.history, v.calls) && OneAnswer(v)
    && (forall i :: 0 <= i < |v.callers| ==> CallerOk(v, i))
    && (|v.calls| == |v.history| ==> Answered(v))
  }

  /** With no answer in hand every version but the current one has been refreshed, and it has not. */
  lemma NothingOwed(p: Params, v: Vault, a: Action)
    requires ChainInv(v) && a.Hear? && Hears(p, v, a.i, a.e) && a.e.CalledProvider? && a.e.result.Some?
    requires !Repeats(p, v, a)
    ensures v.callers[a.i].local.pc.Asking? && v.callers[a.i].version == |v.history| - 1 == |v.calls|
    ensures a.e.given == Current(v)
    ensures forall j :: 0 <= j < |v.callers| ==> !v.callers[j].local.pc.Saving?
  {
    assert CallerOk(v, a.i);
    forall j | 0 <= j < |v.callers| ensures !v.callers[j].local.pc.Saving? { assert CallerOk(v, j); }
  }

  lemma AskKeepsChain(p: Params, v: Vault, i: nat, e: Event)
    requires ChainInv(v) && Hears(p, v, i, e) && e.CalledProvider? && e.result.Some? && !Repeats(p, v, Hear(i, e))
    ensures ChainInv(Heard(p, v, i, e))
  {
    NothingOwed(p, v, Hear(i, e));
    var t := Heard(p, v, i, e);
    assert t.callers[i].local.pc == Saving(e.result.value);
    forall j | 0 <= j < |t.callers| ensures CallerOk(t, j) { assert CallerOk(v, j); }
  }

  lemma WriteKeepsChain(p: Params, v: Vault, i: nat, e: Event)
    requires ChainInv(v) && Hears(p, v, i, e) && e.WroteToken?
    ensures ChainInv(Heard(p, v, i, e))
  {
    var t := Heard(p, v, i, e);
    assert v.callers[i].local.pc == Saving(e.token) && CallerOk(v, i);
    forall j | 0 <= j < |t.callers| ensures CallerOk(t, j) {
      assert CallerOk(v, j);
      assert i < j || j < i || i == j;
    }
  }

  /** An answer that is neither the provider's nor to a write changes only what its caller knows. */
  lemma ReadKeepsChain(p: Params, v: Vault, i: nat, e: Event)
    requires ChainInv(v) && Hears(p, v, i, e) && !e.WroteToken? && !(e.CalledProvider? && e.result.Some?)
    ensures ChainInv(Heard(p, v, i, e))
  {
    var t := Heard(p, v, i, e);
    assert !v.callers[i].local.pc.Saving? && !t.callers[i].local.pc.Saving?;
    forall j | 0 <= j < |t.callers| ensures CallerOk(t, j) { assert CallerOk(v, j); }
    if Answered(v) {
      var j :| 0 <= j < |v.callers| && v.callers[j].local.pc.Saving? && v.callers[j].version == |v.history| - 1;
      assert t.callers[j] == v.callers[j];
    }
  }

  lemma DeathKeepsChain(p: Params, v: Vault, i: nat)
    requires ChainInv(v)
    ensures ChainInv(Step(p, v, Die(i)))
  {
    var t := Step(p, v, Die(i));
    forall j | 0 <= j < |t.callers| ensures CallerOk(t, j) { assert CallerOk(v, j); }
    if Answered(v) {
      var j :| 0 <= j < |v.callers| && v.callers[j].local.pc.Saving? && v.callers[j].version == |v.history| - 1;
      assert t.callers[j].local == v.callers[j].local && t.callers[j].version == v.callers[j].version;
    }
  }

  lemma StepKeepsChain(p: Params, v: Vault, a: Action)
    requires ChainInv(v) && !Repeats(p, v, a)
    ensures ChainInv(Step(p, v, a))
  {
    hide ChainInv, Repeats, Heard, Hears;
    match a
    case Hear(i, e) =>
      if Hears(p, v, i, e) {
        if e.WroteToken? { WriteKeepsChain(p, v, i, e); }
        else if e.CalledProvider? && e.result.Some? { AskKeepsChain(p, v, i, e); }
        else { ReadKeepsChain(p, v, i, e); }
      }
    case Die(i) => DeathKeepsChain(p, v, i);
    case Rest =>
  }

  /** A repeated answer refreshes a version already refreshed. */
  lemma RepeatIsSecond(p: Params, v: Vault, a: Action)
    requires ChainInv(v) && Repeats(p, v, a)
    ensures !Distinct(Step(p, v, a).calls)
  {
    assert CallerOk(v, a.i);
    if Answered(v) {
      var j :| 0 <= j < |v.callers| && v.callers[j].local.pc.Saving? && v.callers[j].version == |v.history| - 1;
      assert CallerOk(v, j);
    }
    var t, n := Step(p, v, a), v.callers[a.i].version;
    assert n < |v.calls| && t.calls[n].version == n == t.calls[|v.calls|].version;
  }

  lemma StepExtends(p: Params, v: Vault, a: Action)
    ensures v.history <= Step(p, v, a).history && v.calls <= Step(p, v, a).calls
    ensures |Step(p, v, a).callers| == |v.callers|
  {
  }

  lemma {:induction false} ExecKeepsChain(p: Params, v: Vault, run: seq<Action>)
    requires Initial(v) && NeverRepeats(p, v, run)
    ensures ChainInv(Exec(p, v, run))
  {
    if run != [] {
      hide Step, Repeats, ChainInv, Initial;
      var front := run[..|run| - 1];
      assert forall k :: 0 <= k <= |front| ==> front[..k] == run[..k];
      ExecKeepsChain(p, v, front);
      assert !Repeats(p, Exec(p, v, run[..|front|]), run[|front|]);
      StepKeepsChain(p, Exec(p, v, front), run[|front|]);
    }
  }

  lemma NeverRepeatsNext(p: Params, v: Vault, run: seq<Action>)
    requires run != []
    ensures var front := run[..|run| - 1];
            NeverRepeats(p, v, run) <==> NeverRepeats(p, v, front) && !Repeats(p, Exec(p, v, front), run[|run| - 1])
  {
    hide Exec, Repeats;
    var front := run[..|run| - 1];
    assert forall k :: 0 <= k < |front| ==> front[..k] == run[..k] && front[k] == run[k];
    assert run[..|front|] == front;
    if NeverRepeats(p, v, run) {
      forall k | 0 <= k < |front| ensures !Repeats(p, Exec(p, v, front[..k]), front[k]) {
        assert !Repeats(p, Exec(p, v, run[..k]), run[k]);
      }
    }
    if NeverRepeats(p, v, front) && !Repeats(p, Exec(p, v, front), run[|run| - 1]) {
      forall k | 0 <= k < |run| ensures !Repeats(p, Exec(p, v, run[..k]), run[k]) {
        if k < |front| { assert !Repeats(p, Exec(p, v, front[..k]), front[k]); }
      }
    }
  }

  lemma {:induction false} DistinctNeverRepeats(p: Params, v: Vault, run: seq<Action>)
    requires Initial(v) && Distinct(Exec(p, v, run).calls)
    ensures NeverRepeats(p, v, run)
  {
    if run != [] {
      hide Step, Repeats, NeverRepeats, ChainInv, Initial;
      var front := run[..|run| - 1];
      StepExtends(p, Exec(p, v, front), run[|run| - 1]);
      DistinctNeverRepeats(p, v, front);
      ExecKeepsChain(p, v, front);
      if Repeats(p, Exec(p, v, front), run[|run| - 1]) { RepeatIsSecond(p, Exec(p, v, front), run[|run| - 1]); }
      NeverRepeatsNext(p, v, run);
    }
  }

  /**
   In every interleaving, whatever the clocks and the lease answer and whoever dies: every stored
   token version is refreshed at most once exactly when the provider never answers a caller whose
   version has been replaced or is answered already; the stored tokens then form one chain.
   */
  lemma RefreshedOnceExactlyWithoutRepeats(p: Params, v: Vault, run: seq<Action>)
    requires Initial(v)
    ensures var t := Exec(p, v, run);
            && (Distinct(t.calls) <==> NeverRepeats(p, v, run))
            && (NeverRepeats(p, v, run) ==> Chain(t.history, t.calls))
  {
    if Distinct(Exec(p, v, run).calls) { DistinctNeverRepeats(p, v, run); }
    if NeverRepeats(p, v, run) { ExecKeepsChain(p, v, run); }
  }

  // ----- one renewal for all -----

  /** By every clock reading the first token is expired and what its renewal gave is not. */
  ghost predicate OneLongRenewal(p: Params, first: Token, calls: seq<Call>, run: seq<Action>) {
    forall k :: 0 <= k < |run| && run[k].Hear? && run[k].e.ReadClock? ==>
      && IsExpired(first, p.skew, run[k].e.now)
      && (calls != [] ==> !IsExpired(calls[0].issued, p.skew, run[k].e.now))
  }

  /** Callers only ever hold, ask about or return what the first renewal left. */
  ghost predicate SettledCaller(v: Vault, i: nat)
    requires i < |v.callers| && v.history != []
  {
    var pc := v.callers[i].local.pc;
    && (pc.Asking? ==> v.callers[i].version == 0)
    && (Promised(pc).Returned? ==> |v.history| == 2 && Promised(pc).token == v.history[1])
  }

  ghost predicate Settled(v: Vault) {
    v.history != [] && |v.calls| <= 1 && forall i :: 0 <= i < |v.callers| ==> SettledCaller(v, i)
  }

  /** The caller that moves stays settled: it can only be asking about the first token. */
  lemma HearingSettles(p: Params, v: Vault, i: nat, e: Event)
    requires ChainInv(v) && Settled(v) && Hears(p, v, i, e) && !Repeats(p, v, Hear(i, e))
    requires OneLongRenewal(p, v.history[0], v.calls, [Hear(i, e)])
    ensures var t := Heard(p, v, i, e); |t.calls| <= 1 && t.history != [] && SettledCaller(t, i)
  {
    assert [Hear(i, e)][0] == Hear(i, e);
    assert SettledCaller(v, i) && CallerOk(v, i);
    if e.CalledProvider? && e.result.Some? { NothingOwed(p, v, Hear(i, e)); }
  }

  lemma OthersSettled(p: Params, v: Vault, i: nat, e: Event, j: nat)
    requires ChainInv(v) && Settled(v) && Hears(p, v, i, e) && j < |v.callers| && j != i
    ensures SettledCaller(Heard(p, v, i, e), j)
  {
    assert SettledCaller(v, j) && CallerOk(v, i);
  }

  lemma StepSettles(p: Params, v: Vault, a: Action)
    requires ChainInv(v) && Settled(v) && !Repeats(p, v, a) && OneLongRenewal(p, v.history[0], v.calls, [a])
    ensures Settled(Step(p, v, a))
  {
    hide OneLongRenewal, Repeats;
    match a
    case Hear(i, e) =>
      if Hears(p, v, i, e) {
        HearingSettles(p, v, i, e);
        forall j | 0 <= j < |v.callers| && j != i ensures SettledCaller(Heard(p, v, i, e), j) {
          OthersSettled(p, v, i, e, j);
        }
      }
    case Die(i) =>
      forall j | 0 <= j < |v.callers| ensures SettledCaller(Step(p, v, a), j) { assert SettledCaller(v, j); }
    case Rest =>
  }

  lemma RenewalFront(p: Params, first: Token, u: seq<Call>, t: seq<Call>, run: seq<Action>)
    requires run != [] && u <= t && OneLongRenewal(p, first, t, run)
    ensures OneLongRenewal(p, first, u, run[..|run| - 1]) && OneLongRenewal(p, first, u, [run[|run| - 1]])
  {
    assert forall k :: 0 <= k < |run| - 1 ==> run[..|run| - 1][k] == run[k];
    assert u != [] ==> u[0] == t[0];
  }

  lemma {:induction false} ExecSettles(p: Params, v: Vault, run: seq<Action>)
    requires Initial(v) && NeverRepeats(p, v, run)
    requires OneLongRenewal(p, v.history[0], Exec(p, v, run).calls, run)
    ensures var t := Exec(p, v, run); Settled(t) && ChainInv(t) && t.history[0] == v.history[0]
  {
    ExecKeepsChain(p, v, run);
    if run != [] {
      var front, last := run[..|run| - 1], run[|run| - 1];
      var u := Exec(p, v, front);
      assert Exec(p, v, run) == Step(p, u, last);
      hide Exec, Step, Repeats, NeverRepeats, ChainInv, OneLongRenewal, SettledCaller;
      StepExtends(p, u, last);
      NeverRepeatsNext(p, v, run);
      RenewalFront(p, v.history[0], u.calls, Exec(p, v, run).calls, run);
      ExecSettles(p, v, front);
      StepSettles(p, u, last);
    }
  }

  predicate HasReturned(pc: Pc) {
    pc.Finished? && pc.outcome.Returned?
  }

  lemma SettledReturns(t: Vault)
    requires ChainInv(t) && Settled(t)
    ensures |t.calls| <= 1
    ensures forall i :: 0 <= i < |t.callers| && HasReturned(t.callers[i].local.pc) ==>
              |t.calls| == 1 && t.callers[i].local.pc.outcome.token == t.calls[0].issued
  {
    forall i | 0 <= i < |t.callers| && HasReturned(t.callers[i].local.pc)
      ensures |t.calls| == 1 && t.callers[i].local.pc.outcome.token == t.calls[0].issued
    {
      assert SettledCaller(t, i);
    }
  }

  /**
   The single-writer promise, whatever the lease answers: if the stored token is expired and the
   first replacement is not, at every clock reading, there is at most one refresh, and every caller
   that returns returns its result.
   */
  lemma OneRefreshServesAll(p: Params, v: Vault, run: seq<Action>)
    requires Initial(v) && NeverRepeats(p, v, run)
    requires OneLongRenewal(p, v.history[0], Exec(p, v, run).calls, run)
    ensures var t := Exec(p, v, run);
            && |t.calls| <= 1
            && (forall i :: 0 <= i < |t.callers| && HasReturned(t.callers[i].local.pc) ==>
                  |t.calls| == 1 && t.callers[i].local.pc.outcome.token == t.calls[0].issued)
  {
    hide Exec, ChainInv, Settled, NeverRepeats, OneLongRenewal;
    ExecSettles(p, v, run);
    SettledReturns(Exec(p, v, run));
  }
}
