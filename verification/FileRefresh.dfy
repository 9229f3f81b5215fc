/**
 Callers of refresh_if_needed over the lock file: the callers of TokenChain, where a call to the
 lease is the sequence of file-system calls of FileLease, one per step.
 */
module FileRefresh {
  import opened Wrappers
  import opened Refresh
  import FileLease
  import TokenChain

  /** Process i of `files` makes the lease calls of caller i of `vault`. */
  datatype State = State(files: FileLease.State, vault: TokenChain.Vault)

  datatype Action =
    | Tick(to: real)
    | Write(i: nat, n: nat)   // part of a caller's os.write
    | Go(i: nat, provider: Option<Token>, gone: bool)
      // a caller's next call, with the provider's answer if it is asked, and whether
      // the lock it found was gone when it came to read it
    | Crash(i: nat)

  predicate Alive(s: State, i: nat) {
    i < |s.files.procs| && i < |s.vault.callers| && !s.vault.callers[i].dead && s.vault.history != []
  }

  function PcOf(s: State, i: nat): Pc
    requires i < |s.vault.callers|
  {
    s.vault.callers[i].local.pc
  }

  /** What a step does to the lock file; a tick of no time when it does nothing. */
  function FileStep(p: Params, s: State, a: Action): FileLease.Action {
    match a
    case Tick(to) => FileLease.Tick(to)
    case Write(i, n) => FileLease.WriteSome(i, n)
    case Crash(i) => FileLease.Crash(i)
    case Go(i, _, _) =>
      if !Alive(s, i) then FileLease.Tick(s.files.clock)
      else if PcOf(s, i).Freeing? then FileLease.Go(i)
      else if !PcOf(s, i).Acquiring? then FileLease.Tick(s.files.clock)
      else if s.files.procs[i].pc.Idle? then
        var now := s.vault.callers[i].local.now;
        FileLease.Begin(i, now + p.leaseTtl, now)
      else FileLease.Go(i)
  }

  /** lease_held: whether the lock exists, and then the deadline in it; one that cannot be read counts as held. */
  predicate Held(c: FileLease.Codec, files: FileLease.State, now: real, gone: bool) {
    if files.lock.None? then gone
    else
      var until := FileLease.UntilOf(c, FileLease.Content(files, files.lock.value));
      until.None? || until.value > now
  }

  /** The answer a living caller hears, if this step completes its call. */
  function Answer(p: Params, c: FileLease.Codec, s: State, i: nat, provider: Option<Token>, gone: bool): Option<Event>
    requires Alive(s, i)
  {
    var l, pc, now := s.vault.callers[i].local, s.files.procs[i].pc, s.vault.callers[i].local.now;
    match l.pc
    case Opening => Some(GotConnection(Some(Connection(Some(TokenChain.Current(s.vault))))))
    case Rereading => Some(GotConnection(Some(Connection(Some(TokenChain.Current(s.vault))))))
    case WaitReading => Some(GotConnection(Some(Connection(Some(TokenChain.Current(s.vault))))))
    case FirstClock => Some(ReadClock(s.files.clock))
    case TakingClock => Some(ReadClock(s.files.clock))
    case UnderClock => Some(ReadClock(s.files.clock))
    case WaitClock => Some(ReadClock(s.files.clock))
    case Acquiring =>
      if pc.Tidying? then Some(TriedLease(now + p.leaseTtl, now, true))
      else if pc.GivingUp? then Some(TriedLease(now + p.leaseTtl, now, false))
      else None
    case Freeing(_) => if FileLease.Advance(c, s.files, i).procs[i].pc.Idle? then Some(ReleasedLease) else None
    case Asking => if HasToken(l.conn) then Some(CalledProvider(l.conn.value.token.value, now, provider)) else None
    case Saving(renewed) => Some(WroteToken(renewed, now))
    case Sleeping => Some(Slept)
    case Probing => Some(Probed(now, Held(c, s.files, now, gone)))
    case Finished(_) => None
    case Stuck => None
  }

  function Seen(p: Params, c: FileLease.Codec, s: State, a: Action): TokenChain.Action {
    match a
    case Tick(_) => TokenChain.Rest
    case Write(_, _) => TokenChain.Rest
    case Crash(i) => TokenChain.Die(i)
    case Go(i, provider, gone) =>
      if !Alive(s, i) then TokenChain.Rest
      else
        match Answer(p, c, s, i, provider, gone)
        case None => TokenChain.Rest
        case Some(e) => TokenChain.Hear(i, e)
  }

  function Step(p: Params, c: FileLease.Codec, s: State, a: Action): State {
    State(FileLease.Step(c, s.files, FileStep(p, s, a)), TokenChain.Step(p, s.vault, Seen(p, c, s, a)))
  }

  function Exec(p: Params, c: FileLease.Codec, s: State, run: seq<Action>): State {
    if run == [] then s else Step(p, c, Exec(p, c, s, run[..|run| - 1]), run[|run| - 1])
  }

  function SeenRun(p: Params, c: FileLease.Codec, s: State, run: seq<Action>): (seen: seq<TokenChain.Action>)
    ensures |seen| == |run|
  {
    if run == [] then [] else
      SeenRun(p, c, s, run[..|run| - 1]) + [Seen(p, c, Exec(p, c, s, run[..|run| - 1]), run[|run| - 1])]
  }

  function FileRun(p: Params, c: FileLease.Codec, s: State, run: seq<Action>): (calls: seq<FileLease.Action>)
    ensures |calls| == |run|
  {
    if run == [] then [] else
      FileRun(p, c, s, run[..|run| - 1]) + [FileStep(p, Exec(p, c, s, run[..|run| - 1]), run[|run| - 1])]
  }

  // ----- what is proved -----

  ghost predicate Initial(s: State) {
    FileLease.Initial(s.files) && TokenChain.Initial(s.vault) && |s.files.procs| == |s.vault.callers|
    && forall i :: 0 <= i < |s.vault.callers| ==> !s.vault.callers[i].dead
  }

  /** No live lock is renamed over, and nobody gets in while a namesake waits to read back. */
  ghost predicate Undisturbed(p: Params, c: FileLease.Codec, s: State, run: seq<Action>) {
    && FileLease.PrintsAll(c, FileRun(p, c, s, run))
    && FileLease.Undisturbed(c, s.files, FileRun(p, c, s, run))
  }

  /** The provider never answers a caller whose version has been replaced, or is answered already. */
  ghost predicate NeverRepeats(p: Params, c: FileLease.Codec, s: State, run: seq<Action>) {
    TokenChain.NeverRepeats(p, s.vault, SeenRun(p, c, s, run))
  }

  /** A caller gets an answer for a version whose first answer died with another caller. */
  ghost predicate AsksAgain(s: State, a: Action) {
    && a.Go? && a.provider.Some? && Alive(s, a.i) && PcOf(s, a.i).Asking?
    && TokenChain.DeadOnAnswer(s.vault)
  }

  ghost predicate NeverAsksAgain(p: Params, c: FileLease.Codec, s: State, run: seq<Action>) {
    forall k :: 0 <= k < |run| ==> !AsksAgain(Exec(p, c, s, run[..k]), run[k])
  }

  /** Where a caller is in its call and where its process is among the files. */
  ghost predicate Coupled(s: State, i: nat)
    requires i < |s.files.procs| && i < |s.vault.callers|
  {
    var pc, at := PcOf(s, i), s.files.procs[i].pc;
    if s.vault.callers[i].dead then at.Dead?
    else if pc.Acquiring? then at.Tidying? || (!FileLease.InSection(at) && !at.Dead?)
    else if pc.Freeing? then at.Holding? || at.Checking? || at.Comparing? || at.Unlinking?
    else if pc.Rereading? || pc.UnderClock? || pc.Asking? || pc.Saving? then at.Holding?
    else at.Idle?
  }

  /** A living caller about to ask has a token to ask about, and from its read to its write that is the current one. */
  ghost predicate ReadOk(v: TokenChain.Vault, i: nat)
    requires i < |v.callers|
  {
    var me, pc := v.callers[i], v.callers[i].local.pc;
    && (pc.Asking? ==> HasToken(me.local.conn))
    && (!me.dead && (pc.UnderClock? || pc.Asking? || pc.Saving?) ==> me.version == |v.history| - 1)
  }

  ghost predicate Inv(s: State) {
    && s.vault.history != [] && |s.files.procs| == |s.vault.callers|
    && forall i :: 0 <= i < |s.vault.callers| ==> Coupled(s, i) && ReadOk(s.vault, i)
  }

  lemma {:induction false} ExecParts(p: Params, c: FileLease.Codec, s: State, run: seq<Action>)
    ensures Exec(p, c, s, run).files == FileLease.Exec(c, s.files, FileRun(p, c, s, run))
    ensures Exec(p, c, s, run).vault == TokenChain.Exec(p, s.vault, SeenRun(p, c, s, run))
  {
    if run != [] {
      hide Seen, FileStep, FileLease.Step, TokenChain.Step;
      var front := run[..|run| - 1];
      ExecParts(p, c, s, front);
      assert SeenRun(p, c, s, run)[..|front|] == SeenRun(p, c, s, front);
      assert FileRun(p, c, s, run)[..|front|] == FileRun(p, c, s, front);
    }
  }

  // ----- callers and files keep in step -----

  /** What caller i's own step leaves it with. */
  ghost predicate MineOk(s: State, i: nat) {
    && i < |s.files.procs| && i < |s.vault.callers| && Coupled(s, i)
    && (PcOf(s, i).Asking? ==> HasToken(s.vault.callers[i].local.conn))
    && (PcOf(s, i).UnderClock? || PcOf(s, i).Asking? || PcOf(s, i).Saving? ==>
          s.vault.callers[i].version == |s.vault.history| - 1)
  }

  lemma LeaseCallMovesMine(p: Params, c: FileLease.Codec, s: State, i: nat, provider: Option<Token>, gone: bool)
    requires Alive(s, i) && Coupled(s, i) && ReadOk(s.vault, i) && (PcOf(s, i).Acquiring? || PcOf(s, i).Freeing?)
    ensures MineOk(Step(p, c, s, Go(i, provider, gone)), i)
  {
    hide FileLease.UntilOf, FileLease.HolderOf, FileLease.Content;
  }

  lemma OtherCallMovesMine(p: Params, c: FileLease.Codec, s: State, i: nat, provider: Option<Token>, gone: bool)
    requires Alive(s, i) && Coupled(s, i) && ReadOk(s.vault, i) && !PcOf(s, i).Acquiring? && !PcOf(s, i).Freeing?
    ensures MineOk(Step(p, c, s, Go(i, provider, gone)), i)
  {
    assert FileLease.Step(c, s.files, FileStep(p, s, Go(i, provider, gone))) == s.files;
    hide FileLease.Step, Held;
  }

  lemma QuietMovesMine(p: Params, c: FileLease.Codec, s: State, a: Action)
    requires a.Write? || a.Crash? || (a.Go? && !Alive(s, a.i))
    requires a.i < |s.vault.callers| == |s.files.procs| && s.vault.history != []
    requires Coupled(s, a.i) && ReadOk(s.vault, a.i)
    ensures var t := Step(p, c, s, a);
            && |t.vault.callers| == |s.vault.callers| == |t.files.procs| && t.vault.history == s.vault.history
            && Coupled(t, a.i) && ReadOk(t.vault, a.i)
  {
    hide FileLease.Advance, FileLease.Content, FileLease.Text, Answer;
  }

  lemma CallMovesNobodyElse(p: Params, c: FileLease.Codec, s: State, a: Action, j: nat)
    requires j < |s.files.procs| && j < |s.vault.callers| && (a.Tick? || a.i != j)
    ensures var t := Step(p, c, s, a);
            && |t.files.procs| == |s.files.procs| && |t.vault.callers| == |s.vault.callers|
            && t.files.procs[j] == s.files.procs[j] && t.vault.callers[j] == s.vault.callers[j]
            && s.vault.history <= t.vault.history
  {
    FileLease.StepKeepsShape(c, s.files, FileStep(p, s, a));
    hide FileLease.Step, Answer;
  }

  /** While one caller writes no other is inside. */
  lemma OthersDontWrite(p: Params, c: FileLease.Codec, s: State, a: Action, j: nat)
    requires Inv(s) && FileLease.Exclusive(s.files) && j < |s.vault.callers| && (a.Tick? || a.i != j)
    ensures j < |Step(p, c, s, a).vault.callers| && ReadOk(Step(p, c, s, a).vault, j)
  {
    CallMovesNobodyElse(p, c, s, a, j);
    assert Coupled(s, j) && ReadOk(s.vault, j);
    if a.Go? && Alive(s, a.i) {
      assert Coupled(s, a.i) && (a.i < j || j < a.i);
      hide FileLease.Step, Held;
    }
  }

  lemma StepKeepsInv(p: Params, c: FileLease.Codec, s: State, a: Action)
    requires Inv(s) && FileLease.Exclusive(s.files)
    ensures Inv(Step(p, c, s, a))
  {
    hide Step, FileLease.Exclusive;
    var t := Step(p, c, s, a);
    TokenChain.StepExtends(p, s.vault, Seen(p, c, s, a));
    FileLease.StepKeepsShape(c, s.files, FileStep(p, s, a));
    Parts(p, c, s, a);
    forall j | 0 <= j < |s.vault.callers| ensures Coupled(t, j) && ReadOk(t.vault, j) {
      assert Coupled(s, j) && ReadOk(s.vault, j);
      if a.Tick? || a.i != j {
        CallMovesNobodyElse(p, c, s, a, j);
        OthersDontWrite(p, c, s, a, j);
      } else if a.Go? && Alive(s, j) {
        assert a == Go(j, a.provider, a.gone);
        if PcOf(s, j).Acquiring? || PcOf(s, j).Freeing? { LeaseCallMovesMine(p, c, s, j, a.provider, a.gone); }
        else { OtherCallMovesMine(p, c, s, j, a.provider, a.gone); }
      } else {
        QuietMovesMine(p, c, s, a);
      }
    }
  }

  lemma Parts(p: Params, c: FileLease.Codec, s: State, a: Action)
    ensures Step(p, c, s, a).files == FileLease.Step(c, s.files, FileStep(p, s, a))
    ensures Step(p, c, s, a).vault == TokenChain.Step(p, s.vault, Seen(p, c, s, a))
  {
  }

  lemma UndisturbedFront(p: Params, c: FileLease.Codec, s: State, run: seq<Action>)
    requires run != [] && Undisturbed(p, c, s, run)
    ensures Undisturbed(p, c, s, run[..|run| - 1])
  {
    var front, calls := run[..|run| - 1], FileRun(p, c, s, run);
    assert calls[..|front|] == FileRun(p, c, s, front);
    hide FileRun, FileLease.Undisturbed;
    FileLease.UndisturbedPrefix(c, s.files, calls, |front|);
  }

  lemma {:induction false} ExecKeepsInv(p: Params, c: FileLease.Codec, s: State, run: seq<Action>)
    requires Initial(s) && Undisturbed(p, c, s, run)
    ensures Inv(Exec(p, c, s, run)) && FileLease.Exclusive(Exec(p, c, s, run).files)
  {
    FilesStayExclusive(p, c, s, run);
    if run != [] {
      hide Step, Inv, Initial, Undisturbed, FileLease.Exclusive;
      var front := run[..|run| - 1];
      UndisturbedFront(p, c, s, run);
      ExecKeepsInv(p, c, s, front);
      StepKeepsInv(p, c, Exec(p, c, s, front), run[|run| - 1]);
    }
  }

  lemma FilesStayExclusive(p: Params, c: FileLease.Codec, s: State, run: seq<Action>)
    requires Initial(s) && Undisturbed(p, c, s, run)
    ensures FileLease.Exclusive(Exec(p, c, s, run).files)
  {
    hide Exec, FileRun, FileLease.Exclusive, FileLease.Initial, FileLease.Undisturbed;
    ExecParts(p, c, s, run);
    FileLease.ExecUnexposed(c, s.files, FileRun(p, c, s, run));
  }

  // ----- results -----

  lemma LivingAskerIsAlone(s: State, i: nat)
    requires Inv(s) && FileLease.Exclusive(s.files) && Alive(s, i) && PcOf(s, i).Asking?
    ensures TokenChain.Answered(s.vault) <==> TokenChain.DeadOnAnswer(s.vault)
  {
    var v := s.vault;
    assert Coupled(s, i);
    if TokenChain.Answered(v) {
      var j :| 0 <= j < |v.callers| && v.callers[j].local.pc.Saving? && v.callers[j].version == |v.history| - 1;
      assert Coupled(s, j) && (i < j || j < i);
      assert v.callers[j].dead;
    }
  }

  lemma RepeatsOnlyOnDeath(p: Params, c: FileLease.Codec, s: State, a: Action)
    requires Inv(s) && FileLease.Exclusive(s.files)
    ensures TokenChain.Repeats(p, s.vault, Seen(p, c, s, a)) <==> AsksAgain(s, a)
  {
    hide FileLease.Exclusive, TokenChain.Answered, TokenChain.DeadOnAnswer, Held;
    if a.Go? && Alive(s, a.i) && PcOf(s, a.i).Asking? {
      assert ReadOk(s.vault, a.i);
      LivingAskerIsAlone(s, a.i);
    }
  }

  lemma AsksAgainNext(p: Params, c: FileLease.Codec, s: State, run: seq<Action>)
    requires run != []
    ensures var front := run[..|run| - 1];
            NeverAsksAgain(p, c, s, run)
            <==> NeverAsksAgain(p, c, s, front) && !AsksAgain(Exec(p, c, s, front), run[|run| - 1])
  {
    hide Exec, AsksAgain;
    var front := run[..|run| - 1];
    assert forall k :: 0 <= k < |front| ==> front[..k] == run[..k] && front[k] == run[k];
    assert run[..|front|] == front;
    if NeverAsksAgain(p, c, s, run) {
      forall k | 0 <= k < |front| ensures !AsksAgain(Exec(p, c, s, front[..k]), front[k]) {
        assert !AsksAgain(Exec(p, c, s, run[..k]), run[k]);
      }
    }
    if NeverAsksAgain(p, c, s, front) && !AsksAgain(Exec(p, c, s, front), run[|run| - 1]) {
      forall k | 0 <= k < |run| ensures !AsksAgain(Exec(p, c, s, run[..k]), run[k]) {
        if k < |front| { assert !AsksAgain(Exec(p, c, s, front[..k]), front[k]); }
      }
    }
  }

  lemma {:induction false} NeverRepeatsIsNeverAskedAgain(p: Params, c: FileLease.Codec, s: State, run: seq<Action>)
    requires Initial(s) && Undisturbed(p, c, s, run)
    ensures NeverRepeats(p, c, s, run) <==> NeverAsksAgain(p, c, s, run)
  {
    if run != [] {
      var front, last := run[..|run| - 1], run[|run| - 1];
      assert SeenRun(p, c, s, run)[..|front|] == SeenRun(p, c, s, front);
      assert SeenRun(p, c, s, run)[|front|] == Seen(p, c, Exec(p, c, s, front), last);
      hide Exec, Step, Seen, SeenRun, AsksAgain, NeverAsksAgain, Inv, Undisturbed, Initial;
      hide TokenChain.NeverRepeats, TokenChain.Repeats, FileLease.Exclusive;
      UndisturbedFront(p, c, s, run);
      NeverRepeatsIsNeverAskedAgain(p, c, s, front);
      ExecParts(p, c, s, front);
      ExecKeepsInv(p, c, s, front);
      RepeatsOnlyOnDeath(p, c, Exec(p, c, s, front), last);
      AsksAgainNext(p, c, s, run);
      TokenChain.NeverRepeatsNext(p, s.vault, SeenRun(p, c, s, run));
    }
  }

  /**
   Over the lock file, in every interleaving of file-system, store and provider calls: every token
   version is refreshed at most once exactly when the provider never answers a caller whose version
   has been replaced or is answered already.  While no live lock is renamed over and nobody gets in
   before a namesake's read-back, that is when nobody gets an answer for a version whose first
   answer died with its caller.
   */
  lemma RefreshedAtMostOnce(p: Params, c: FileLease.Codec, s: State, run: seq<Action>)
    requires Initial(s)
    ensures var v := Exec(p, c, s, run).vault;
            && (TokenChain.Distinct(v.calls) <==> NeverRepeats(p, c, s, run))
            && (NeverRepeats(p, c, s, run) ==> TokenChain.Chain(v.history, v.calls))
            && (Undisturbed(p, c, s, run) ==> (NeverRepeats(p, c, s, run) <==> NeverAsksAgain(p, c, s, run)))
  {
    hide Exec, SeenRun, FileRun, TokenChain.NeverRepeats, NeverAsksAgain, Undisturbed;
    ExecParts(p, c, s, run);
    TokenChain.RefreshedOnceExactlyWithoutRepeats(p, s.vault, SeenRun(p, c, s, run));
    if Undisturbed(p, c, s, run) { NeverRepeatsIsNeverAskedAgain(p, c, s, run); }
  }

  // ----- the steal race, seen by the token -----

  lemma {:induction false} ExecAppend(p: Params, c: FileLease.Codec, s: State, run: seq<Action>, tail: seq<Action>)
    ensures Exec(p, c, s, run + tail) == Exec(p, c, Exec(p, c, s, run), tail)
  {
    hide Step;
    if tail == [] {
      assert run + tail == run;
    } else {
      var all := run + tail;
      assert all[..|all| - 1] == run + tail[..|tail| - 1];
      ExecAppend(p, c, s, run, tail[..|tail| - 1]);
    }
  }

  lemma Exec1(p: Params, c: FileLease.Codec, s: State, a: Action)
    ensures Exec(p, c, s, [a]) == Step(p, c, s, a)
  {
    hide Step;
    assert [a][..0] == [];
  }

  lemma Exec2(p: Params, c: FileLease.Codec, s: State, a: Action, b: Action)
    ensures Exec(p, c, s, [a, b]) == Step(p, c, Step(p, c, s, a), b)
  {
    hide Step;
    Exec1(p, c, s, a);
    assert [a, b][..1] == [a];
  }

  lemma Exec3(p: Params, c: FileLease.Codec, s: State, a: Action, b: Action, d: Action)
    ensures Exec(p, c, s, [a, b, d]) == Step(p, c, Step(p, c, Step(p, c, s, a), b), d)
  {
    hide Step;
    Exec2(p, c, s, a, b);
    assert [a, b, d][..2] == [a, b];
  }

  function Turn(i: nat): Action {
    Go(i, None, false)
  }

  /** A living caller that has read the first token. */
  function Reader(stale: Token, pc: Pc, now: real): TokenChain.Caller {
    TokenChain.Caller(Local(pc, Some(Connection(Some(stale))), now, 0.0), 0, false)
  }

  function Caller(s: State, i: nat, me: TokenChain.Caller): State
    requires i < |s.vault.callers|
  {
    s.(vault := s.vault.(callers := s.vault.callers[i := me]))
  }

  function Arrive(i: nat): seq<Action> {
    [Turn(i), Turn(i), Turn(i)]
  }

  /** A new caller finds the token expired and takes the time for its lease. */
  lemma Arrives(p: Params, c: FileLease.Codec, s: State, i: nat, stale: Token)
    requires Alive(s, i) && s.vault.callers[i] == TokenChain.Caller(START, 0, false)
    requires s.vault.history == [stale] && IsExpired(stale, p.skew, s.files.clock)
    ensures Exec(p, c, s, Arrive(i)) == Caller(s, i, Reader(stale, Acquiring, s.files.clock))
  {
    Exec3(p, c, s, Turn(i), Turn(i), Turn(i));
    hide Exec;
    var s1 := Step(p, c, s, Turn(i));
    assert s1 == Caller(s, i, Reader(stale, FirstClock, 0.0));
    var s2 := Step(p, c, s1, Turn(i));
    assert s2 == Caller(s, i, Reader(stale, TakingClock, s.files.clock));
  }

  /** While its process is on the way to the lock, a caller's turn is a file-system call it hears nothing of. */
  lemma TurnsFile(p: Params, c: FileLease.Codec, s: State, i: nat)
    requires Alive(s, i) && PcOf(s, i).Acquiring? && !s.files.procs[i].pc.Tidying? && !s.files.procs[i].pc.GivingUp?
    ensures var now := s.vault.callers[i].local.now;
            Step(p, c, s, Turn(i)) == s.(files := FileLease.Step(c, s.files,
              if s.files.procs[i].pc.Idle? then FileLease.Begin(i, now + p.leaseTtl, now) else FileLease.Go(i)))
  {
    hide FileLease.Step;
  }

  lemma WritesFile(p: Params, c: FileLease.Codec, s: State, i: nat, n: nat)
    ensures Step(p, c, s, Write(i, n)) == s.(files := FileLease.Step(c, s.files, FileLease.WriteSome(i, n)))
  {
    hide FileLease.Step;
  }

  function Publish(c: FileLease.Codec, i: nat, name: string, until: real): seq<Action> {
    [Turn(i), Write(i, |FileLease.Text(c, name, until)|)]
  }

  /** It writes its record to a temporary file. */
  lemma Publishes(p: Params, c: FileLease.Codec, s: State, i: nat, stale: Token, name: string)
    requires Alive(s, i) && s.vault.callers[i] == Reader(stale, Acquiring, s.files.clock)
    requires s.files.procs[i] == FileLease.Proc(FileLease.Idle, name, 0, 0.0, 0.0, None)
    ensures var until := s.files.clock + p.leaseTtl;
            Exec(p, c, s, Publish(c, i, name, until)) ==
            s.(files := s.files.(
                 files := s.files.files[FileLease.Inode(i, 1, until) := FileLease.Text(c, name, until)],
                 procs := s.files.procs[i := FileLease.Proc(FileLease.Linking, name, 1, until, s.files.clock, None)]))
  {
    hide Exec, Step, FileLease.Step, FileLease.Text, FileLease.Content;
    var until, n := s.files.clock + p.leaseTtl, |FileLease.Text(c, name, s.files.clock + p.leaseTtl)|;
    Exec2(p, c, s, Turn(i), Write(i, n));
    TurnsFile(p, c, s, i);
    WritesFile(p, c, Step(p, c, s, Turn(i)), i, n);
    FileLease.Writes(c, s.files, i, name, until, s.files.clock);
  }

  /** The first caller links its lock and dies. */
  lemma OwnerDies(p: Params, c: FileLease.Codec, s: State, stale: Token, name: string, until: real, now: real)
    requires Alive(s, 0) && s.vault.callers[0] == Reader(stale, Acquiring, s.files.clock) && s.files.lock.None?
    requires s.files.procs[0] == FileLease.Proc(FileLease.Linking, name, 1, until, now, None)
    ensures Exec(p, c, s, [Turn(0), Crash(0)]) ==
            Caller(s, 0, s.vault.callers[0].(dead := true)).(files := s.files.(
              lock := Some(FileLease.Inode(0, 1, until)),
              procs := s.files.procs[0 := FileLease.Proc(FileLease.Dead, name, 1, until, now, None)]))
  {
    Exec2(p, c, s, Turn(0), Crash(0));
    FileLease.LinksAndDies(c, s.files, name, until, now);
    TurnsFile(p, c, s, 0);
    hide Exec, FileLease.Step, Answer, Held;
  }

  lemma StillOnTheWay(c: FileLease.Codec, files: FileLease.State, i: nat)
    requires i < |files.procs| && (files.procs[i].pc.Replacing? || (files.procs[i].pc.Linking? && files.lock.Some?))
    ensures var t := FileLease.Step(c, files, FileLease.Go(i));
            i < |t.procs| && t.procs[i].pc == if files.procs[i].pc.Linking? then FileLease.Inspecting
              else FileLease.Confirming
  {
  }

  lemma RenamesAndReadsBack(c: FileLease.Codec, files: FileLease.State, i: nat, name: string,
                            seen: Option<FileLease.Inode>)
    requires i < |files.procs| && files.procs[i] == FileLease.Proc(FileLease.Replacing, name, 1, 9.0, 5.0, seen)
    requires FileLease.Content(files, FileLease.Inode(i, 1, 9.0)) == FileLease.Text(c, name, 9.0)
    requires FileLease.Prints(c, 9.0) && '\n' !in name
    ensures FileLease.Step(c, FileLease.Step(c, files, FileLease.Go(i)), FileLease.Go(i)) ==
            files.(lock := Some(FileLease.Inode(i, 1, 9.0)),
                   procs := files.procs[i := FileLease.Proc(FileLease.Tidying, name, 1, 9.0, 5.0, seen)])
  {
    FileLease.RecordRoundTrip(c, name, 9.0);
    hide FileLease.Text, FileLease.HolderOf;
    var t := FileLease.Step(c, files, FileLease.Go(i));
    assert t.procs == files.procs[i := FileLease.Proc(FileLease.Confirming, name, 1, 9.0, 5.0, seen)];
  }

  /** A stealer finds the lock taken and expired. */
  lemma FindsExpired(p: Params, c: FileLease.Codec, s: State, i: nat, stale: Token, name: string)
    requires Alive(s, i) && s.vault.callers[i] == Reader(stale, Acquiring, 5.0)
    requires s.files.procs[i] == FileLease.Proc(FileLease.Linking, name, 1, 9.0, 5.0, None)
    requires s.files.lock == Some(FileLease.Inode(0, 1, 4.0)) && FileLease.Prints(c, 4.0)
    requires FileLease.Content(s.files, FileLease.Inode(0, 1, 4.0)) == FileLease.Text(c, "x", 4.0)
    ensures Exec(p, c, s, [Turn(i), Turn(i)]) ==
            s.(files := s.files.(procs := s.files.procs[i :=
              FileLease.Proc(FileLease.Replacing, name, 1, 9.0, 5.0, s.files.lock)]))
  {
    Exec2(p, c, s, Turn(i), Turn(i));
    FileLease.StealerReads(c, s.files, i, name);
    TurnsFile(p, c, s, i);
    StillOnTheWay(c, s.files, i);
    hide Exec, Step, FileLease.Step;
    TurnsFile(p, c, s.(files := FileLease.Step(c, s.files, FileLease.Go(i))), i);
  }

  /** It renames its own file over the lock, whatever is there, and reads it back. */
  lemma Steals(p: Params, c: FileLease.Codec, s: State, i: nat, stale: Token, name: string,
               seen: Option<FileLease.Inode>)
    requires Alive(s, i) && s.vault.callers[i] == Reader(stale, Acquiring, 5.0)
    requires s.files.procs[i] == FileLease.Proc(FileLease.Replacing, name, 1, 9.0, 5.0, seen)
    requires FileLease.Content(s.files, FileLease.Inode(i, 1, 9.0)) == FileLease.Text(c, name, 9.0)
    requires FileLease.Prints(c, 9.0) && '\n' !in name
    ensures Exec(p, c, s, [Turn(i), Turn(i)]) ==
            s.(files := s.files.(
                 lock := Some(FileLease.Inode(i, 1, 9.0)),
                 procs := s.files.procs[i := FileLease.Proc(FileLease.Tidying, name, 1, 9.0, 5.0, seen)]))
  {
    Exec2(p, c, s, Turn(i), Turn(i));
    RenamesAndReadsBack(c, s.files, i, name, seen);
    TurnsFile(p, c, s, i);
    StillOnTheWay(c, s.files, i);
    hide Exec, Step, FileLease.Step, FileLease.Content;
    TurnsFile(p, c, s.(files := FileLease.Step(c, s.files, FileLease.Go(i))), i);
  }

  /** Its acquire returns true. */
  lemma GetsLease(p: Params, c: FileLease.Codec, s: State, i: nat, stale: Token)
    requires Alive(s, i) && s.vault.callers[i] == Reader(stale, Acquiring, 5.0) && s.files.procs[i].pc.Tidying?
    ensures Step(p, c, s, Turn(i)) == Caller(s, i, Reader(stale, Rereading, 5.0)).(files := s.files.(
              procs := s.files.procs[i := s.files.procs[i].(pc := FileLease.Holding)]))
  {
    hide FileLease.HolderOf, FileLease.UntilOf, FileLease.Content, Held;
  }

  lemma ReadsAgain(p: Params, c: FileLease.Codec, s: State, i: nat, stale: Token)
    requires Alive(s, i) && s.vault.callers[i] == Reader(stale, Rereading, 5.0) && s.vault.history == [stale]
    requires s.files.clock == 5.0 && IsExpired(stale, p.skew, 5.0)
    ensures Step(p, c, Step(p, c, s, Turn(i)), Turn(i)) == Caller(s, i, Reader(stale, Asking, 5.0))
  {
    hide FileLease.Advance, Held;
    var s1 := Step(p, c, s, Turn(i));
    assert s1 == Caller(s, i, Reader(stale, UnderClock, 5.0));
  }

  /** It then reads the token, still expired, and is about to ask the provider. */
  lemma GoesIn(p: Params, c: FileLease.Codec, s: State, i: nat, stale: Token)
    requires Alive(s, i) && s.vault.callers[i] == Reader(stale, Acquiring, 5.0) && s.vault.history == [stale]
    requires s.files.procs[i].pc.Tidying? && s.files.clock == 5.0 && IsExpired(stale, p.skew, 5.0)
    ensures Exec(p, c, s, Arrive(i)) == Caller(s, i, Reader(stale, Asking, 5.0)).(files := s.files.(
              procs := s.files.procs[i := s.files.procs[i].(pc := FileLease.Holding)]))
  {
    Exec3(p, c, s, Turn(i), Turn(i), Turn(i));
    hide Exec, Step;
    GetsLease(p, c, s, i, stale);
    ReadsAgain(p, c, Step(p, c, s, Turn(i)), i, stale);
  }

  lemma Asks(p: Params, c: FileLease.Codec, s: State, i: nat, stale: Token, renewed: Token)
    requires Alive(s, i) && s.vault.callers[i] == Reader(stale, Asking, 5.0)
    ensures Step(p, c, s, Go(i, Some(renewed), false)) ==
            s.(vault := s.vault.(calls := s.vault.calls + [TokenChain.Call(0, stale, renewed)],
                                 callers := s.vault.callers[i := Reader(stale, Saving(renewed), 5.0)]))
  {
    hide FileLease.Advance, Held;
  }

  function BothAnswers(renewed: Token): seq<Action> {
    [Go(1, Some(renewed), false), Go(2, Some(renewed), false)]
  }

  /** Two callers about to ask about the one stored token are both answered. */
  lemma BothAsk(p: Params, c: FileLease.Codec, s: State, stale: Token, renewed: Token)
    requires Alive(s, 1) && Alive(s, 2) && s.vault.calls == []
    requires s.vault.callers[1] == s.vault.callers[2] == Reader(stale, Asking, 5.0)
    ensures Exec(p, c, s, BothAnswers(renewed)).vault.calls ==
            [TokenChain.Call(0, stale, renewed), TokenChain.Call(0, stale, renewed)]
  {
    Exec2(p, c, s, Go(1, Some(renewed), false), Go(2, Some(renewed), false));
    hide Exec, Step;
    Asks(p, c, s, 1, stale, renewed);
    Asks(p, c, Step(p, c, s, Go(1, Some(renewed), false)), 2, stale, renewed);
  }

  /** Three callers, none of which has begun; their processes go by the names x, a and b. */
  function Three(stale: Token): State {
    State(FileLease.Crowd("a", "b"),
          TokenChain.Vault([stale], [], [TokenChain.Caller(START, 0, false), TokenChain.Caller(START, 0, false),
                                         TokenChain.Caller(START, 0, false)]))
  }

  function Owning(c: FileLease.Codec): seq<Action> {
    (Arrive(0) + Publish(c, 0, "x", 4.0)) + [Turn(0), Crash(0)]
  }

  function Look(c: FileLease.Codec, i: nat, name: string): seq<Action> {
    (Arrive(i) + Publish(c, i, name, 9.0)) + [Turn(i), Turn(i)]
  }

  function Win(i: nat): seq<Action> {
    [Turn(i), Turn(i)] + Arrive(i)
  }

  lemma OwnerLeavesLock(p: Params, c: FileLease.Codec, s: State, stale: Token)
    requires s == Three(stale) && p.leaseTtl == 4.0 && IsExpired(stale, p.skew, 0.0)
    ensures var dead := FileLease.Inode(0, 1, 4.0);
            Exec(p, c, s, Owning(c)) ==
            Caller(s, 0, Reader(stale, Acquiring, 0.0).(dead := true)).(files := s.files.(
              lock := Some(dead), files := map[dead := FileLease.Text(c, "x", 4.0)],
              procs := s.files.procs[0 := FileLease.Proc(FileLease.Dead, "x", 1, 4.0, 0.0, None)]))
  {
    hide Exec, Step, FileLease.Text;
    ExecAppend(p, c, s, Arrive(0) + Publish(c, 0, "x", 4.0), [Turn(0), Crash(0)]);
    ExecAppend(p, c, s, Arrive(0), Publish(c, 0, "x", 4.0));
    Arrives(p, c, s, 0, stale);
    var s1 := Exec(p, c, s, Arrive(0));
    Publishes(p, c, s1, 0, stale, "x");
    var s2 := Exec(p, c, s1, Publish(c, 0, "x", 4.0));
    OwnerDies(p, c, s2, stale, "x", 4.0, 0.0);
  }

  /** A new caller at time 5 comes to the point of renaming its file over the dead owner's. */
  lemma Looks(p: Params, c: FileLease.Codec, s: State, i: nat, stale: Token, name: string)
    requires Alive(s, i) && i != 0 && s.vault.callers[i] == TokenChain.Caller(START, 0, false)
    requires s.vault.history == [stale] && s.files.clock == 5.0 && IsExpired(stale, p.skew, 5.0) && p.leaseTtl == 4.0
    requires s.files.procs[i] == FileLease.Proc(FileLease.Idle, name, 0, 0.0, 0.0, None)
    requires s.files.lock == Some(FileLease.Inode(0, 1, 4.0)) && FileLease.Prints(c, 4.0)
    requires FileLease.Content(s.files, FileLease.Inode(0, 1, 4.0)) == FileLease.Text(c, "x", 4.0)
    ensures Exec(p, c, s, Look(c, i, name)) ==
            Caller(s, i, Reader(stale, Acquiring, 5.0)).(files := s.files.(
              files := s.files.files[FileLease.Inode(i, 1, 9.0) := FileLease.Text(c, name, 9.0)],
              procs := s.files.procs[i := FileLease.Proc(FileLease.Replacing, name, 1, 9.0, 5.0, s.files.lock)]))
  {
    hide Exec, Step, FileLease.Text;
    ExecAppend(p, c, s, Arrive(i) + Publish(c, i, name, 9.0), [Turn(i), Turn(i)]);
    ExecAppend(p, c, s, Arrive(i), Publish(c, i, name, 9.0));
    Arrives(p, c, s, i, stale);
    var s1 := Exec(p, c, s, Arrive(i));
    Publishes(p, c, s1, i, stale, name);
    var s2 := Exec(p, c, s1, Publish(c, i, name, 9.0));
    FindsExpired(p, c, s2, i, stale, name);
  }

  /** About to rename, it steals the lock and comes to ask the provider. */
  lemma Wins(p: Params, c: FileLease.Codec, s: State, i: nat, stale: Token, name: string)
    requires Alive(s, i) && s.vault.callers[i] == Reader(stale, Acquiring, 5.0) && s.vault.history == [stale]
    requires s.files.clock == 5.0 && IsExpired(stale, p.skew, 5.0) && FileLease.Prints(c, 9.0) && '\n' !in name
    requires s.files.procs[i].pc.Replacing?
    requires s.files.procs[i] == FileLease.Proc(FileLease.Replacing, name, 1, 9.0, 5.0, s.files.procs[i].seen)
    requires FileLease.Content(s.files, FileLease.Inode(i, 1, 9.0)) == FileLease.Text(c, name, 9.0)
    ensures Exec(p, c, s, Win(i)) ==
            Caller(s, i, Reader(stale, Asking, 5.0)).(files := s.files.(
              lock := Some(FileLease.Inode(i, 1, 9.0)),
              procs := s.files.procs[i := s.files.procs[i].(pc := FileLease.Holding)]))
  {
    hide Exec, Step, FileLease.Text, FileLease.Content;
    ExecAppend(p, c, s, [Turn(i), Turn(i)], Arrive(i));
    Steals(p, c, s, i, stale, name, s.files.procs[i].seen);
    GoesIn(p, c, Exec(p, c, s, [Turn(i), Turn(i)]), i, stale);
  }

  lemma TimePasses(p: Params, c: FileLease.Codec, s: State)
    requires s.files.clock == 0.0
    ensures Step(p, c, s, Tick(5.0)) == s.(files := s.files.(clock := 5.0))
  {
  }

  /** Both stealers have looked. */
  lemma BothLook(p: Params, c: FileLease.Codec, stale: Token)
    requires p.leaseTtl == 4.0 && IsExpired(stale, p.skew, 0.0) && FileLease.Prints(c, 4.0)
    ensures var u := Exec(p, c, Three(stale), ((Owning(c) + [Tick(5.0)]) + Look(c, 1, "a")) + Look(c, 2, "b"));
            && u.files == FileLease.Brink(c, "a", "b")
            && u.vault == TokenChain.Vault([stale], [], [Reader(stale, Acquiring, 0.0).(dead := true),
                                                         Reader(stale, Acquiring, 5.0), Reader(stale, Acquiring, 5.0)])
  {
    hide Exec, Step, FileLease.Text, Owning, Look;
    var s := Three(stale);
    ExecAppend(p, c, s, (Owning(c) + [Tick(5.0)]) + Look(c, 1, "a"), Look(c, 2, "b"));
    ExecAppend(p, c, s, Owning(c) + [Tick(5.0)], Look(c, 1, "a"));
    ExecAppend(p, c, s, Owning(c), [Tick(5.0)]);
    OwnerLeavesLock(p, c, s, stale);
    var s1 := Exec(p, c, s, Owning(c));
    Exec1(p, c, s1, Tick(5.0));
    TimePasses(p, c, s1);
    var s2 := Exec(p, c, s1, [Tick(5.0)]);
    Looks(p, c, s2, 1, stale, "a");
    var s3 := Exec(p, c, s2, Look(c, 1, "a"));
    Looks(p, c, s3, 2, stale, "b");
  }

  /** Each in turn renames its file over the lock, reads it back and goes in. */
  lemma BothWin(p: Params, c: FileLease.Codec, u: State, stale: Token)
    requires u.files == FileLease.Brink(c, "a", "b")
    requires u.vault == TokenChain.Vault([stale], [], [Reader(stale, Acquiring, 0.0).(dead := true),
                                                       Reader(stale, Acquiring, 5.0), Reader(stale, Acquiring, 5.0)])
    requires IsExpired(stale, p.skew, 5.0) && FileLease.Prints(c, 9.0)
    ensures var t := Exec(p, c, Exec(p, c, u, Win(1)), Win(2));
            && Alive(t, 1) && Alive(t, 2) && t.vault.calls == []
            && t.vault.callers[1] == t.vault.callers[2] == Reader(stale, Asking, 5.0)
  {
    hide Exec, Step, FileLease.Text, Win;
    Wins(p, c, u, 1, stale, "a");
    Wins(p, c, Exec(p, c, u, Win(1)), 2, stale, "b");
  }

  // ----- no lease runs out in the race -----

  ghost predicate AlwaysTimely(p: Params, c: FileLease.Codec, s: State, run: seq<Action>) {
    forall k :: 0 <= k <= |run| ==> FileLease.Timely(Exec(p, c, s, run[..k]).files)
  }

  /** Whoever is about to ask for a lease has just read the clock. */
  ghost predicate AsksInTime(s: State, i: nat)
    requires i < |s.vault.callers| && i < |s.files.procs|
  {
    !s.vault.callers[i].dead && PcOf(s, i).Acquiring? && s.files.procs[i].pc.Idle? ==>
      s.vault.callers[i].local.now == s.files.clock
  }

  ghost predicate InStep(s: State, i: nat) {
    i < |s.vault.callers| && i < |s.files.procs| && Coupled(s, i) && AsksInTime(s, i)
  }

  /** Every deadline is ahead and will be. */
  ghost predicate Ahead(s: State) {
    && |s.files.procs| == |s.vault.callers| && FileLease.Ahead(s.files)
    && forall i :: 0 <= i < |s.vault.callers| ==> InStep(s, i)
  }

  lemma FilesStayAhead(p: Params, c: FileLease.Codec, s: State, a: Action)
    requires Ahead(s) && !a.Tick? && p.leaseTtl > 0.0
    ensures var t := Step(p, c, s, a); FileLease.Ahead(t.files) && t.files.clock == s.files.clock
  {
    hide FileLease.Step, FileLease.Ahead, Seen, Answer;
    var b := FileStep(p, s, a);
    assert a.i < |s.vault.callers| ==> InStep(s, a.i);
    if !b.Tick? { FileLease.StepStaysAhead(c, s.files, b); } else { NoTimePasses(c, s.files); }
  }

  lemma NoTimePasses(c: FileLease.Codec, files: FileLease.State)
    ensures FileLease.Step(c, files, FileLease.Tick(files.clock)) == files
  {
  }

  lemma LeaseCallInStep(p: Params, c: FileLease.Codec, s: State, a: Action)
    requires a.Go? && InStep(s, a.i) && Alive(s, a.i) && (PcOf(s, a.i).Acquiring? || PcOf(s, a.i).Freeing?)
    ensures InStep(Step(p, c, s, a), a.i)
  {
    hide FileLease.UntilOf, FileLease.HolderOf, FileLease.Content;
  }

  lemma OtherCallInStep(p: Params, c: FileLease.Codec, s: State, a: Action)
    requires a.Go? && InStep(s, a.i) && Alive(s, a.i) && !PcOf(s, a.i).Acquiring? && !PcOf(s, a.i).Freeing?
    ensures InStep(Step(p, c, s, a), a.i)
  {
    NoTimePasses(c, s.files);
    hide FileLease.Step, Held;
  }

  lemma QuietInStep(p: Params, c: FileLease.Codec, s: State, a: Action)
    requires a.Write? || a.Crash? || (a.Go? && !Alive(s, a.i))
    requires InStep(s, a.i)
    ensures InStep(Step(p, c, s, a), a.i)
  {
    hide FileLease.Advance, FileLease.Content, FileLease.Text, Answer;
  }

  lemma StepStaysAhead(p: Params, c: FileLease.Codec, s: State, a: Action)
    requires Ahead(s) && !a.Tick? && p.leaseTtl > 0.0
    ensures Ahead(Step(p, c, s, a))
  {
    FilesStayAhead(p, c, s, a);
    FileLease.StepKeepsShape(c, s.files, FileStep(p, s, a));
    TokenChain.StepExtends(p, s.vault, Seen(p, c, s, a));
    var t := Step(p, c, s, a);
    Parts(p, c, s, a);
    hide Step, FileStep, Seen, FileLease.Ahead;
    forall j | 0 <= j < |s.vault.callers| ensures InStep(t, j) {
      assert InStep(s, j);
      if j != a.i { CallMovesNobodyElse(p, c, s, a, j); }
      else if a.Go? && Alive(s, j) && (PcOf(s, j).Acquiring? || PcOf(s, j).Freeing?) { LeaseCallInStep(p, c, s, a); }
      else if a.Go? && Alive(s, j) { OtherCallInStep(p, c, s, a); }
      else { QuietInStep(p, c, s, a); }
    }
  }

  lemma {:induction false} AheadIsTimely(p: Params, c: FileLease.Codec, s: State, run: seq<Action>)
    requires Ahead(s) && p.leaseTtl > 0.0 && forall k :: 0 <= k < |run| ==> !run[k].Tick?
    ensures AlwaysTimely(p, c, s, run) && Ahead(Exec(p, c, s, run))
  {
    AheadMeansTimely(Exec(p, c, s, run));
    if run != [] {
      hide Step, Ahead, FileLease.Timely;
      var front := run[..|run| - 1];
      AheadIsTimely(p, c, s, front);
      StepStaysAhead(p, c, Exec(p, c, s, front), run[|run| - 1]);
      AheadMeansTimely(Exec(p, c, s, run));
      assert forall k :: 0 <= k <= |front| ==> front[..k] == run[..k];
      assert run[..|run|] == run;
      forall k | 0 <= k <= |run| ensures FileLease.Timely(Exec(p, c, s, run[..k]).files) {
        if k < |run| { assert FileLease.Timely(Exec(p, c, s, front[..k]).files); }
      }
    }
  }

  lemma AheadMeansTimely(s: State)
    ensures Ahead(s) ==> FileLease.Timely(s.files)
  {
  }

  lemma TimelyAppend(p: Params, c: FileLease.Codec, s: State, run: seq<Action>, tail: seq<Action>)
    requires AlwaysTimely(p, c, s, run) && AlwaysTimely(p, c, Exec(p, c, s, run), tail)
    ensures AlwaysTimely(p, c, s, run + tail)
  {
    hide Exec, FileLease.Timely;
    forall k | 0 <= k <= |run + tail| ensures FileLease.Timely(Exec(p, c, s, (run + tail)[..k]).files) {
      if k <= |run| {
        assert (run + tail)[..k] == run[..k];
      } else {
        assert (run + tail)[..k] == run + tail[..k - |run|];
        ExecAppend(p, c, s, run, tail[..k - |run|]);
      }
    }
  }

  lemma OwningStaysAhead(p: Params, c: FileLease.Codec, stale: Token)
    requires p.leaseTtl == 4.0
    ensures AlwaysTimely(p, c, Three(stale), Owning(c))
  {
    assert Ahead(Three(stale));
    assert forall k :: 0 <= k < |Owning(c)| ==> !Owning(c)[k].Tick?;
    hide Ahead, AlwaysTimely, Owning, Exec;
    AheadIsTimely(p, c, Three(stale), Owning(c));
  }

  /** Time passes only while the owner is dead and nobody else has begun. */
  lemma OwningIsTimely(p: Params, c: FileLease.Codec, stale: Token)
    requires p.leaseTtl == 4.0 && IsExpired(stale, p.skew, 0.0)
    ensures var run := Owning(c) + [Tick(5.0)];
            AlwaysTimely(p, c, Three(stale), run) && Ahead(Exec(p, c, Three(stale), run))
  {
    hide Exec, Step, FileLease.Text, AlwaysTimely, Owning;
    var s := Three(stale);
    OwningStaysAhead(p, c, stale);
    OwnerLeavesLock(p, c, s, stale);
    var u := Exec(p, c, s, Owning(c));
    Exec1(p, c, u, Tick(5.0));
    TimePasses(p, c, u);
    ExecAppend(p, c, s, Owning(c), [Tick(5.0)]);
    TickIsTimely(p, c, u);
    TimelyAppend(p, c, s, Owning(c), [Tick(5.0)]);
  }

  lemma TickIsTimely(p: Params, c: FileLease.Codec, u: State)
    requires FileLease.Timely(u.files) && FileLease.Timely(Step(p, c, u, Tick(5.0)).files)
    ensures AlwaysTimely(p, c, u, [Tick(5.0)])
  {
    hide Step, FileLease.Timely;
    Exec1(p, c, u, Tick(5.0));
    assert [Tick(5.0)][..0] == [] && [Tick(5.0)][..1] == [Tick(5.0)];
  }

  function Stealing(c: FileLease.Codec, renewed: Token): seq<Action> {
    (((Look(c, 1, "a") + Look(c, 2, "b")) + Win(1)) + Win(2)) + BothAnswers(renewed)
  }

  lemma RaceIsTimely(p: Params, c: FileLease.Codec, stale: Token, renewed: Token)
    requires p.leaseTtl == 4.0 && IsExpired(stale, p.skew, 0.0)
    ensures AlwaysTimely(p, c, Three(stale), (Owning(c) + [Tick(5.0)]) + Stealing(c, renewed))
  {
    OwningIsTimely(p, c, stale);
    assert forall k :: 0 <= k < |Stealing(c, renewed)| ==> !Stealing(c, renewed)[k].Tick?;
    hide Exec, AlwaysTimely, Ahead, Owning, Stealing, Three;
    AheadIsTimely(p, c, Exec(p, c, Three(stale), Owning(c) + [Tick(5.0)]), Stealing(c, renewed));
    TimelyAppend(p, c, Three(stale), Owning(c) + [Tick(5.0)], Stealing(c, renewed));
  }

  lemma ThreeIsInitial(stale: Token)
    ensures Initial(Three(stale)) && FileLease.DistinctHolders(Three(stale).files)
  {
    FileLease.CrowdIsInitial("a", "b");
  }

  /**
   The steal race of two callers of different names refreshes one token version twice, though no
   lease ever runs out on its owner.
   */
  lemma StealRaceRefreshesTwice(p: Params, c: FileLease.Codec, stale: Token, renewed: Token)
    requires p.leaseTtl == 4.0 && IsExpired(stale, p.skew, 0.0) && FileLease.Prints(c, 4.0) && FileLease.Prints(c, 9.0)
    ensures Initial(Three(stale)) && FileLease.DistinctHolders(Three(stale).files)
    ensures var run := (Owning(c) + [Tick(5.0)]) + Stealing(c, renewed);
            && AlwaysTimely(p, c, Three(stale), run)
            && Exec(p, c, Three(stale), run).vault.calls ==
               [TokenChain.Call(0, stale, renewed), TokenChain.Call(0, stale, renewed)]
  {
    ThreeIsInitial(stale);
    RaceIsTimely(p, c, stale, renewed);
    assert IsExpired(stale, p.skew, 5.0);
    var start, looks := Owning(c) + [Tick(5.0)], Look(c, 1, "a") + Look(c, 2, "b");
    assert (start + Look(c, 1, "a")) + Look(c, 2, "b") == start + looks;
    assert start + Stealing(c, renewed) == start + looks + Win(1) + Win(2) + BothAnswers(renewed);
    hide Exec, Step, Initial, FileLease.DistinctHolders, FileLease.Prints;
    hide Three, Alive, Reader, FileLease.Brink, IsExpired;
    hide Owning, Look, Win, BothAnswers, Stealing, AlwaysTimely;
    var s := Three(stale);
    BothLook(p, c, stale);
    BothWin(p, c, Exec(p, c, s, start + looks), stale);
    BothAsk(p, c, Exec(p, c, Exec(p, c, Exec(p, c, s, start + looks), Win(1)), Win(2)), stale, renewed);
    ExecAppend(p, c, s, start + looks + Win(1) + Win(2), BothAnswers(renewed));
    ExecAppend(p, c, s, start + looks + Win(1), Win(2));
    ExecAppend(p, c, s, start + looks, Win(1));
  }
}
