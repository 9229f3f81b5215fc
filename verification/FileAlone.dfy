/**
 A caller of the lock file whom nobody comes between acquires, releases and looks as with a dictionary
 lease; a lock that cannot be read counts as held, and is never stolen.
 */
module FileAlone {
  import opened Wrappers
  import opened FileLease
  import FileRefresh
  import Refresh
  import Leases

  /** The lock file holds a deadline that can be read, if there is one. */
  predicate Readable(c: Codec, s: State) {
    s.lock.Some? ==> UntilOf(c, Content(s, s.lock.value)).Some?
  }

  /** The dictionary lease the lock file stands for. */
  function Shown(c: Codec, s: State, key: string): Leases.Table<string>
    requires Readable(c, s)
  {
    if s.lock.None? then map[]
    else
      var content := Content(s, s.lock.value);
      map[key := Leases.Lease(HolderOf(content), UntilOf(c, content).value)]
  }

  /** A process about to acquire under a temporary name of its own. */
  predicate Ready(c: Codec, s: State, p: nat, until: real) {
    && p < |s.procs| && s.procs[p].pc.Idle? && '\n' !in s.procs[p].holder && Prints(c, until)
    && s.lock != Some(Inode(p, s.procs[p].attempt + 1, until))
  }

  function Calls(p: nat, n: nat): (run: seq<Action>)
    ensures |run| == n
  {
    if n == 0 then [] else Calls(p, n - 1) + [Go(p)]
  }

  lemma OneMoreCall(c: Codec, s: State, run: seq<Action>, p: nat, n: nat)
    requires p < |Exec(c, s, run + Calls(p, n)).procs|
    ensures Exec(c, s, run + Calls(p, n + 1)) == Advance(c, Exec(c, s, run + Calls(p, n)), p)
  {
    hide Advance;
    var all := run + Calls(p, n + 1);
    assert all[..|all| - 1] == run + Calls(p, n);
  }

  lemma NoCall(c: Codec, s: State, run: seq<Action>, p: nat)
    ensures Exec(c, s, run + Calls(p, 0)) == Exec(c, s, run)
  {
    assert run + Calls(p, 0) == run;
  }

  /** The call of acquire_lease, and its temporary written at once. */
  function Opening(p: nat, until: real, now: real, n: nat): seq<Action> {
    [Begin(p, until, now), WriteSome(p, n)]
  }

  /** The temporary is written whole, and the process is at this call after that. */
  ghost predicate Wrote(c: Codec, s: State, p: nat, me: Proc) {
    && p < |s.procs| && s.procs[p] == me && '\n' !in me.holder && Prints(c, me.until)
    && Content(s, Temp(s, p)) == Text(c, me.holder, me.until)
  }

  lemma Opens(c: Codec, s: State, p: nat, until: real, now: real, n: nat)
    requires Ready(c, s, p, until) && now <= s.clock && n >= |Text(c, s.procs[p].holder, until)|
    ensures var t, me := Exec(c, s, Opening(p, until, now, n)), s.procs[p];
            && Wrote(c, t, p, Proc(Linking, me.holder, me.attempt + 1, until, now, None))
            && t.lock == s.lock && (s.lock.Some? ==> Content(t, s.lock.value) == Content(s, s.lock.value))
  {
    var run := Opening(p, until, now, n);
    assert run[..1] == [Begin(p, until, now)] && run[..1][..0] == [];
    assert Exec(c, s, run[..1]) == Started(s, p, until, now);
  }

  /** What one call does to a process that has written its temporary. */
  lemma CallDoes(c: Codec, s: State, p: nat, me: Proc)
    requires Wrote(c, s, p, me)
    ensures var t := Advance(c, s, p);
            && t.files == s.files
            && match me.pc
               case Linking =>
                 if s.lock.None? then t.lock == Some(Temp(s, p)) && Wrote(c, t, p, me.(pc := Tidying))
                 else t.lock == s.lock && Wrote(c, t, p, me.(pc := Inspecting))
               case Inspecting =>
                 s.lock.Some? ==>
                   var until := UntilOf(c, Content(s, s.lock.value));
                   && t.lock == s.lock
                   && Wrote(c, t, p, if until.None? || until.value > me.now then me.(pc := GivingUp)
                                     else me.(pc := Replacing, seen := s.lock))
               case Replacing => t.lock == Some(Temp(s, p)) && Wrote(c, t, p, me.(pc := Confirming))
               case Confirming =>
                 s.lock == Some(Temp(s, p)) ==> t.lock == s.lock && Wrote(c, t, p, me.(pc := Tidying))
               case GivingUp => t.lock == s.lock && Wrote(c, t, p, me.(pc := Idle))
               case Tidying => t.lock == s.lock && Wrote(c, t, p, me.(pc := Holding))
               case _ => true
  {
    RecordRoundTrip(c, me.holder, me.until);
    hide HolderOf, UntilOf, Text;
  }

  /** The lock is this process's own file, whole. */
  ghost predicate Owns(c: Codec, s: State, p: nat, me: Proc) {
    Wrote(c, s, p, me) && s.lock == Some(Temp(s, p))
  }

  lemma LinkTurns(c: Codec, s: State, run: seq<Action>, p: nat, me: Proc)
    requires var t := Exec(c, s, run); Wrote(c, t, p, me) && me.pc.Linking? && t.lock.None?
    ensures Owns(c, Exec(c, s, run + Calls(p, 2)), p, me.(pc := Holding))
  {
    hide Exec, Advance, Text, Content, Prints;
    NoCall(c, s, run, p);
    var t := Exec(c, s, run);
    CallDoes(c, t, p, me);
    OneMoreCall(c, s, run, p, 0);
    var t1 := Exec(c, s, run + Calls(p, 1));
    CallDoes(c, t1, p, me.(pc := Tidying));
    OneMoreCall(c, s, run, p, 1);
  }

  /** Finding a lock there, the acquire steals it when its deadline has passed, and else gives up. */
  lemma StealTurns(c: Codec, s: State, run: seq<Action>, p: nat, me: Proc)
    requires var t := Exec(c, s, run); Wrote(c, t, p, me) && me.pc.Linking? && t.lock.Some?
    ensures var t := Exec(c, s, run);
            var until := UntilOf(c, Content(t, t.lock.value));
            if until.None? || until.value > me.now
            then
              var t' := Exec(c, s, run + Calls(p, 3));
              t'.lock == t.lock && t'.files == t.files && Wrote(c, t', p, me.(pc := Idle))
            else Owns(c, Exec(c, s, run + Calls(p, 5)), p, me.(pc := Holding, seen := t.lock))
  {
    hide Exec, Advance, Text, Content, Prints;
    NoCall(c, s, run, p);
    var t := Exec(c, s, run);
    CallDoes(c, t, p, me);
    OneMoreCall(c, s, run, p, 0);
    var t1 := Exec(c, s, run + Calls(p, 1));
    CallDoes(c, t1, p, me.(pc := Inspecting));
    OneMoreCall(c, s, run, p, 1);
    var t2 := Exec(c, s, run + Calls(p, 2));
    var until := UntilOf(c, Content(t, t.lock.value));
    assert Content(t1, t.lock.value) == Content(t, t.lock.value) by { SameFiles(t, t1, t.lock.value); }
    if until.None? || until.value > me.now {
      CallDoes(c, t2, p, me.(pc := GivingUp));
      OneMoreCall(c, s, run, p, 2);
    } else {
      RenameTurns(c, s, run, p, me.(pc := Replacing, seen := t.lock));
    }
  }

  lemma SameFiles(s: State, t: State, i: Inode)
    requires s.files == t.files
    ensures Content(s, i) == Content(t, i)
  {
  }

  lemma RenameTurns(c: Codec, s: State, run: seq<Action>, p: nat, me: Proc)
    requires Wrote(c, Exec(c, s, run + Calls(p, 2)), p, me) && me.pc.Replacing?
    ensures Owns(c, Exec(c, s, run + Calls(p, 5)), p, me.(pc := Holding))
  {
    hide Exec, Advance, Text, Content, Prints;
    var t2 := Exec(c, s, run + Calls(p, 2));
    CallDoes(c, t2, p, me);
    OneMoreCall(c, s, run, p, 2);
    var t3 := Exec(c, s, run + Calls(p, 3));
    CallDoes(c, t3, p, me.(pc := Confirming));
    OneMoreCall(c, s, run, p, 3);
    var t4 := Exec(c, s, run + Calls(p, 4));
    CallDoes(c, t4, p, me.(pc := Tidying));
    OneMoreCall(c, s, run, p, 4);
  }

  lemma OwnsShows(c: Codec, s: State, key: string, p: nat, me: Proc)
    requires Owns(c, s, p, me)
    ensures Readable(c, s) && Shown(c, s, key) == map[key := Leases.Lease(me.holder, me.until)]
  {
    RecordRoundTrip(c, me.holder, me.until);
    hide Text, HolderOf, UntilOf;
  }

  /**
   Undisturbed, acquire_lease over the lock file acquires as the dictionary lease; over a lock that
   cannot be read it fails and leaves the lock as it was.
   */
  lemma AcquiresAlone(c: Codec, s: State, key: string, p: nat, until: real, now: real, n: nat) returns (k: nat)
    requires Ready(c, s, p, until) && now <= s.clock && n >= |Text(c, s.procs[p].holder, until)|
    ensures k <= 5
    ensures var t := Exec(c, s, Opening(p, until, now, n) + Calls(p, k));
            && p < |t.procs|
            && if Readable(c, s)
               then
                 var (leases, granted) := Leases.Acquire(Shown(c, s, key), key, s.procs[p].holder, until, now);
                 && Readable(c, t) && Shown(c, t, key) == leases
                 && t.procs[p].pc == if granted then Holding else Idle
               else t.procs[p].pc.Idle? && t.lock == s.lock && !Readable(c, t)
  {
    var run, holder := Opening(p, until, now, n), s.procs[p].holder;
    var me := Proc(Linking, holder, s.procs[p].attempt + 1, until, now, None);
    Opens(c, s, p, until, now, n);
    hide Exec, Text, HolderOf, UntilOf, Prints, Opening, Calls;
    var t := Exec(c, s, run);
    if t.lock.None? {
      LinkTurns(c, s, run, p, me);
      k := 2;
      OwnsShows(c, Exec(c, s, run + Calls(p, 2)), key, p, me.(pc := Holding));
    } else {
      StealTurns(c, s, run, p, me);
      var deadline := UntilOf(c, Content(t, t.lock.value));
      if deadline.None? || deadline.value > now {
        k := 3;
      } else {
        k := 5;
        OwnsShows(c, Exec(c, s, run + Calls(p, 5)), key, p, me.(pc := Holding, seen := t.lock));
      }
    }
  }

  /** A releasing process is at this call, with this lock there. */
  ghost predicate Leaving(s: State, t: State, p: nat, pc: Pc, lock: Option<Inode>) {
    && p < |s.procs| && p < |t.procs| && t.procs[p] == s.procs[p].(pc := pc)
    && t.lock == lock && t.files == s.files
  }

  predicate Carries(s: State, holder: string) {
    s.lock.Some? && HolderOf(Content(s, s.lock.value)) == holder
  }

  lemma LeavingCall(c: Codec, s: State, t: State, p: nat)
    requires p < |t.procs| && Leaving(s, t, p, t.procs[p].pc, s.lock)
    ensures var u := Advance(c, t, p);
            match t.procs[p].pc
            case Holding => Leaving(s, u, p, Checking, s.lock)
            case Checking => Leaving(s, u, p, if s.lock.Some? then Comparing else Idle, s.lock)
            case Comparing => Leaving(s, u, p, if Carries(s, s.procs[p].holder) then Unlinking else Idle, s.lock)
            case Unlinking => Leaving(s, u, p, Idle, None)
            case _ => true
  {
    hide HolderOf, UntilOf;
  }

  lemma ReleaseTurns(c: Codec, s: State, p: nat) returns (k: nat)
    requires p < |s.procs| && s.procs[p].pc.Holding?
    ensures k <= 4
    ensures Leaving(s, Exec(c, s, Calls(p, k)), p, Idle, if Carries(s, s.procs[p].holder) then None else s.lock)
  {
    assert forall n :: [] + Calls(p, n) == Calls(p, n);
    NoCall(c, s, [], p);
    assert Exec(c, s, []) == s;
    hide Exec, Advance, HolderOf, Content;
    LeavingCall(c, s, s, p);
    OneMoreCall(c, s, [], p, 0);
    LeavingCall(c, s, Exec(c, s, Calls(p, 1)), p);
    OneMoreCall(c, s, [], p, 1);
    k := 2;
    if s.lock.Some? {
      LeavingCall(c, s, Exec(c, s, Calls(p, 2)), p);
      OneMoreCall(c, s, [], p, 2);
      k := 3;
      if Carries(s, s.procs[p].holder) {
        LeavingCall(c, s, Exec(c, s, Calls(p, 3)), p);
        OneMoreCall(c, s, [], p, 3);
        k := 4;
      }
    }
  }

  /** Undisturbed, release_lease unlinks the lock exactly when it carries the caller's name. */
  lemma ReleasesAlone(c: Codec, s: State, key: string, p: nat) returns (k: nat)
    requires p < |s.procs| && s.procs[p].pc.Holding?
    ensures k <= 4
    ensures var t := Exec(c, s, Calls(p, k));
            && p < |t.procs| && t.procs[p].pc.Idle? && t.files == s.files
            && (t.lock == if s.lock.Some? && HolderOf(Content(s, s.lock.value)) == s.procs[p].holder
                          then None else s.lock)
            && (Readable(c, s) ==>
                  Readable(c, t) && Shown(c, t, key) == Leases.Release(Shown(c, s, key), key, s.procs[p].holder))
  {
    k := ReleaseTurns(c, s, p);
    hide Exec, HolderOf, UntilOf, Calls;
  }

  /**
   lease_held over the lock file answers as the dictionary lease; a lock that cannot be read is held, and
   so is one that vanishes between being found and being read.
   */
  lemma ProbeIsHeld(c: Codec, s: State, key: string, now: real, gone: bool)
    ensures FileRefresh.Held(c, s, now, gone) <==>
            (s.lock.None? && gone) || !Readable(c, s) || Leases.Held(Shown(c, s, key), key, now)
  {
  }

  /** What a caller over the lock file hears: the one clock, the token last stored, what the provider gave. */
  lemma AnswersAreTrue(p: Refresh.Params, c: Codec, s: FileRefresh.State, i: nat, provider: Option<Refresh.Token>,
                       gone: bool, e: Refresh.Event)
    requires FileRefresh.Alive(s, i) && FileRefresh.Answer(p, c, s, i, provider, gone) == Some(e)
    ensures e.ReadClock? ==> e.now == s.files.clock
    ensures e.GotConnection? ==>
              Refresh.HasToken(e.conn) && e.conn.value.token.value == s.vault.history[|s.vault.history| - 1]
    ensures e.CalledProvider? ==> e.result == provider
    ensures e.TriedLease? ==> (e.granted <==> s.files.procs[i].pc.Tidying?)
    ensures e.Probed? ==> (e.held <==> FileRefresh.Held(c, s.files, e.now, gone))
  {
    hide UntilOf, HolderOf, FileRefresh.Held;
  }
}
