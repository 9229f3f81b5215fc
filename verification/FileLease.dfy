/**
 The lease kept as one lock file: a record is written to a private temporary file and
 then published by a hard link, or renamed over an expired lock and read back.
 */
module FileLease {
  import opened Wrappers
  import Leases

  // ----- the record -----

  /** How deadlines are printed and parsed. */
  datatype Codec = Codec(render: real -> string, parse: string -> Option<real>)

  /** The deadline prints to text that parses back to it, as every float does. */
  predicate Prints(c: Codec, until: real) {
    c.parse(c.render(until)) == Some(until)
  }

  function Text(c: Codec, holder: string, until: real): string {
    holder + "\n" + c.render(until)
  }

  /** Index of the first newline, or the length. */
  function LineEnd(s: string): (n: nat)
    ensures n <= |s|
  {
    if s == "" || s[0] == '\n' then 0 else 1 + LineEnd(s[1..])
  }

  function HolderOf(content: string): string {
    content[..LineEnd(content)]
  }

  function UntilOf(c: Codec, content: string): Option<real> {
    if LineEnd(content) == |content| then None else c.parse(content[LineEnd(content) + 1..])
  }

  lemma {:induction false} LineEndOfText(holder: string, rest: string)
    requires '\n' !in holder
    ensures LineEnd(holder + "\n" + rest) == |holder|
  {
    if holder != "" {
      assert (holder + "\n" + rest)[1..] == holder[1..] + "\n" + rest;
      LineEndOfText(holder[1..], rest);
    }
  }

  /** Reading a complete record gives back the holder and the deadline written. */
  lemma RecordRoundTrip(c: Codec, holder: string, until: real)
    requires Prints(c, until) && '\n' !in holder
    ensures HolderOf(Text(c, holder, until)) == holder
    ensures UntilOf(c, Text(c, holder, until)) == Some(until)
  {
    LineEndOfText(holder, c.render(until));
    assert Text(c, holder, until)[|holder| + 1..] == c.render(until);
  }

  /** Whole seconds in decimal: a codec under which every whole deadline prints. */
  function Decimal(n: nat): string {
    if n < 10 then [('0' as int + n) as char] else Decimal(n / 10) + [('0' as int + n % 10) as char]
  }

  function Digits(s: string): int {
    if s == "" then 0 else 10 * Digits(s[..|s| - 1]) + (s[|s| - 1] as int - '0' as int)
  }

  const WHOLE: Codec := Codec((u: real) => Decimal(if u < 0.0 then 0 else u.Floor),
                              (s: string) => Some(Digits(s) as real))

  lemma {:induction false} DigitsOfDecimal(n: nat)
    ensures Digits(Decimal(n)) == n
  {
    if n >= 10 {
      DigitsOfDecimal(n / 10);
      assert Decimal(n)[..|Decimal(n)| - 1] == Decimal(n / 10);
    }
  }

  lemma WholeDeadlinesPrint(n: nat)
    ensures Prints(WHOLE, n as real)
  {
    DigitsOfDecimal(n);
    assert (n as real).Floor == n;
  }

  // ----- one caller at a time -----

  datatype Path = LockPath | TempPath

  class LocalFileLease {
    const key: string
    const codec: Codec
    var files: map<Path, string>

    /** No temporary is left behind. */
    ghost predicate Valid()
      reads this
    {
      TempPath !in files
    }

    /** The lock file, if there is one, holds a deadline that can be read. */
    ghost predicate Readable()
      reads this
    {
      LockPath in files ==> UntilOf(codec, files[LockPath]).Some?
    }

    /** The dictionary lease the directory stands for. */
    ghost function Abstract(): Leases.Table<string>
      requires Readable()
      reads this
    {
      if LockPath !in files then map[]
      else map[key := Leases.Lease(HolderOf(files[LockPath]), UntilOf(codec, files[LockPath]).value)]
    }

    /** The directory may already hold a lock, whatever is in it. */
    constructor (key: string, codec: Codec, found: Option<string>)
      ensures Valid() && this.key == key && this.codec == codec
      ensures files == if found.Some? then map[LockPath := found.value] else map[]
      ensures found.None? ==> Readable() && Abstract() == map[]
    {
      this.key := key;
      this.codec := codec;
      files := if found.Some? then map[LockPath := found.value] else map[];
    }

    /** A lock that cannot be read is never stolen. */
    method AcquireLease(holder: string, until: real, now: real) returns (granted: bool)
      requires Valid() && '\n' !in holder && Prints(codec, until)
      modifies this`files
      ensures Valid()
      ensures old(Readable()) ==>
                Readable() && (Abstract(), granted) == Leases.Acquire(old(Abstract()), key, holder, until, now)
      ensures !old(Readable()) ==> !granted && files == old(files)
    {
      RecordRoundTrip(codec, holder, until);
      files := files[TempPath := ""];
      files := files[TempPath := Text(codec, holder, until)];
      if LockPath !in files {
        files := files[LockPath := files[TempPath]];
        granted := true;
      } else {
        var current := UntilOf(codec, files[LockPath]);
        if current.None? || current.value > now {
          granted := false;
        } else {
          files := files[LockPath := files[TempPath]] - {TempPath};
          granted := HolderOf(files[LockPath]) == holder;
        }
      }
      if TempPath in files {
        files := files - {TempPath};
      }
      assert granted ==> Abstract() == old(Abstract())[key := Leases.Lease(holder, until)];
      assert !granted ==> files == old(files);
    }

    method ReleaseLease(holder: string)
      requires Valid()
      modifies this`files
      ensures Valid()
      ensures old(Readable()) ==> Readable() && Abstract() == Leases.Release(old(Abstract()), key, holder)
      ensures files == if LockPath in old(files) && HolderOf(old(files)[LockPath]) == holder
                       then old(files) - {LockPath} else old(files)
    {
      if LockPath in files && HolderOf(files[LockPath]) == holder {
        files := files - {LockPath};
      }
    }

    method LeaseHeld(now: real) returns (held: bool)
      requires Valid()
      ensures held <==> (Readable() ==> Leases.Held(Abstract(), key, now))
    {
      if LockPath !in files {
        return false;
      }
      var current := UntilOf(codec, files[LockPath]);
      return current.None? || current.value > now;
    }
  }

  // ----- any number of callers, one file-system call at a time -----

  /** A file created by one acquire attempt; a hard link or a rename moves names, not content. */
  datatype Inode = Inode(owner: nat, attempt: nat, until: real)

  datatype Pc =
    | Idle | Writing | Linking | Inspecting | Replacing | Confirming | GivingUp
    | Tidying | Holding | Checking | Comparing | Unlinking | Dead

  /** `seen` remembers the file whose expired deadline the process read. */
  datatype Proc = Proc(pc: Pc, holder: string, attempt: nat, until: real, now: real, seen: Option<Inode>)

  datatype State = State(clock: real, lock: Option<Inode>, files: map<Inode, string>, procs: seq<Proc>)

  datatype Action =
    | Tick(to: real)
    | Begin(p: nat, until: real, now: real)   // call acquire_lease, with a clock reading already taken
    | WriteSome(p: nat, n: nat)               // os.write, in chunks
    | Go(p: nat)                              // the next file-system call
    | Crash(p: nat)

  function Temp(s: State, p: nat): Inode
    requires p < |s.procs|
  {
    Inode(p, s.procs[p].attempt, s.procs[p].until)
  }

  /** Between a true acquire and the end of its release. */
  predicate InSection(pc: Pc) {
    pc.Tidying? || pc.Holding? || pc.Checking? || pc.Comparing? || pc.Unlinking?
  }

  function Content(s: State, i: Inode): string {
    if i in s.files then s.files[i] else ""
  }

  function Goto(s: State, p: nat, pc: Pc): State
    requires p < |s.procs|
  {
    s.(procs := s.procs[p := s.procs[p].(pc := pc)])
  }

  function Started(s: State, p: nat, until: real, now: real): State
    requires p < |s.procs|
  {
    var me := s.procs[p];
    s.(procs := s.procs[p := Proc(Writing, me.holder, me.attempt + 1, until, now, None)],
       files := s.files[Inode(p, me.attempt + 1, until) := ""])
  }

  function Written(c: Codec, s: State, p: nat, n: nat): State
    requires p < |s.procs|
  {
    var me := s.procs[p];
    var text, done := Text(c, me.holder, me.until), |Content(s, Temp(s, p))| + n;
    if done < |text| then s.(files := s.files[Temp(s, p) := text[..done]])
    else Goto(s.(files := s.files[Temp(s, p) := text]), p, Linking)
  }

  function Step(c: Codec, s: State, a: Action): State {
    match a
    case Tick(to) => if to >= s.clock then s.(clock := to) else s
    case Begin(p, until, now) =>
      if p < |s.procs| && s.procs[p].pc == Idle && now <= s.clock then Started(s, p, until, now) else s
    case WriteSome(p, n) => if p < |s.procs| && s.procs[p].pc == Writing then Written(c, s, p, n) else s
    case Crash(p) => if p < |s.procs| then Goto(s, p, Dead) else s
    case Go(p) => if p < |s.procs| then Advance(c, s, p) else s
  }

  /** One file-system call of process p. */
  function Advance(c: Codec, s: State, p: nat): State
    requires p < |s.procs|
  {
    var me := s.procs[p];
    match me.pc
    case Linking =>
      if s.lock.None? then Goto(s.(lock := Some(Temp(s, p))), p, Tidying) else Goto(s, p, Inspecting)
    case Inspecting =>
      if s.lock.None? then Goto(s, p, GivingUp)
      else
        var current := UntilOf(c, Content(s, s.lock.value));
        if current.None? || current.value > me.now then Goto(s, p, GivingUp)
        else s.(procs := s.procs[p := me.(pc := Replacing, seen := s.lock)])
    case Replacing => Goto(s.(lock := Some(Temp(s, p))), p, Confirming)
    case Confirming =>
      if s.lock.Some? && HolderOf(Content(s, s.lock.value)) == me.holder
      then Goto(s, p, Tidying) else Goto(s, p, GivingUp)
    case GivingUp => Goto(s, p, Idle)
    case Tidying => Goto(s, p, Holding)
    case Holding => Goto(s, p, Checking)
    case Checking => Goto(s, p, if s.lock.Some? then Comparing else Idle)
    case Comparing =>
      if s.lock.Some? && HolderOf(Content(s, s.lock.value)) == me.holder
      then Goto(s, p, Unlinking) else Goto(s, p, Idle)
    case Unlinking => Goto(s.(lock := None), p, Idle)
    case _ => s
  }

  function Exec(c: Codec, s: State, run: seq<Action>): State {
    if run == [] then s else Step(c, Exec(c, s, run[..|run| - 1]), run[|run| - 1])
  }

  // ----- what is proved -----

  ghost predicate Initial(s: State) {
    && s.lock.None?
    && (forall p :: 0 <= p < |s.procs| ==> s.procs[p].pc == Idle && '\n' !in s.procs[p].holder)
  }

  ghost predicate DistinctHolders(s: State) {
    forall p, q :: 0 <= p < q < |s.procs| ==> s.procs[p].holder != s.procs[q].holder
  }

  ghost predicate Exclusive(s: State) {
    forall p, q :: 0 <= p < q < |s.procs| ==> !(InSection(s.procs[p].pc) && InSection(s.procs[q].pc))
  }

  ghost predicate Vacant(s: State) {
    forall p :: 0 <= p < |s.procs| ==> !InSection(s.procs[p].pc)
  }

  predicate Renames(s: State, a: Action) {
    a.Go? && a.p < |s.procs| && s.procs[a.p].pc == Replacing
  }

  /** No lock is renamed over while its owner is still between acquire and release. */
  ghost predicate NoLiveSteal(c: Codec, s: State, run: seq<Action>) {
    forall k :: 0 <= k < |run| && Renames(Exec(c, s, run[..k]), run[k]) ==> Vacant(Exec(c, s, run[..k]))
  }

  /** Every rename lands on the very file whose expired deadline was read. */
  ghost predicate HitsInspected(c: Codec, s: State, run: seq<Action>) {
    forall k :: 0 <= k < |run| && Renames(Exec(c, s, run[..k]), run[k]) ==> OnInspected(Exec(c, s, run[..k]), run[k])
  }

  predicate OnInspected(s: State, a: Action) {
    a.Go? && a.p < |s.procs| && s.lock == s.procs[a.p].seen
  }

  /** No lease runs out while its owner is between acquire and release. */
  ghost predicate Timely(s: State) {
    forall p :: 0 <= p < |s.procs| && InSection(s.procs[p].pc) ==> s.clock < s.procs[p].until
  }

  ghost predicate AlwaysTimely(c: Codec, s: State, run: seq<Action>) {
    forall k :: 0 <= k <= |run| ==> Timely(Exec(c, s, run[..k]))
  }

  /** Every deadline asked for prints. */
  predicate PrintsAll(c: Codec, run: seq<Action>) {
    forall k :: 0 <= k < |run| && run[k].Begin? ==> Prints(c, run[k].until)
  }

  /** No acquirer ever reads an expired deadline. */
  ghost predicate NoExpirySeen(c: Codec, s: State, run: seq<Action>) {
    forall k, p :: 0 <= k <= |run| && 0 <= p < |s.procs| && p < |Exec(c, s, run[..k]).procs| ==>
      Exec(c, s, run[..k]).procs[p].pc != Replacing
  }

  /** The file named by the lock path is complete, whoever reads it. */
  ghost predicate WholeRecord(c: Codec, s: State) {
    s.lock.Some? ==>
      && s.lock.value.owner < |s.procs| && Prints(c, s.lock.value.until)
      && Content(s, s.lock.value) == Text(c, s.procs[s.lock.value.owner].holder, s.lock.value.until)
  }

  predicate Unpublished(pc: Pc) {
    pc.Writing? || pc.Linking? || pc.Inspecting? || pc.Replacing?
  }

  /** What process p has written, and which file at the lock path can be its own. */
  ghost predicate FileOk(c: Codec, s: State, p: nat)
    requires p < |s.procs|
  {
    var me := s.procs[p];
    && '\n' !in me.holder
    && (me.pc != Idle && me.pc != Dead ==> Prints(c, me.until) && me.now <= s.clock)
    && (me.pc == Replacing ==> me.seen.Some? && me.seen.value.until <= me.now)
    && (me.pc == Writing ==> Content(s, Temp(s, p)) <= Text(c, me.holder, me.until))
    && (me.pc in {Linking, Inspecting, Replacing} ==> Content(s, Temp(s, p)) == Text(c, me.holder, me.until))
    && (s.lock.Some? && s.lock.value.owner == p ==>
          && s.lock.value.attempt <= me.attempt
          && (Unpublished(me.pc) ==> s.lock.value.attempt < me.attempt)
          && (me.pc == Confirming ==> s.lock.value == Temp(s, p)))
  }

  /** What every run keeps, however locks are stolen. */
  ghost predicate FileInv(c: Codec, s: State) {
    WholeRecord(c, s) && forall p :: 0 <= p < |s.procs| ==> FileOk(c, s, p)
  }

  /** Whoever is in the section owns the lock. */
  ghost predicate Owned(s: State) {
    forall p :: 0 <= p < |s.procs| && InSection(s.procs[p].pc) ==> s.lock == Some(Temp(s, p))
  }

  ghost predicate Inv(c: Codec, s: State) {
    FileInv(c, s) && Owned(s)
  }

  lemma AdvanceKeepsShape(c: Codec, s: State, p: nat)
    requires p < |s.procs|
    ensures var t := Advance(c, s, p);
            && |t.procs| == |s.procs| && t.clock == s.clock && t.procs[p].holder == s.procs[p].holder
            && (forall q :: 0 <= q < |s.procs| && q != p ==> t.procs[q] == s.procs[q])
  {
    hide UntilOf, HolderOf, Content;
  }

  lemma StepKeepsShape(c: Codec, s: State, a: Action)
    ensures |Step(c, s, a).procs| == |s.procs| && s.clock <= Step(c, s, a).clock
    ensures forall p :: 0 <= p < |s.procs| ==> Step(c, s, a).procs[p].holder == s.procs[p].holder
    ensures forall p :: 0 <= p < |s.procs| && (a.Tick? || p != a.p) ==> Step(c, s, a).procs[p] == s.procs[p]
  {
    if a.Go? && a.p < |s.procs| { AdvanceKeepsShape(c, s, a.p); }
    hide Advance;
  }

  /** What the lock path shows is the name and the deadline of the file's owner. */
  lemma LockShows(c: Codec, s: State)
    requires FileInv(c, s) && s.lock.Some?
    ensures UntilOf(c, Content(s, s.lock.value)) == Some(s.lock.value.until)
    ensures HolderOf(Content(s, s.lock.value)) == s.procs[s.lock.value.owner].holder
  {
    assert FileOk(c, s, s.lock.value.owner);
    RecordRoundTrip(c, s.procs[s.lock.value.owner].holder, s.lock.value.until);
  }

  /** Only the lock's owner carries its name, so a read-back that matches is one's own file. */
  lemma OwnName(c: Codec, s: State, p: nat)
    requires DistinctHolders(s) && FileInv(c, s) && p < |s.procs| && s.lock.Some?
    ensures HolderOf(Content(s, s.lock.value)) == s.procs[p].holder <==> s.lock.value.owner == p
  {
    LockShows(c, s);
  }

  /** What a call of process p may do to the rest of the system. */
  ghost predicate Touches(s: State, s': State, p: nat)
    requires p < |s.procs|
  {
    && |s'.procs| == |s.procs| && s'.clock == s.clock
    && (forall q :: 0 <= q < |s.procs| && q != p ==> s'.procs[q] == s.procs[q])
    && (forall i: Inode :: i.owner != p ==> Content(s', i) == Content(s, i))
    && (s'.lock == s.lock
        || (s'.lock == Some(Temp(s, p)) && (s.lock.None? || s.procs[p].pc == Replacing))
        || (s'.lock.None? && InSection(s.procs[p].pc)))
  }

  lemma StepTouches(c: Codec, s: State, a: Action)
    requires !a.Tick? && a.p < |s.procs|
    ensures Touches(s, Step(c, s, a), a.p)
  {
    StepKeepsShape(c, s, a);
  }

  lemma TouchKeepsOther(c: Codec, s: State, s': State, p: nat, q: nat)
    requires p < |s.procs| && q < |s.procs| && q != p
    requires FileInv(c, s) && Touches(s, s', p)
    ensures FileOk(c, s', q)
  {
    assert FileOk(c, s, q) && FileOk(c, s, p);
  }

  lemma WriteKeepsMine(c: Codec, s: State, a: Action)
    requires FileInv(c, s) && !a.Tick? && !a.Go? && a.p < |s.procs| && (a.Begin? ==> Prints(c, a.until))
    ensures a.p < |Step(c, s, a).procs| && FileOk(c, Step(c, s, a), a.p)
  {
    assert FileOk(c, s, a.p);
  }

  lemma ReadKeepsMine(c: Codec, s: State, p: nat)
    requires FileInv(c, s) && p < |s.procs| && s.procs[p].pc in {Inspecting, Confirming, Checking, Comparing}
    ensures p < |Advance(c, s, p).procs| && FileOk(c, Advance(c, s, p), p)
  {
    assert FileOk(c, s, p);
    if s.lock.Some? { LockShows(c, s); }
    hide UntilOf, HolderOf, Text;
    var t := Advance(c, s, p);
    assert t.procs[p] == s.procs[p].(pc := t.procs[p].pc, seen := t.procs[p].seen) && t.files == s.files;
  }

  /** Changing the lock path, or nothing. */
  lemma MoveKeepsMine(c: Codec, s: State, p: nat)
    requires p < |s.procs| && FileOk(c, s, p)
    requires s.procs[p].pc !in {Inspecting, Confirming, Checking, Comparing}
    ensures p < |Advance(c, s, p).procs| && FileOk(c, Advance(c, s, p), p)
  {
    hide UntilOf, HolderOf, Text;
    var t := Advance(c, s, p);
    assert t.procs[p] == s.procs[p].(pc := t.procs[p].pc) && t.files == s.files;
  }

  lemma StepKeepsRecord(c: Codec, s: State, a: Action)
    requires FileInv(c, s) && !a.Tick? && a.p < |s.procs|
    ensures WholeRecord(c, Step(c, s, a))
  {
    assert FileOk(c, s, a.p);
    StepKeepsShape(c, s, a);
    if s.lock.Some? { assert FileOk(c, s, s.lock.value.owner); }
  }

  lemma TickKeepsFiles(c: Codec, s: State, to: real)
    requires FileInv(c, s)
    ensures FileInv(c, Step(c, s, Tick(to)))
  {
    var t := Step(c, s, Tick(to));
    forall p | 0 <= p < |t.procs| ensures FileOk(c, t, p) { assert FileOk(c, s, p); }
  }

  lemma StepKeepsFiles(c: Codec, s: State, a: Action)
    requires FileInv(c, s) && (a.Begin? ==> Prints(c, a.until))
    ensures FileInv(c, Step(c, s, a))
  {
    if a.Tick? {
      TickKeepsFiles(c, s, a.to);
    } else if a.p < |s.procs| {
      StepKeepsShape(c, s, a);
      StepTouches(c, s, a);
      StepKeepsRecord(c, s, a);
      if !a.Go? { WriteKeepsMine(c, s, a); }
      else if s.procs[a.p].pc in {Inspecting, Confirming, Checking, Comparing} { ReadKeepsMine(c, s, a.p); }
      else { MoveKeepsMine(c, s, a.p); }
      hide FileOk, WholeRecord, Touches;
      forall q | 0 <= q < |s.procs| && q != a.p ensures FileOk(c, Step(c, s, a), q) {
        TouchKeepsOther(c, s, Step(c, s, a), a.p, q);
      }
    }
  }

  /** A call by which a process gets in leaves it the owner of the lock. */
  lemma MineIsOwned(c: Codec, s: State, p: nat)
    requires Inv(c, s) && p < |s.procs| && (s.procs[p].pc == Confirming ==> DistinctHolders(s))
    ensures var t := Advance(c, s, p);
            |t.procs| == |s.procs| && (InSection(t.procs[p].pc) ==> t.lock == Some(Temp(t, p)))
  {
    AdvanceKeepsShape(c, s, p);
    assert FileOk(c, s, p);
    if s.procs[p].pc == Confirming && s.lock.Some? { OwnName(c, s, p); }
    hide UntilOf, HolderOf, Text;
  }

  lemma StepKeepsOwned(c: Codec, s: State, a: Action)
    requires Inv(c, s) && (Renames(s, a) ==> Vacant(s))
    requires !a.Tick? && a.p < |s.procs| && s.procs[a.p].pc == Confirming ==> DistinctHolders(s)
    ensures Owned(Step(c, s, a))
  {
    if !a.Tick? && a.p < |s.procs| {
      StepTouches(c, s, a);
      if a.Go? { MineIsOwned(c, s, a.p); }
      hide Advance, Content, Text;
    }
  }

  lemma StepKeepsInv(c: Codec, s: State, a: Action)
    requires Inv(c, s) && (Renames(s, a) ==> Vacant(s)) && (a.Begin? ==> Prints(c, a.until))
    requires !a.Tick? && a.p < |s.procs| && s.procs[a.p].pc == Confirming ==> DistinctHolders(s)
    ensures Inv(c, Step(c, s, a))
  {
    hide Step, FileInv, Owned, Renames, Vacant, DistinctHolders;
    StepKeepsFiles(c, s, a);
    StepKeepsOwned(c, s, a);
  }

  lemma ConfirmsOnlyAfterRename(c: Codec, s: State, a: Action, p: nat)
    requires p < |s.procs|
    ensures p < |Step(c, s, a).procs|
    ensures Step(c, s, a).procs[p].pc == Confirming ==> s.procs[p].pc in {Replacing, Confirming}
  {
    StepKeepsShape(c, s, a);
  }

  lemma {:induction false} NoRenameNoConfirm(c: Codec, s: State, run: seq<Action>, p: nat)
    requires Initial(s) && NoExpirySeen(c, s, run) && p < |s.procs|
    ensures p < |Exec(c, s, run).procs| && Exec(c, s, run).procs[p].pc !in {Replacing, Confirming}
  {
    ExecKeepsProcs(c, s, run);
    assert run[..|run|] == run;
    if run != [] {
      hide Step;
      var front := run[..|run| - 1];
      assert forall k :: 0 <= k <= |front| ==> front[..k] == run[..k];
      NoRenameNoConfirm(c, s, front, p);
      ConfirmsOnlyAfterRename(c, Exec(c, s, front), run[|run| - 1], p);
    }
  }

  lemma {:induction false} ExecKeepsNames(c: Codec, s: State, run: seq<Action>)
    requires DistinctHolders(s)
    ensures DistinctHolders(Exec(c, s, run))
  {
    if run != [] {
      ExecKeepsNames(c, s, run[..|run| - 1]);
      StepKeepsShape(c, Exec(c, s, run[..|run| - 1]), run[|run| - 1]);
      hide Step;
    }
  }

  lemma {:induction false} ExecKeepsProcs(c: Codec, s: State, run: seq<Action>)
    ensures |Exec(c, s, run).procs| == |s.procs|
  {
    if run != [] {
      ExecKeepsProcs(c, s, run[..|run| - 1]);
      StepKeepsShape(c, Exec(c, s, run[..|run| - 1]), run[|run| - 1]);
    }
  }

  lemma InitialInv(c: Codec, s: State)
    requires Initial(s)
    ensures Inv(c, s)
  {
  }

  lemma {:induction false} ExecKeepsInv(c: Codec, s: State, run: seq<Action>)
    requires Initial(s) && PrintsAll(c, run) && NoLiveSteal(c, s, run)
    requires DistinctHolders(s) || NoExpirySeen(c, s, run)
    ensures Inv(c, Exec(c, s, run))
  {
    if run == [] {
      InitialInv(c, s);
    } else {
      var front := run[..|run| - 1];
      var last := run[|run| - 1];
      assert forall k :: 0 <= k <= |front| ==> front[..k] == run[..k];
      hide Step, Inv, Vacant, Renames, Initial, DistinctHolders;
      ExecKeepsInv(c, s, front);
      ExecKeepsProcs(c, s, front);
      if DistinctHolders(s) {
        ExecKeepsNames(c, s, front);
      } else if !last.Tick? && last.p < |s.procs| {
        NoRenameNoConfirm(c, s, front, last.p);
      }
      StepKeepsInv(c, Exec(c, s, front), last);
    }
  }

  lemma InvIsExclusive(c: Codec, s: State)
    requires Inv(c, s)
    ensures Exclusive(s)
    ensures s.lock.Some? ==> UntilOf(c, Content(s, s.lock.value)).Some?
  {
    forall p, q | 0 <= p < q < |s.procs| ensures !(InSection(s.procs[p].pc) && InSection(s.procs[q].pc)) {
      assert Temp(s, p) != Temp(s, q);
    }
    if s.lock.Some? { LockShows(c, s); }
  }

  /**
   In every interleaving where no live lock is renamed over, at most one process is
   between a true acquire and its release, and what any reader finds at the lock path
   is the complete record of one acquire attempt.
   */
  lemma ExclusiveUnlessLiveSteal(c: Codec, s: State, run: seq<Action>)
    requires Initial(s) && PrintsAll(c, run) && DistinctHolders(s) && NoLiveSteal(c, s, run)
    ensures Exclusive(Exec(c, s, run))
    ensures WholeRecord(c, Exec(c, s, run))
    ensures Exec(c, s, run).lock.Some? ==> UntilOf(c, Content(Exec(c, s, run), Exec(c, s, run).lock.value)).Some?
  {
    ExecKeepsInv(c, s, run);
    InvIsExclusive(c, Exec(c, s, run));
  }

  /** When nobody meets an expired lock the same holds, even for processes that share a name. */
  lemma ExclusiveWithoutExpiry(c: Codec, s: State, run: seq<Action>)
    requires Initial(s) && PrintsAll(c, run) && NoExpirySeen(c, s, run)
    ensures Exclusive(Exec(c, s, run)) && WholeRecord(c, Exec(c, s, run))
  {
    forall k | 0 <= k < |run| ensures !Renames(Exec(c, s, run[..k]), run[k]) {
      ExecKeepsProcs(c, s, run[..k]);
    }
    ExecKeepsInv(c, s, run);
    InvIsExclusive(c, Exec(c, s, run));
  }

  // ----- when a steal is safe -----

  /** The file a process read as expired, if it is still the lock, belongs to nobody whose lease is running. */
  lemma InspectedIsVacant(c: Codec, s: State, a: Action)
    requires Inv(c, s) && Timely(s) && Renames(s, a) && OnInspected(s, a)
    ensures Vacant(s)
  {
    assert FileOk(c, s, a.p);
  }

  /**
   When owners keep within their leases, every rename that lands on the very file read as
   expired is safe: exclusion and whole records hold in every run of such renames.
   */
  lemma {:induction false} StealsOfInspectedFilesAreSafe(c: Codec, s: State, run: seq<Action>)
    requires Initial(s) && PrintsAll(c, run) && DistinctHolders(s)
    requires AlwaysTimely(c, s, run) && HitsInspected(c, s, run)
    ensures NoLiveSteal(c, s, run)
    ensures Exclusive(Exec(c, s, run)) && WholeRecord(c, Exec(c, s, run))
  {
    if run != [] {
      hide Step, Inv, Vacant, Renames, OnInspected, Timely, Initial, DistinctHolders, Exclusive, WholeRecord;
      var front, last := run[..|run| - 1], run[|run| - 1];
      assert forall k :: 0 <= k <= |front| ==> front[..k] == run[..k];
      StealsOfInspectedFilesAreSafe(c, s, front);
      ExecKeepsInv(c, s, front);
      assert Timely(Exec(c, s, run[..|front|]));
      if Renames(Exec(c, s, front), last) {
        assert OnInspected(Exec(c, s, run[..|front|]), run[|front|]);
        InspectedIsVacant(c, Exec(c, s, front), last);
      }
      forall k | 0 <= k < |run| && Renames(Exec(c, s, run[..k]), run[k]) ensures Vacant(Exec(c, s, run[..k])) {
        if k < |front| { assert front[k] == run[k] && front[..k] == run[..k]; }
      }
    }
    ExclusiveUnlessLiveSteal(c, s, run);
  }

  /**
   Once a process is about to rename, its rename and read-back keep the section exclusive exactly
   when nobody is in it.
   */
  lemma StealIsSafeExactlyWhenVacant(c: Codec, s: State, p: nat)
    requires FileInv(c, s) && p < |s.procs| && s.procs[p].pc == Replacing
    ensures Exclusive(Step(c, Step(c, s, Go(p)), Go(p))) <==> Vacant(s)
  {
    assert FileOk(c, s, p);
    RecordRoundTrip(c, s.procs[p].holder, s.procs[p].until);
    var t := Step(c, Step(c, s, Go(p)), Go(p));
    assert t.procs[p].pc == Tidying;
    forall q | 0 <= q < |s.procs| && q != p ensures t.procs[q] == s.procs[q] {}
    if !Vacant(s) {
      var q :| 0 <= q < |s.procs| && InSection(s.procs[q].pc);
      assert InSection(t.procs[q].pc) && InSection(t.procs[p].pc);
      assert q < p || p < q;
    }
  }

  // ----- exactly when nobody can join another -----

  /** Read back now, the lock path would show process p its own name. */
  predicate Passes(s: State, p: nat) {
    && p < |s.procs| && s.procs[p].pc == Confirming
    && s.lock.Some? && HolderOf(Content(s, s.lock.value)) == s.procs[p].holder
  }

  predicate Enters(s: State, a: Action) {
    a.Go? && a.p < |s.procs| && ((s.procs[a.p].pc == Linking && s.lock.None?) || Passes(s, a.p))
  }

  /** A process gets in while another of its name is between its rename and its read-back. */
  ghost predicate NamesakeWaits(s: State, a: Action) {
    Enters(s, a) &&
    exists q :: 0 <= q < |s.procs| && q != a.p && s.procs[q].pc == Confirming
      && s.procs[q].holder == s.procs[a.p].holder
  }

  ghost predicate NoNamesakeWaits(c: Codec, s: State, run: seq<Action>) {
    forall k :: 0 <= k < |run| ==> !NamesakeWaits(Exec(c, s, run[..k]), run[k])
  }

  /** Whoever calls next, at any point of the run, nobody joins another in the section. */
  ghost predicate SafeWhateverComesNext(c: Codec, s: State, run: seq<Action>) {
    forall k, p: nat :: 0 <= k <= |run| ==> Exclusive(Exec(c, s, run[..k] + [Go(p)]))
  }

  lemma ExecNext(c: Codec, s: State, run: seq<Action>, a: Action)
    ensures Exec(c, s, run + [a]) == Step(c, Exec(c, s, run), a)
  {
    assert (run + [a])[..|run|] == run;
  }

  /** One at most in the section, and nobody without a lock. */
  ghost predicate Guarded(s: State) {
    Exclusive(s) && (s.lock.None? ==> Vacant(s))
  }

  /** Somebody's read-back would pass beside another in the section. */
  ghost predicate Intruding(s: State) {
    !Vacant(s) && exists p :: 0 <= p < |s.procs| && Passes(s, p)
  }

  /** What a step does to the section and to what a read-back sees. */
  lemma StepMoves(c: Codec, s: State, a: Action)
    requires !a.Tick? && a.p < |s.procs|
    ensures var t := Step(c, s, a);
            && Touches(s, t, a.p) && t.procs[a.p].holder == s.procs[a.p].holder
            && (InSection(t.procs[a.p].pc) ==> InSection(s.procs[a.p].pc) || Enters(s, a))
            && (Enters(s, a) ==> InSection(t.procs[a.p].pc) && t.lock.Some? && t.files == s.files)
            && (t.lock.None? ==> s.lock.None? || !InSection(t.procs[a.p].pc))
            && (t.lock.None? || t.lock == s.lock || Enters(s, a) || Renames(s, a))
            && (t.procs[a.p].pc == Confirming ==> s.procs[a.p].pc == Confirming || Renames(s, a))
  {
    StepKeepsShape(c, s, a);
    StepTouches(c, s, a);
    hide UntilOf, HolderOf, Text;
  }

  lemma GuardStays(c: Codec, s: State, a: Action)
    requires Guarded(s) && !Intruding(s)
    ensures Guarded(Step(c, s, a))
  {
    if !a.Tick? && a.p < |s.procs| {
      StepMoves(c, s, a);
      var t := Step(c, s, a);
      hide Step, Content, HolderOf;
      assert forall q :: 0 <= q < |s.procs| && q != a.p && InSection(s.procs[q].pc) && InSection(s.procs[a.p].pc) ==>
               false;
    }
  }

  /** The next call keeps the section exclusive, whoever makes it, exactly when nobody is about to intrude. */
  lemma NextIsSafeExactly(c: Codec, s: State)
    requires Guarded(s)
    ensures (forall p: nat :: Exclusive(Step(c, s, Go(p)))) <==> !Intruding(s)
  {
    if !Intruding(s) {
      forall p: nat ensures Exclusive(Step(c, s, Go(p))) { GuardStays(c, s, Go(p)); }
    } else {
      var p :| 0 <= p < |s.procs| && Passes(s, p);
      var q :| 0 <= q < |s.procs| && InSection(s.procs[q].pc);
      StepMoves(c, s, Go(p));
      var t := Step(c, s, Go(p));
      assert InSection(t.procs[p].pc) && InSection(t.procs[q].pc) && (p < q || q < p);
    }
  }

  /** The file at the lock path is not one still being written. */
  lemma LockContentStays(c: Codec, s: State, a: Action)
    requires FileInv(c, s) && !a.Tick? && a.p < |s.procs| && s.lock.Some?
    ensures Content(Step(c, s, a), s.lock.value) == Content(s, s.lock.value)
  {
    assert FileOk(c, s, a.p);
    hide UntilOf, HolderOf, Text;
  }

  /** A rename over a live lock, or a namesake's waiting, opens the way for an intruder. */
  lemma BadStepExposes(c: Codec, s: State, a: Action)
    requires FileInv(c, s) && ((Renames(s, a) && !Vacant(s)) || NamesakeWaits(s, a))
    ensures Intruding(Step(c, s, a))
  {
    StepMoves(c, s, a);
    var t, p := Step(c, s, a), a.p;
    assert FileOk(c, s, p);
    RecordRoundTrip(c, s.procs[p].holder, s.procs[p].until);
    if NamesakeWaits(s, a) {
      var q :| 0 <= q < |s.procs| && q != p && s.procs[q].pc == Confirming && s.procs[q].holder == s.procs[p].holder;
      hide HolderOf, Text;
      assert Passes(t, q) && InSection(t.procs[p].pc);
    } else {
      var q :| 0 <= q < |s.procs| && InSection(s.procs[q].pc);
      hide HolderOf, Text;
      assert Passes(t, p) && InSection(t.procs[q].pc);
    }
  }

  lemma OnlyBadStepsExpose(c: Codec, s: State, a: Action)
    requires FileInv(c, s) && Guarded(s) && !Intruding(s) && Intruding(Step(c, s, a))
    ensures (Renames(s, a) && !Vacant(s)) || NamesakeWaits(s, a)
  {
    if !a.Tick? && a.p < |s.procs| {
      StepMoves(c, s, a);
      if s.lock.Some? { LockContentStays(c, s, a); }
      hide Step, Content, HolderOf, FileInv, Exclusive;
      if Renames(s, a) { RenameExposes(s, Step(c, s, a), a); }
      else if Enters(s, a) { EntryExposes(c, s, a); }
      else { OtherwiseStill(s, Step(c, s, a), a); }
    } else {
      NobodyMoves(c, s, a);
    }
  }

  lemma NobodyMoves(c: Codec, s: State, a: Action)
    requires a.Tick? || a.p >= |s.procs|
    ensures Intruding(Step(c, s, a)) <==> Intruding(s)
  {
    var t := Step(c, s, a);
    assert forall q :: 0 <= q < |s.procs| ==> Passes(t, q) == Passes(s, q);
  }

  lemma RenameExposes(s: State, t: State, a: Action)
    requires !a.Tick? && a.p < |s.procs| && Touches(s, t, a.p) && Renames(s, a) && !Vacant(t)
    requires InSection(t.procs[a.p].pc) ==> InSection(s.procs[a.p].pc) || Enters(s, a)
    ensures !Vacant(s)
  {
    hide Content, HolderOf;
    var r :| 0 <= r < |t.procs| && InSection(t.procs[r].pc);
    assert r != a.p && InSection(s.procs[r].pc);
  }

  lemma EntryExposes(c: Codec, s: State, a: Action)
    requires FileInv(c, s) && Enters(s, a) && Intruding(Step(c, s, a))
    ensures NamesakeWaits(s, a)
  {
    EntryShowsName(c, s, a);
    StepMoves(c, s, a);
    hide Step, Content, HolderOf, FileInv, Enters;
    var t := Step(c, s, a);
    var q :| 0 <= q < |t.procs| && Passes(t, q);
    assert q != a.p && s.procs[q].pc == Confirming;
  }

  /** Any other step leaves intruders as they were. */
  lemma OtherwiseStill(s: State, t: State, a: Action)
    requires !a.Tick? && a.p < |s.procs| && Touches(s, t, a.p) && !Renames(s, a) && !Enters(s, a)
    requires Guarded(s) && Intruding(t)
    requires s.lock.Some? ==> Content(t, s.lock.value) == Content(s, s.lock.value)
    requires (t.lock.None? || t.lock == s.lock) && t.procs[a.p].holder == s.procs[a.p].holder
    requires InSection(t.procs[a.p].pc) ==> InSection(s.procs[a.p].pc) || Enters(s, a)
    requires t.procs[a.p].pc == Confirming ==> s.procs[a.p].pc == Confirming || Renames(s, a)
    ensures Intruding(s)
  {
    hide Content, HolderOf, Exclusive, Enters, Renames;
    var q :| 0 <= q < |t.procs| && Passes(t, q);
    var r :| 0 <= r < |t.procs| && InSection(t.procs[r].pc);
    assert InSection(s.procs[r].pc) && Passes(s, q);
  }

  /** Whoever gets in leaves its own name at the lock path. */
  lemma EntryShowsName(c: Codec, s: State, a: Action)
    requires FileInv(c, s) && Enters(s, a)
    ensures var t := Step(c, s, a); t.lock.Some? && HolderOf(Content(t, t.lock.value)) == s.procs[a.p].holder
    ensures s.lock.Some? ==> Step(c, s, a).lock == s.lock
  {
    assert FileOk(c, s, a.p);
    RecordRoundTrip(c, s.procs[a.p].holder, s.procs[a.p].until);
    hide HolderOf, Text;
  }

  lemma InitialFiles(c: Codec, s: State)
    requires Initial(s)
    ensures Inv(c, s) && Guarded(s) && !Intruding(s)
  {
  }

  ghost predicate Unexposed(c: Codec, s: State) {
    FileInv(c, s) && Guarded(s) && !Intruding(s)
  }

  lemma StepExposesExactly(c: Codec, s: State, a: Action)
    requires Unexposed(c, s) && (a.Begin? ==> Prints(c, a.until))
    ensures var t := Step(c, s, a);
            && FileInv(c, t) && Guarded(t)
            && (Unexposed(c, t) <==> (Renames(s, a) ==> Vacant(s)) && !NamesakeWaits(s, a))
  {
    hide Step, FileInv, Guarded, Intruding, NamesakeWaits, Renames, Vacant;
    StepKeepsFiles(c, s, a);
    GuardStays(c, s, a);
    if Intruding(Step(c, s, a)) { OnlyBadStepsExpose(c, s, a); }
    if (Renames(s, a) && !Vacant(s)) || NamesakeWaits(s, a) { BadStepExposes(c, s, a); }
  }

  /** No live lock is renamed over, and nobody gets in while a namesake waits to read back. */
  ghost predicate Undisturbed(c: Codec, s: State, run: seq<Action>) {
    NoLiveSteal(c, s, run) && NoNamesakeWaits(c, s, run)
  }

  lemma UndisturbedNext(c: Codec, s: State, run: seq<Action>)
    requires run != []
    ensures var front, last := run[..|run| - 1], run[|run| - 1];
            Undisturbed(c, s, run)
            <==> Undisturbed(c, s, front) && (Renames(Exec(c, s, front), last) ==> Vacant(Exec(c, s, front)))
                 && !NamesakeWaits(Exec(c, s, front), last)
  {
    hide Exec, Renames, Vacant, NamesakeWaits;
    var front, last := run[..|run| - 1], run[|run| - 1];
    assert forall k :: 0 <= k < |front| ==> front[..k] == run[..k] && front[k] == run[k];
    assert run[..|front|] == front;
    if Undisturbed(c, s, run) {
      forall k | 0 <= k < |front|
        ensures (Renames(Exec(c, s, front[..k]), front[k]) ==> Vacant(Exec(c, s, front[..k])))
        ensures !NamesakeWaits(Exec(c, s, front[..k]), front[k])
      {
        assert (Renames(Exec(c, s, run[..k]), run[k]) ==> Vacant(Exec(c, s, run[..k])));
        assert !NamesakeWaits(Exec(c, s, run[..k]), run[k]);
      }
    }
    if Undisturbed(c, s, front) && (Renames(Exec(c, s, front), last) ==> Vacant(Exec(c, s, front)))
       && !NamesakeWaits(Exec(c, s, front), last) {
      forall k | 0 <= k < |run|
        ensures (Renames(Exec(c, s, run[..k]), run[k]) ==> Vacant(Exec(c, s, run[..k])))
        ensures !NamesakeWaits(Exec(c, s, run[..k]), run[k])
      {
        if k < |front| {
          assert (Renames(Exec(c, s, front[..k]), front[k]) ==> Vacant(Exec(c, s, front[..k])));
          assert !NamesakeWaits(Exec(c, s, front[..k]), front[k]);
        }
      }
    }
  }

  lemma {:induction false} ExecUnexposed(c: Codec, s: State, run: seq<Action>)
    requires Initial(s) && PrintsAll(c, run) && Undisturbed(c, s, run)
    ensures Unexposed(c, Exec(c, s, run))
  {
    if run == [] {
      InitialFiles(c, s);
    } else {
      var front, last := run[..|run| - 1], run[|run| - 1];
      assert Exec(c, s, run) == Step(c, Exec(c, s, front), last);
      assert PrintsAll(c, front) && (last.Begin? ==> Prints(c, last.until));
      hide Exec, Step, Undisturbed, Unexposed, Initial, PrintsAll, Renames, Vacant, NamesakeWaits;
      UndisturbedNext(c, s, run);
      ExecUnexposed(c, s, front);
      StepExposesExactly(c, Exec(c, s, front), last);
    }
  }

  lemma SafePrefix(c: Codec, s: State, run: seq<Action>, n: nat)
    requires SafeWhateverComesNext(c, s, run) && n <= |run|
    ensures SafeWhateverComesNext(c, s, run[..n])
    ensures forall p: nat :: Exclusive(Step(c, Exec(c, s, run[..n]), Go(p)))
  {
    hide Exec, Exclusive, Step;
    assert forall k :: 0 <= k <= n ==> run[..n][..k] == run[..k];
    forall p: nat ensures Exclusive(Step(c, Exec(c, s, run[..n]), Go(p))) {
      assert Exclusive(Exec(c, s, run[..n] + [Go(p)]));
      ExecNext(c, s, run[..n], Go(p));
    }
  }

  lemma {:induction false} SafeIsUndisturbed(c: Codec, s: State, run: seq<Action>)
    requires Initial(s) && PrintsAll(c, run) && SafeWhateverComesNext(c, s, run)
    ensures Undisturbed(c, s, run)
  {
    if run != [] {
      var front, last := run[..|run| - 1], run[|run| - 1];
      assert Exec(c, s, run) == Step(c, Exec(c, s, front), last) && run[..|run|] == run;
      assert PrintsAll(c, front) && (last.Begin? ==> Prints(c, last.until));
      hide Exec, Step, Undisturbed, Initial, PrintsAll;
      hide Renames, Vacant, NamesakeWaits, SafeWhateverComesNext, Exclusive;
      hide Guarded, Intruding, FileInv;
      SafePrefix(c, s, run, |front|);
      SafeIsUndisturbed(c, s, front);
      ExecUnexposed(c, s, front);
      StepExposesExactly(c, Exec(c, s, front), last);
      SafePrefix(c, s, run, |run|);
      NextIsSafeExactly(c, Exec(c, s, run));
      UndisturbedNext(c, s, run);
    }
  }

  lemma UndisturbedPrefix(c: Codec, s: State, run: seq<Action>, n: nat)
    requires Undisturbed(c, s, run) && PrintsAll(c, run) && n <= |run|
    ensures Undisturbed(c, s, run[..n]) && PrintsAll(c, run[..n])
  {
    hide Exec, Vacant, Renames, NamesakeWaits;
    var part := run[..n];
    assert forall m :: 0 <= m < n ==> part[..m] == run[..m] && part[m] == run[m];
  }

  /**
   Over whole runs, whether or not processes share a name: nobody can ever be brought into the
   section beside another, whoever calls next at whatever point, if and only if no live lock is
   renamed over and nobody gets in while a namesake is between its rename and its read-back.
   */
  lemma SafeExactlyWhenUndisturbed(c: Codec, s: State, run: seq<Action>)
    requires Initial(s) && PrintsAll(c, run)
    ensures SafeWhateverComesNext(c, s, run) <==> NoLiveSteal(c, s, run) && NoNamesakeWaits(c, s, run)
  {
    if SafeWhateverComesNext(c, s, run) { SafeIsUndisturbed(c, s, run); }
    if Undisturbed(c, s, run) {
      hide Step, Undisturbed, Guarded, Intruding, FileInv, Exclusive;
      forall k, p: nat | 0 <= k <= |run| ensures Exclusive(Exec(c, s, run[..k] + [Go(p)])) {
        UndisturbedPrefix(c, s, run, k);
        ExecUnexposed(c, s, run[..k]);
        ExecNext(c, s, run[..k], Go(p));
        NextIsSafeExactly(c, Exec(c, s, run[..k]));
      }
    }
  }

  /** With different names nobody has a namesake to wait for: renames over live locks are all that matters. */
  lemma SafeExactlyWithoutLiveSteal(c: Codec, s: State, run: seq<Action>)
    requires Initial(s) && PrintsAll(c, run) && DistinctHolders(s)
    ensures SafeWhateverComesNext(c, s, run) <==> NoLiveSteal(c, s, run)
  {
    SafeExactlyWhenUndisturbed(c, s, run);
    forall k | 0 <= k < |run| ensures !NamesakeWaits(Exec(c, s, run[..k]), run[k]) {
      ExecKeepsNames(c, s, run[..k]);
      NamesDiffer(Exec(c, s, run[..k]), run[k]);
    }
  }

  lemma NamesDiffer(s: State, a: Action)
    requires DistinctHolders(s)
    ensures !NamesakeWaits(s, a)
  {
    hide Passes;
  }

  // ----- both conditions are needed -----

  function Crowd(first: string, second: string): State {
    State(0.0, None, map[], [Proc(Idle, "x", 0, 0.0, 0.0, None), Proc(Idle, first, 0, 0.0, 0.0, None),
                             Proc(Idle, second, 0, 0.0, 0.0, None)])
  }

  lemma CrowdIsInitial(first: string, second: string)
    requires '\n' !in first && '\n' !in second
    ensures Initial(Crowd(first, second))
    ensures first != second && first != "x" && second != "x" ==> DistinctHolders(Crowd(first, second))
  {
  }

  /** Process 0 takes a lease to time 4 and dies. */
  function Owning(c: Codec): seq<Action> {
    [Begin(0, 4.0, 0.0), WriteSome(0, |Text(c, "x", 4.0)|), Go(0), Crash(0)]
  }

  /** Process p arrives at time 5, finds the lock taken and expired, and is about to rename over it. */
  function Arriving(c: Codec, p: nat, name: string): seq<Action> {
    [Begin(p, 9.0, 5.0), WriteSome(p, |Text(c, name, 9.0)|), Go(p), Go(p)]
  }

  function Race(c: Codec, first: string, second: string): seq<Action> {
    ((Owning(c) + [Tick(5.0)]) + Arriving(c, 1, first)) + Arriving(c, 2, second)
  }

  lemma {:induction false} ExecAppend(c: Codec, s: State, run: seq<Action>, tail: seq<Action>)
    ensures Exec(c, s, run + tail) == Exec(c, Exec(c, s, run), tail)
  {
    hide Step;
    if tail == [] {
      assert run + tail == run;
    } else {
      var all := run + tail;
      assert all[..|all| - 1] == run + tail[..|tail| - 1];
      ExecAppend(c, s, run, tail[..|tail| - 1]);
    }
  }

  lemma Exec4(c: Codec, s: State, run: seq<Action>)
    requires |run| == 4
    ensures Exec(c, s, run) == Step(c, Step(c, Step(c, Step(c, s, run[0]), run[1]), run[2]), run[3])
  {
    hide Step;
    assert run[..3][..2][..1][..0] == [];
    assert run[..3][..2] == run[..2] && run[..2][..1] == run[..1] && run[..1] == [run[0]];
    assert Exec(c, s, run[..1]) == Step(c, s, run[0]);
    assert Exec(c, s, run[..2]) == Step(c, Exec(c, s, run[..1]), run[1]);
    assert Exec(c, s, run[..3]) == Step(c, Exec(c, s, run[..2]), run[2]);
  }

  /** A record written to its writer's own temporary file. */
  lemma Writes(c: Codec, s: State, p: nat, name: string, until: real, now: real)
    requires p < |s.procs| && s.procs[p] == Proc(Idle, name, 0, 0.0, 0.0, None) && now <= s.clock
    ensures Step(c, Step(c, s, Begin(p, until, now)), WriteSome(p, |Text(c, name, until)|)) ==
            s.(files := s.files[Inode(p, 1, until) := Text(c, name, until)],
               procs := s.procs[p := Proc(Linking, name, 1, until, now, None)])
  {
    hide Text;
    var text := Text(c, name, until);
    var s1 := Step(c, s, Begin(p, until, now));
    assert s1.procs[p] == Proc(Writing, name, 1, until, now, None) && Content(s1, Temp(s1, p)) == "";
    var s2 := Step(c, s1, WriteSome(p, |text|));
    assert s2.files == s.files[Inode(p, 1, until) := text];
    assert s2.procs == s.procs[p := Proc(Linking, name, 1, until, now, None)];
  }

  lemma LinksAndDies(c: Codec, s: State, name: string, until: real, now: real)
    requires |s.procs| > 0 && s.procs[0] == Proc(Linking, name, 1, until, now, None) && s.lock.None?
    ensures Step(c, Step(c, s, Go(0)), Crash(0)) ==
            s.(lock := Some(Inode(0, 1, until)), procs := s.procs[0 := Proc(Dead, name, 1, until, now, None)])
  {
    var s1 := Step(c, s, Go(0));
    assert s1.procs[0] == Proc(Tidying, name, 1, until, now, None);
  }

  lemma DeadOwner(c: Codec, s: State)
    requires |s.procs| > 0 && s.procs[0] == Proc(Idle, "x", 0, 0.0, 0.0, None) && s.lock.None? && s.clock == 0.0
    ensures Exec(c, s, Owning(c)) ==
            State(0.0, Some(Inode(0, 1, 4.0)), s.files[Inode(0, 1, 4.0) := Text(c, "x", 4.0)],
                  s.procs[0 := Proc(Dead, "x", 1, 4.0, 0.0, None)])
  {
    Exec4(c, s, Owning(c));
    hide Exec, Step, Text;
    Writes(c, s, 0, "x", 4.0, 0.0);
    var s2 := s.(files := s.files[Inode(0, 1, 4.0) := Text(c, "x", 4.0)],
                 procs := s.procs[0 := Proc(Linking, "x", 1, 4.0, 0.0, None)]);
    LinksAndDies(c, s2, "x", 4.0, 0.0);
  }

  lemma StealerReads(c: Codec, s: State, p: nat, name: string)
    requires p < |s.procs| && s.procs[p] == Proc(Linking, name, 1, 9.0, 5.0, None)
    requires s.lock == Some(Inode(0, 1, 4.0)) && Content(s, Inode(0, 1, 4.0)) == Text(c, "x", 4.0) && Prints(c, 4.0)
    ensures Step(c, Step(c, s, Go(p)), Go(p)) ==
            s.(procs := s.procs[p := Proc(Replacing, name, 1, 9.0, 5.0, s.lock)])
  {
    RecordRoundTrip(c, "x", 4.0);
    hide UntilOf, Text;
    var s1 := Step(c, s, Go(p));
    assert s1 == s.(procs := s.procs[p := Proc(Inspecting, name, 1, 9.0, 5.0, None)]);
  }

  lemma Stealer(c: Codec, s: State, p: nat, name: string)
    requires p < |s.procs| && s.procs[p] == Proc(Idle, name, 0, 0.0, 0.0, None) && s.clock == 5.0 && Prints(c, 4.0)
    requires s.lock == Some(Inode(0, 1, 4.0)) && Inode(0, 1, 4.0) in s.files && p != 0
    requires s.files[Inode(0, 1, 4.0)] == Text(c, "x", 4.0)
    ensures Exec(c, s, Arriving(c, p, name)) ==
            s.(files := s.files[Inode(p, 1, 9.0) := Text(c, name, 9.0)],
               procs := s.procs[p := Proc(Replacing, name, 1, 9.0, 5.0, s.lock)])
  {
    Exec4(c, s, Arriving(c, p, name));
    hide Exec, Step, Text;
    Writes(c, s, p, name, 9.0, 5.0);
    var s2 := s.(files := s.files[Inode(p, 1, 9.0) := Text(c, name, 9.0)],
                 procs := s.procs[p := Proc(Linking, name, 1, 9.0, 5.0, None)]);
    StealerReads(c, s2, p, name);
    assert s2.procs[p := s.procs[p]] == s.procs;
  }

  /** Where the race leads: a dead owner, and two processes about to rename. */
  function Brink(c: Codec, first: string, second: string): State {
    var dead := Inode(0, 1, 4.0);
    State(5.0, Some(dead),
          map[dead := Text(c, "x", 4.0), Inode(1, 1, 9.0) := Text(c, first, 9.0),
              Inode(2, 1, 9.0) := Text(c, second, 9.0)],
          [Proc(Dead, "x", 1, 4.0, 0.0, None), Proc(Replacing, first, 1, 9.0, 5.0, Some(dead)),
           Proc(Replacing, second, 1, 9.0, 5.0, Some(dead))])
  }

  lemma ClockMoves(c: Codec, s: State)
    requires s.clock == 0.0
    ensures Step(c, s, Tick(5.0)) == s.(clock := 5.0)
  {
  }

  lemma RaceReached(c: Codec, first: string, second: string)
    requires Prints(c, 4.0)
    ensures Exec(c, Crowd(first, second), Race(c, first, second)) == Brink(c, first, second)
  {
    hide Exec, Step, Text, Owning, Arriving, Prints;
    var s := Crowd(first, second);
    ExecAppend(c, s, (Owning(c) + [Tick(5.0)]) + Arriving(c, 1, first), Arriving(c, 2, second));
    ExecAppend(c, s, Owning(c) + [Tick(5.0)], Arriving(c, 1, first));
    ExecNext(c, s, Owning(c), Tick(5.0));
    DeadOwner(c, s);
    ClockMoves(c, Exec(c, s, Owning(c)));
    var s1 := Exec(c, s, Owning(c) + [Tick(5.0)]);
    Stealer(c, s1, 1, first);
    var s2 := Exec(c, s1, Arriving(c, 1, first));
    Stealer(c, s2, 2, second);
  }

  /** The two renames and read-backs, in turn. */
  lemma BothConfirm(c: Codec, first: string, second: string)
    requires Prints(c, 9.0) && '\n' !in first && '\n' !in second
    ensures var s := Brink(c, first, second);
            var u := Step(c, Step(c, s, Go(1)), Go(1));
            var t := Step(c, Step(c, u, Go(2)), Go(2));
            && Renames(u, Go(2)) && !OnInspected(u, Go(2)) && !Exclusive(t)
  {
    RecordRoundTrip(c, first, 9.0);
    RecordRoundTrip(c, second, 9.0);
    hide Text, HolderOf;
    var s := Brink(c, first, second);
    var s1 := Step(c, s, Go(1));
    var u := Step(c, s1, Go(1));
    assert u.procs == s.procs[1 := s.procs[1].(pc := Tidying)] && u.lock == Some(Inode(1, 1, 9.0));
    var u1 := Step(c, u, Go(2));
    assert u1.procs == u.procs[2 := u.procs[2].(pc := Confirming)] && u1.lock == Some(Inode(2, 1, 9.0))
           && u1.files == s.files;
    var t := Step(c, u1, Go(2));
    assert t.procs == u1.procs[2 := u1.procs[2].(pc := Tidying)];
    assert t.procs[1].pc == Tidying && t.procs[2].pc == Tidying;
  }

  /** Renamed over each other and then read back, files of one name look alike. */
  lemma BothReadTheirName(c: Codec, name: string)
    requires Prints(c, 9.0) && '\n' !in name
    ensures var s := Brink(c, name, name);
            var t := Step(c, Step(c, Step(c, Step(c, s, Go(1)), Go(2)), Go(1)), Go(2));
            && Vacant(s) && Vacant(Step(c, s, Go(1))) && !Exclusive(t)
            && NamesakeWaits(Step(c, Step(c, s, Go(1)), Go(2)), Go(1))
  {
    RecordRoundTrip(c, name, 9.0);
    hide Text, HolderOf;
    var s := Brink(c, name, name);
    var s1 := Step(c, s, Go(1));
    var s2 := Step(c, s1, Go(2));
    assert s2.lock == Some(Inode(2, 1, 9.0));
    assert s2.procs == s.procs[1 := s.procs[1].(pc := Confirming)][2 := s.procs[2].(pc := Confirming)];
    assert Passes(s2, 1) && s2.procs[2].pc == Confirming;
    var s3 := Step(c, s2, Go(1));
    assert s3.procs == s2.procs[1 := s2.procs[1].(pc := Tidying)];
    var t := Step(c, s3, Go(2));
    assert t.procs[1].pc == Tidying && t.procs[2].pc == Tidying;
  }

  // ----- no lease runs out in the race -----

  /** Time stands still and every deadline asked for is ahead. */
  predicate Paced(run: seq<Action>, now: real) {
    forall k :: 0 <= k < |run| ==> !run[k].Tick? && (run[k].Begin? ==> now < run[k].until)
  }

  ghost predicate Ahead(s: State) {
    forall p :: 0 <= p < |s.procs| && s.procs[p].pc != Idle && s.procs[p].pc != Dead ==> s.clock < s.procs[p].until
  }

  lemma StepStaysAhead(c: Codec, s: State, a: Action)
    requires Ahead(s) && !a.Tick? && (a.Begin? ==> s.clock < a.until)
    ensures Ahead(Step(c, s, a)) && Step(c, s, a).clock == s.clock
  {
    StepKeepsShape(c, s, a);
    if a.Go? && a.p < |s.procs| { AdvanceKeepsUntil(c, s, a.p); }
    hide Advance, Text, Content;
  }

  lemma AdvanceKeepsUntil(c: Codec, s: State, p: nat)
    requires p < |s.procs|
    ensures var t := Advance(c, s, p);
            && |t.procs| == |s.procs| && t.procs[p].until == s.procs[p].until
            && (s.procs[p].pc == Idle ==> t.procs[p].pc == Idle)
            && (s.procs[p].pc == Dead ==> t.procs[p].pc == Dead)
  {
    hide UntilOf, HolderOf, Content;
  }

  lemma {:induction false} PacedIsTimely(c: Codec, s: State, run: seq<Action>)
    requires Ahead(s) && Paced(run, s.clock)
    ensures AlwaysTimely(c, s, run) && Ahead(Exec(c, s, run)) && Exec(c, s, run).clock == s.clock
  {
    if run != [] {
      hide Step;
      var front := run[..|run| - 1];
      assert forall k :: 0 <= k <= |front| ==> front[..k] == run[..k];
      assert run[..|run|] == run;
      PacedIsTimely(c, s, front);
      StepStaysAhead(c, Exec(c, s, front), run[|run| - 1]);
      forall k | 0 <= k <= |run| ensures Timely(Exec(c, s, run[..k])) {
        if k < |run| { assert Timely(Exec(c, s, front[..k])); }
      }
    }
  }

  lemma TimelyAppend(c: Codec, s: State, run: seq<Action>, tail: seq<Action>)
    requires AlwaysTimely(c, s, run) && AlwaysTimely(c, Exec(c, s, run), tail)
    ensures AlwaysTimely(c, s, run + tail)
  {
    hide Exec, Timely;
    forall k | 0 <= k <= |run + tail| ensures Timely(Exec(c, s, (run + tail)[..k])) {
      if k <= |run| {
        assert (run + tail)[..k] == run[..k];
      } else {
        assert (run + tail)[..k] == run + tail[..k - |run|];
        ExecAppend(c, s, run, tail[..k - |run|]);
      }
    }
  }

  lemma StaysTimely(c: Codec, s: State, run: seq<Action>, tail: seq<Action>)
    requires AlwaysTimely(c, s, run) && Ahead(Exec(c, s, run)) && Paced(tail, Exec(c, s, run).clock)
    ensures AlwaysTimely(c, s, run + tail) && Ahead(Exec(c, s, run + tail))
    ensures Exec(c, s, run + tail).clock == Exec(c, s, run).clock
  {
    hide Exec, AlwaysTimely, Ahead, Paced;
    PacedIsTimely(c, Exec(c, s, run), tail);
    TimelyAppend(c, s, run, tail);
    ExecAppend(c, s, run, tail);
  }

  /** The owner's lease runs out only after the owner is dead. */
  lemma OwningIsTimely(c: Codec, first: string, second: string)
    ensures var s, run := Crowd(first, second), Owning(c) + [Tick(5.0)];
            AlwaysTimely(c, s, run) && Ahead(Exec(c, s, run)) && Exec(c, s, run).clock == 5.0
  {
    hide Exec, Step, Text;
    var s := Crowd(first, second);
    DeadOwner(c, s);
    PacedIsTimely(c, s, Owning(c));
    var u := Exec(c, s, Owning(c));
    ExecNext(c, s, Owning(c), Tick(5.0));
    ClockMoves(c, u);
    TickIsTimely(c, u);
    TimelyAppend(c, s, Owning(c), [Tick(5.0)]);
  }

  lemma TickIsTimely(c: Codec, u: State)
    requires forall p :: 0 <= p < |u.procs| ==> u.procs[p].pc == Dead || u.procs[p].pc == Idle
    ensures AlwaysTimely(c, u, [Tick(5.0)])
  {
    assert [Tick(5.0)][..0] == [] && [Tick(5.0)][..1] == [Tick(5.0)];
    assert Exec(c, u, [Tick(5.0)]) == Step(c, u, Tick(5.0));
  }

  lemma RaceIsTimely(c: Codec, first: string, second: string)
    ensures AlwaysTimely(c, Crowd(first, second), (Race(c, first, second) + [Go(1), Go(1)]) + [Go(2), Go(2)])
  {
    var s, run := Crowd(first, second), Owning(c) + [Tick(5.0)];
    assert Paced(Arriving(c, 1, first), 5.0) && Paced(Arriving(c, 2, second), 5.0);
    assert Paced([Go(1), Go(1)], 5.0) && Paced([Go(2), Go(2)], 5.0);
    OwningIsTimely(c, first, second);
    hide Exec, AlwaysTimely, Ahead, Paced, Crowd, Owning, Arriving;
    StaysTimely(c, s, run, Arriving(c, 1, first));
    StaysTimely(c, s, run + Arriving(c, 1, first), Arriving(c, 2, second));
    StaysTimely(c, s, Race(c, first, second), [Go(1), Go(1)]);
    StaysTimely(c, s, Race(c, first, second) + [Go(1), Go(1)], [Go(2), Go(2)]);
  }

  /**
   Two stealers that take turns both get the lock, though their names differ and no lease ever
   runs out on its owner: the second renames over a file that is not the one it read as expired.
   */
  lemma TwoStealersBothWin(c: Codec)
    requires Prints(c, 4.0) && Prints(c, 9.0)
    ensures Initial(Crowd("a", "b")) && DistinctHolders(Crowd("a", "b"))
    ensures var run := Race(c, "a", "b") + [Go(1), Go(1)];
            var u := Exec(c, Crowd("a", "b"), run);
            var t := Exec(c, Crowd("a", "b"), run + [Go(2), Go(2)]);
            && AlwaysTimely(c, Crowd("a", "b"), run + [Go(2), Go(2)])
            && Renames(u, Go(2)) && !OnInspected(u, Go(2)) && !Exclusive(t)
  {
    CrowdIsInitial("a", "b");
    hide Step, Race, Exec, Brink, Renames, OnInspected;
    hide Timely, AlwaysTimely, Exclusive, Crowd, Initial, DistinctHolders;
    RaceReached(c, "a", "b");
    RaceIsTimely(c, "a", "b");
    BothConfirm(c, "a", "b");
    ExecTwo(c, Crowd("a", "b"), Race(c, "a", "b"), Go(1), Go(1));
    ExecTwo(c, Crowd("a", "b"), Race(c, "a", "b") + [Go(1), Go(1)], Go(2), Go(2));
  }

  lemma ExecTwo(c: Codec, s: State, run: seq<Action>, a: Action, b: Action)
    ensures Exec(c, s, run + [a, b]) == Step(c, Step(c, Exec(c, s, run), a), b)
  {
    hide Step;
    ExecNext(c, s, run, a);
    ExecNext(c, s, run + [a], b);
    assert run + [a, b] == (run + [a]) + [b];
  }

  /**
   Two stealers of the same name both get the lock although nobody was in the section at
   either rename: the first gets in while the second waits to read back, and the read-back
   cannot tell them apart.
   */
  lemma SharedNameFoolsReadBack(c: Codec)
    requires Prints(c, 4.0) && Prints(c, 9.0)
    ensures var s, race := Crowd("a", "a"), Race(c, "a", "a");
            && Initial(s)
            && Vacant(Exec(c, s, race)) && Vacant(Exec(c, s, race + [Go(1)]))
            && NamesakeWaits(Exec(c, s, race + [Go(1), Go(2)]), Go(1))
            && !Exclusive(Exec(c, s, (race + [Go(1), Go(2)]) + [Go(1), Go(2)]))
  {
    CrowdIsInitial("a", "a");
    hide Step, Race, Exec, Brink, Vacant, Exclusive, Crowd, Initial, NamesakeWaits;
    RaceReached(c, "a", "a");
    BothReadTheirName(c, "a");
    ExecNext(c, Crowd("a", "a"), Race(c, "a", "a"), Go(1));
    ExecTwo(c, Crowd("a", "a"), Race(c, "a", "a"), Go(1), Go(2));
    ExecTwo(c, Crowd("a", "a"), Race(c, "a", "a") + [Go(1), Go(2)], Go(1), Go(2));
  }

  /** Such deadlines exist: under decimal whole seconds both runs are runs. */
  lemma WholeSecondsRace()
    ensures Prints(WHOLE, 4.0) && Prints(WHOLE, 9.0)
    ensures !Exclusive(Exec(WHOLE, Crowd("a", "b"), (Race(WHOLE, "a", "b") + [Go(1), Go(1)]) + [Go(2), Go(2)]))
  {
    WholeDeadlinesPrint(4);
    WholeDeadlinesPrint(9);
    hide Exec, Exclusive, Race;
    TwoStealersBothWin(WHOLE);
  }
}
