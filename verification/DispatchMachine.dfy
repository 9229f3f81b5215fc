/**
 Any number of dispatchers and retries over one ledger, one store or handler call at a time,
 with subscriptions coming and going.  `log` only remembers the handler calls that completed,
 `lost` those whose worker died before storing their row, and `erased` the delivered rows over
 which a failure was stored.
 */
module DispatchMachine {
  import opened Wrappers
  import opened Deliveries
  import opened Dict
  import Backoff
  import Leases
  import LedgerSpec

  datatype Claim = Claim(holder: string, now: real, until: real)

  /** Where a worker is in `_attempt`. */
  datatype Phase =
    | FastPath | Timing | Locking(now: real)
    | Rechecking(c: Claim) | Delivering(c: Claim, attempts: nat) | Storing(c: Claim, row: Delivery)
    | Unlocking(c: Claim)

  datatype Worker =
    | Listing(event: Event)                                               // dispatch
    | Loading(key: RowKey)                                                // attempt_pending: the event
    | LoadingSub(event: Event, subId: string)                             // attempt_pending: the subscription
    | Working(event: Event, todo: seq<Subscription>, phase: Phase)        // _attempt on todo[0]
    | Stopped

  datatype Completed = Completed(key: RowKey, ok: bool)

  datatype State = State(clock: real, events: map<(string, string), Event>, subs: Dict<string, Subscription>,
                         rows: map<RowKey, Delivery>, leases: Leases.Table<string>,
                         log: seq<Completed>, lost: seq<Completed>, erased: seq<RowKey>, workers: seq<Worker>)

  datatype Action =
    | Tick(to: real)
    | Record(event: Event) | AddSub(sub: Subscription) | DropSub(id: string)
    | StartDispatch(event: Event) | StartRetry(key: RowKey)
    | Go(w: nat, holder: string, error: Option<string>)   // next call of worker w, with the name or outcome it gets
    | Crash(w: nat)

  datatype Params = Params(policy: Backoff.Policy, leaseTtl: real)

  const NOWHERE := RowKey("", "", "")

  /** The row a worker is working on. */
  function Target(w: Worker): RowKey {
    if w.Working? && w.todo != [] then KeyOf(w.event, w.todo[0]) else NOWHERE
  }

  predicate InSection(w: Worker) {
    && w.Working? && w.todo != []
    && (w.phase.Rechecking? || w.phase.Delivering? || w.phase.Storing? || w.phase.Unlocking?)
  }

  function Next(event: Event, todo: seq<Subscription>): Worker {
    if todo == [] then Stopped else Working(event, todo, FastPath)
  }

  /** Is the lease on the worker's row granted to it now? */
  predicate Granted(p: Params, s: State, w: Worker, holder: string) {
    w.Working? && w.phase.Locking? &&
    Leases.Acquire(s.leases, LeaseKey(Target(w)), holder, w.phase.now + p.leaseTtl, w.phase.now).1
  }

  function WorkerAfter(p: Params, s: State, w: Worker, holder: string, error: Option<string>): Worker {
    match w
    case Listing(event) =>
      Next(event, Select(s.subs, (sub: Subscription) => LedgerSpec.Matches(event.org, event.kind, sub)))
    case Loading(k) =>
      if (k.source, k.eventId) in s.events then LoadingSub(s.events[(k.source, k.eventId)], k.subId) else Stopped
    case LoadingSub(event, subId) =>
      if subId in s.subs.data then Next(event, [s.subs.data[subId]]) else Stopped
    case Stopped => Stopped
    case Working(event, todo, phase) =>
      if todo == [] then Stopped
      else
        var k := Target(w);
        match phase
        case FastPath => if IsDelivered(s.rows, k) then Next(event, todo[1..]) else w.(phase := Timing)
        case Timing => w.(phase := Locking(s.clock))
        case Locking(now) =>
          if Granted(p, s, w, holder) then w.(phase := Rechecking(Claim(holder, now, now + p.leaseTtl)))
          else Next(event, todo[1..])
        case Rechecking(c) =>
          w.(phase := if IsDelivered(s.rows, k) then Unlocking(c) else Delivering(c, AttemptsOf(s.rows, k) + 1))
        case Delivering(c, attempts) =>
          if attempts == 0 then w else w.(phase := Storing(c, RowAfter(p.policy, k, attempts, error, c.now)))
        case Storing(c, _) => w.(phase := Unlocking(c))
        case Unlocking(_) => Next(event, todo[1..])
  }

  function LeasesAfter(p: Params, s: State, w: Worker, holder: string): Leases.Table<string> {
    var lk := LeaseKey(Target(w));
    if w.Working? && w.todo != [] && w.phase.Locking? then
      Leases.Acquire(s.leases, lk, holder, w.phase.now + p.leaseTtl, w.phase.now).0
    else if w.Working? && w.todo != [] && w.phase.Unlocking? then Leases.Release(s.leases, lk, w.phase.c.holder)
    else s.leases
  }

  function RowsAfter(s: State, w: Worker): map<RowKey, Delivery> {
    if InSection(w) && w.phase.Storing? then s.rows[Target(w) := w.phase.row] else s.rows
  }

  function LogAfter(s: State, w: Worker, error: Option<string>): seq<Completed> {
    if InSection(w) && w.phase.Delivering? && w.phase.attempts > 0
    then s.log + [Completed(Target(w), error.None?)]
    else s.log
  }

  function ErasedAfter(s: State, w: Worker): seq<RowKey> {
    if InSection(w) && w.phase.Storing? && IsDelivered(s.rows, Target(w)) && w.phase.row.status != Delivered
    then s.erased + [Target(w)] else s.erased
  }

  function Act(p: Params, s: State, i: nat, holder: string, error: Option<string>): State
    requires i < |s.workers|
  {
    var w := s.workers[i];
    State(s.clock, s.events, s.subs, RowsAfter(s, w), LeasesAfter(p, s, w, holder), LogAfter(s, w, error), s.lost,
          ErasedAfter(s, w),
          s.workers[i := WorkerAfter(p, s, w, holder, error)])
  }

  /** A worker dies holding the outcome of a handler call, before storing its row. */
  predicate LosesOutcome(s: State, a: Action) {
    a.Crash? && a.w < |s.workers| && InSection(s.workers[a.w]) && s.workers[a.w].phase.Storing?
  }

  /** A worker may die anywhere; it then keeps its lease until that expires. */
  function Step(p: Params, s: State, a: Action): State {
    match a
    case Tick(to) => if to >= s.clock then s.(clock := to) else s
    case Record(event) =>
      if (event.source, event.id) in s.events then s
      else s.(events := s.events[(event.source, event.id) := event])
    case AddSub(sub) => s.(subs := Put(s.subs, sub.id, sub))
    case DropSub(id) => s.(subs := Remove(s.subs, id))
    case StartDispatch(event) => s.(workers := s.workers + [Listing(event)])
    case StartRetry(key) => s.(workers := s.workers + [Loading(key)])
    case Go(i, holder, error) => if i < |s.workers| then Act(p, s, i, holder, error) else s
    case Crash(i) =>
      if i >= |s.workers| then s
      else
        var w := s.workers[i];
        s.(workers := s.workers[i := Stopped],
           lost := if LosesOutcome(s, a)
                   then s.lost + [Completed(Target(w), w.phase.row.status == Delivered)]
                   else s.lost)
  }

  function Exec(p: Params, s: State, run: seq<Action>): State {
    if run == [] then s else Step(p, Exec(p, s, run[..|run| - 1]), run[|run| - 1])
  }

  // ----- what is proved -----

  ghost predicate Initial(s: State) {
    s.rows == map[] && s.log == [] && s.lost == [] && s.erased == [] && s.workers == []
  }

  /**
   Worker i asks for its lease with a clock reading at or past the deadline of another worker inside
   on that lease.
   */
  ghost predicate LateEntry(s: State, i: nat) {
    && i < |s.workers| && s.workers[i].Working? && s.workers[i].todo != [] && s.workers[i].phase.Locking?
    && exists j :: 0 <= j < |s.workers| && j != i && InSection(s.workers[j])
                   && LeaseKey(Target(s.workers[j])) == LeaseKey(Target(s.workers[i]))
                   && s.workers[j].phase.c.until <= s.workers[i].phase.now
  }

  ghost predicate NoLateEntry(p: Params, s: State, run: seq<Action>) {
    forall k :: 0 <= k < |run| && run[k].Go? ==> !LateEntry(Exec(p, s, run[..k]), run[k].w)
  }

  ghost predicate NoLostOutcome(p: Params, s: State, run: seq<Action>) {
    forall k :: 0 <= k < |run| ==> !LosesOutcome(Exec(p, s, run[..k]), run[k])
  }

  /** The step in which a handler call for this row succeeds. */
  predicate Succeeds(s: State, a: Action, k: RowKey) {
    && a.Go? && a.error.None? && a.w < |s.workers| && InSection(s.workers[a.w])
    && s.workers[a.w].phase.Delivering? && s.workers[a.w].phase.attempts > 0 && Target(s.workers[a.w]) == k
  }

  /** An earlier success for the row: stored, held by a worker about to store it, lost with one that died, or erased. */
  ghost predicate SucceededBefore(s: State, k: RowKey) {
    IsDelivered(s.rows, k) || OwedWin(s, k) || Completed(k, true) in s.lost || k in s.erased
  }

  ghost predicate NeverRedelivers(p: Params, s: State, run: seq<Action>, k: RowKey) {
    forall n :: 0 <= n < |run| && Succeeds(Exec(p, s, run[..n]), run[n], k) ==>
      !SucceededBefore(Exec(p, s, run[..n]), k)
  }

  /** No handler succeeds again for a row whose earlier success died with its worker. */
  ghost predicate NeverRedeliversLost(p: Params, s: State, run: seq<Action>, k: RowKey) {
    forall n :: 0 <= n < |run| && Succeeds(Exec(p, s, run[..n]), run[n], k) ==>
      Completed(k, true) !in Exec(p, s, run[..n]).lost
  }

  /** No lease runs out while its worker is between acquire and release. */
  ghost predicate Timely(s: State) {
    forall i :: 0 <= i < |s.workers| && InSection(s.workers[i]) ==> s.clock < s.workers[i].phase.c.until
  }

  ghost predicate AlwaysTimely(p: Params, s: State, run: seq<Action>) {
    forall k :: 0 <= k <= |run| ==> Timely(Exec(p, s, run[..k]))
  }

  /** Workers in their sections hold different leases. */
  ghost predicate Exclusive(s: State) {
    forall i, j :: 0 <= i < j < |s.workers| && InSection(s.workers[i]) && InSection(s.workers[j]) ==>
      LeaseKey(Target(s.workers[i])) != LeaseKey(Target(s.workers[j]))
  }

  ghost predicate AlwaysExclusive(p: Params, s: State, run: seq<Action>) {
    forall k :: 0 <= k <= |run| ==> Exclusive(Exec(p, s, run[..k]))
  }

  // ----- who is inside -----

  /** What worker i holds, and what it knows of its row. */
  ghost predicate WorkerOk(s: State, i: nat)
    requires i < |s.workers|
  {
    var w := s.workers[i];
    var k := Target(w);
    && (w.Working? && w.phase.Locking? ==> w.phase.now <= s.clock)
    && (InSection(w) ==>
          && LeaseKey(k) in s.leases
          && s.leases[LeaseKey(k)] == Leases.Lease(w.phase.c.holder, w.phase.c.until)
          && (w.phase.Delivering? ==> !IsDelivered(s.rows, k) && w.phase.attempts == AttemptsOf(s.rows, k) + 1)
          && (w.phase.Storing? ==> !IsDelivered(s.rows, k) && w.phase.row.attempts == AttemptsOf(s.rows, k) + 1))
  }

  ghost predicate LeaseInv(s: State) {
    Exclusive(s) && forall i :: 0 <= i < |s.workers| ==> WorkerOk(s, i)
  }

  /** The lease worker w asks for is there to take. */
  predicate Free(s: State, w: Worker) {
    w.Working? && w.todo != [] && w.phase.Locking? && !Leases.Held(s.leases, LeaseKey(Target(w)), w.phase.now)
  }

  /** What a call of worker i may do to the rest of the system. */
  ghost predicate Touches(s: State, t: State, i: nat)
    requires i < |s.workers|
  {
    var k := Target(s.workers[i]);
    && t.clock == s.clock && |t.workers| == |s.workers| && t.lost == s.lost
    && (forall j :: 0 <= j < |s.workers| && j != i ==> t.workers[j] == s.workers[j])
    && (forall lk :: lk != LeaseKey(k) ==>
         (lk in t.leases <==> lk in s.leases) && (lk in s.leases ==> t.leases[lk] == s.leases[lk]))
    && (t.leases == s.leases || InSection(s.workers[i]) || Free(s, s.workers[i]))
    && (InSection(t.workers[i]) ==> Target(t.workers[i]) == k && (InSection(s.workers[i]) || Free(s, s.workers[i])))
    && (forall j :: j != k ==> (j in t.rows <==> j in s.rows) && (j in s.rows ==> t.rows[j] == s.rows[j]))
    && (InSection(s.workers[i]) || (t.rows == s.rows && t.log == s.log))
  }

  lemma GoTouches(p: Params, s: State, i: nat, holder: string, error: Option<string>)
    requires i < |s.workers| && WorkerOk(s, i)
    ensures Touches(s, Act(p, s, i, holder, error), i)
  {
  }

  lemma OthersStay(s: State, t: State, i: nat, j: nat)
    requires LeaseInv(s) && !LateEntry(s, i) && i < |s.workers| && j < |s.workers| && i != j && Touches(s, t, i)
    ensures WorkerOk(t, j)
    ensures InSection(t.workers[i]) && InSection(t.workers[j]) ==>
              LeaseKey(Target(t.workers[i])) != LeaseKey(Target(t.workers[j]))
  {
    assert WorkerOk(s, j);
    assert i < j || j < i;
  }

  lemma OutsideKeepsMine(p: Params, s: State, i: nat, holder: string, error: Option<string>)
    requires i < |s.workers| && WorkerOk(s, i) && !InSection(s.workers[i])
    ensures i < |Act(p, s, i, holder, error).workers| && WorkerOk(Act(p, s, i, holder, error), i)
  {
  }

  lemma RecheckKeepsMine(p: Params, s: State, i: nat, holder: string, error: Option<string>)
    requires i < |s.workers| && WorkerOk(s, i) && InSection(s.workers[i])
    requires s.workers[i].phase.Rechecking? || s.workers[i].phase.Unlocking?
    ensures i < |Act(p, s, i, holder, error).workers| && WorkerOk(Act(p, s, i, holder, error), i)
  {
  }

  lemma DeliverKeepsMine(p: Params, s: State, i: nat, holder: string, error: Option<string>)
    requires i < |s.workers| && WorkerOk(s, i) && InSection(s.workers[i])
    requires s.workers[i].phase.Delivering? || s.workers[i].phase.Storing?
    ensures i < |Act(p, s, i, holder, error).workers| && WorkerOk(Act(p, s, i, holder, error), i)
  {
  }

  lemma MineStays(p: Params, s: State, i: nat, holder: string, error: Option<string>)
    requires i < |s.workers| && WorkerOk(s, i)
    ensures i < |Act(p, s, i, holder, error).workers| && WorkerOk(Act(p, s, i, holder, error), i)
  {
    hide Act;
    var w := s.workers[i];
    if !InSection(w) { OutsideKeepsMine(p, s, i, holder, error); }
    else if w.phase.Rechecking? || w.phase.Unlocking? { RecheckKeepsMine(p, s, i, holder, error); }
    else { DeliverKeepsMine(p, s, i, holder, error); }
  }

  lemma GoKeepsLeases(p: Params, s: State, i: nat, holder: string, error: Option<string>)
    requires LeaseInv(s) && !LateEntry(s, i) && i < |s.workers|
    ensures LeaseInv(Act(p, s, i, holder, error))
  {
    hide Act, LateEntry, WorkerOk;
    var t := Act(p, s, i, holder, error);
    assert WorkerOk(s, i);
    GoTouches(p, s, i, holder, error);
    MineStays(p, s, i, holder, error);
    forall j | 0 <= j < |s.workers| && j != i
      ensures WorkerOk(t, j)
      ensures InSection(t.workers[i]) && InSection(t.workers[j]) ==>
                LeaseKey(Target(t.workers[i])) != LeaseKey(Target(t.workers[j]))
    {
      OthersStay(s, t, i, j);
    }
  }

  lemma QuietKeepsWorker(p: Params, s: State, a: Action, i: nat)
    requires LeaseInv(s) && !a.Go? && i < |Step(p, s, a).workers|
    ensures WorkerOk(Step(p, s, a), i)
  {
    if i < |s.workers| { assert WorkerOk(s, i); }
  }

  lemma QuietKeepsExclusive(p: Params, s: State, a: Action)
    requires Exclusive(s) && !a.Go?
    ensures Exclusive(Step(p, s, a))
  {
  }

  lemma StepKeepsLeases(p: Params, s: State, a: Action)
    requires LeaseInv(s) && (a.Go? ==> !LateEntry(s, a.w))
    ensures LeaseInv(Step(p, s, a))
  {
    hide LateEntry, WorkerOk, Exclusive;
    if !a.Go? {
      QuietKeepsExclusive(p, s, a);
      forall i | 0 <= i < |Step(p, s, a).workers| ensures WorkerOk(Step(p, s, a), i) { QuietKeepsWorker(p, s, a, i); }
    } else if a.w < |s.workers| {
      GoKeepsLeases(p, s, a.w, a.holder, a.error);
    }
  }

  lemma {:induction false} ExecKeepsLeases(p: Params, s: State, run: seq<Action>)
    requires Initial(s) && NoLateEntry(p, s, run)
    ensures LeaseInv(Exec(p, s, run))
  {
    if run != [] {
      hide Step, LateEntry, LeaseInv, Initial;
      var front := run[..|run| - 1];
      assert forall k :: 0 <= k <= |front| ==> front[..k] == run[..k];
      ExecKeepsLeases(p, s, front);
      StepKeepsLeases(p, Exec(p, s, front), run[|run| - 1]);
    }
  }

  /** A second worker gets in beside the first exactly when it read a clock at or past the first one's deadline. */
  lemma EntersExactlyOnExpiry(p: Params, s: State, i: nat, j: nat, holder: string)
    requires LeaseInv(s) && i < |s.workers| && j < |s.workers|
    requires s.workers[i].Working? && s.workers[i].todo != [] && s.workers[i].phase.Locking?
    requires InSection(s.workers[j]) && LeaseKey(Target(s.workers[j])) == LeaseKey(Target(s.workers[i]))
    ensures i != j && InSection(s.workers[j])
    ensures InSection(WorkerAfter(p, s, s.workers[i], holder, None))
            <==> s.workers[j].phase.c.until <= s.workers[i].phase.now
  {
    assert WorkerOk(s, j);
  }

  /** A late entry is granted: two workers are inside on one lease. */
  lemma LateEntryBreaks(p: Params, s: State, i: nat, holder: string, error: Option<string>)
    requires LeaseInv(s) && LateEntry(s, i)
    ensures !Exclusive(Step(p, s, Go(i, holder, error)))
  {
    var j :| 0 <= j < |s.workers| && j != i && InSection(s.workers[j])
             && LeaseKey(Target(s.workers[j])) == LeaseKey(Target(s.workers[i]))
             && s.workers[j].phase.c.until <= s.workers[i].phase.now;
    assert WorkerOk(s, j);
    var t := Step(p, s, Go(i, holder, error));
    assert InSection(t.workers[i]) && Target(t.workers[i]) == Target(s.workers[i]) && t.workers[j] == s.workers[j];
    assert i < j || j < i;
  }

  lemma ExclusiveFront(p: Params, s: State, run: seq<Action>)
    requires run != [] && AlwaysExclusive(p, s, run)
    ensures AlwaysExclusive(p, s, run[..|run| - 1]) && Exclusive(Exec(p, s, run))
  {
    hide Exec, Exclusive;
    var front := run[..|run| - 1];
    assert forall k :: 0 <= k <= |front| ==> front[..k] == run[..k];
    assert run[..|run|] == run;
  }

  lemma {:induction false} ExclusiveHasNoLateEntry(p: Params, s: State, run: seq<Action>)
    requires Initial(s) && AlwaysExclusive(p, s, run)
    ensures NoLateEntry(p, s, run)
  {
    if run != [] {
      var front, last := run[..|run| - 1], run[|run| - 1];
      assert Exec(p, s, run) == Step(p, Exec(p, s, front), last);
      hide Step, Exec, LateEntry, NoLateEntry, AlwaysExclusive, LeaseInv, Initial, Exclusive;
      ExclusiveFront(p, s, run);
      ExclusiveHasNoLateEntry(p, s, front);
      ExecKeepsLeases(p, s, front);
      if last.Go? {
        assert last == Go(last.w, last.holder, last.error);
        if LateEntry(Exec(p, s, front), last.w) {
          LateEntryBreaks(p, Exec(p, s, front), last.w, last.holder, last.error);
        }
      }
      NeverLateNext(p, s, run);
    }
  }

  /**
   In every interleaving, workers dying where they may: workers inside hold different leases
   throughout exactly when none enters at a time past the deadline of one inside on its lease.
   */
  lemma ExclusiveExactlyWithoutLateEntry(p: Params, s: State, run: seq<Action>)
    requires Initial(s)
    ensures AlwaysExclusive(p, s, run) <==> NoLateEntry(p, s, run)
  {
    if NoLateEntry(p, s, run) {
      forall k | 0 <= k <= |run| ensures Exclusive(Exec(p, s, run[..k])) {
        var part := run[..k];
        assert forall m :: 0 <= m < k ==> part[..m] == run[..m] && part[m] == run[m];
        ExecKeepsLeases(p, s, part);
      }
    }
    if AlwaysExclusive(p, s, run) { ExclusiveHasNoLateEntry(p, s, run); }
  }

  lemma OnTime(s: State, i: nat)
    requires LeaseInv(s) && Timely(s)
    ensures !LateEntry(s, i)
  {
    if i < |s.workers| { assert WorkerOk(s, i); }
  }

  lemma TimelyFront(p: Params, s: State, run: seq<Action>)
    requires run != [] && AlwaysTimely(p, s, run)
    ensures var front := run[..|run| - 1]; AlwaysTimely(p, s, front) && Timely(Exec(p, s, front))
  {
    hide Exec, Timely;
    var front := run[..|run| - 1];
    assert forall k :: 0 <= k <= |front| ==> front[..k] == run[..k];
    assert run[..|front|] == front;
  }

  lemma NeverLateNext(p: Params, s: State, run: seq<Action>)
    requires run != [] && NoLateEntry(p, s, run[..|run| - 1])
    requires run[|run| - 1].Go? ==> !LateEntry(Exec(p, s, run[..|run| - 1]), run[|run| - 1].w)
    ensures NoLateEntry(p, s, run)
  {
    hide Exec, LateEntry;
    var front := run[..|run| - 1];
    forall k | 0 <= k < |run| && run[k].Go? ensures !LateEntry(Exec(p, s, run[..k]), run[k].w) {
      if k < |front| { assert front[k] == run[k] && front[..k] == run[..k]; }
    }
  }

  /** Leases that outlast their sections are enough: nobody is then late. */
  lemma {:induction false} TimelyIsNeverLate(p: Params, s: State, run: seq<Action>)
    requires Initial(s) && AlwaysTimely(p, s, run)
    ensures NoLateEntry(p, s, run)
  {
    if run != [] {
      hide Step, Exec, LateEntry, NoLateEntry, AlwaysTimely, LeaseInv, Timely, Initial;
      var front, last := run[..|run| - 1], run[|run| - 1];
      TimelyFront(p, s, run);
      TimelyIsNeverLate(p, s, front);
      ExecKeepsLeases(p, s, front);
      if last.Go? { OnTime(Exec(p, s, front), last.w); }
      NeverLateNext(p, s, run);
    }
  }

  // ----- every call is accounted for -----

  /** Completed handler calls for a row, and those that succeeded. */
  function Tries(log: seq<Completed>, k: RowKey): nat {
    if log == [] then 0 else Tries(log[..|log| - 1], k) + if log[|log| - 1].key == k then 1 else 0
  }

  function Wins(log: seq<Completed>, k: RowKey): nat {
    if log == [] then 0 else Wins(log[..|log| - 1], k) + if log[|log| - 1] == Completed(k, true) then 1 else 0
  }

  lemma LogAppend(log: seq<Completed>, c: Completed, k: RowKey)
    ensures Tries(log + [c], k) == Tries(log, k) + if c.key == k then 1 else 0
    ensures Wins(log + [c], k) == Wins(log, k) + if c == Completed(k, true) then 1 else 0
  {
    assert (log + [c])[..|log|] == log;
  }

  predicate Owes(w: Worker, k: RowKey) {
    InSection(w) && w.phase.Storing? && Target(w) == k
  }

  /** Some worker holds the outcome of a call for this row and has not stored it yet; some such outcome is a success. */
  ghost predicate Owed(s: State, k: RowKey) {
    exists i :: 0 <= i < |s.workers| && Owes(s.workers[i], k)
  }

  ghost predicate OwedWin(s: State, k: RowKey) {
    exists i :: 0 <= i < |s.workers| && Owes(s.workers[i], k) && s.workers[i].phase.row.status == Delivered
  }

  /** Calls completed = attempts stored + outcomes lost + outcome owed; and the same of the successes. */
  ghost predicate Balanced(s: State, k: RowKey) {
    && Tries(s.log, k) == AttemptsOf(s.rows, k) + Tries(s.lost, k) + (if Owed(s, k) then 1 else 0)
    && Wins(s.log, k) == (if IsDelivered(s.rows, k) then 1 else 0) + Wins(s.lost, k) + (if OwedWin(s, k) then 1 else 0)
    && !(IsDelivered(s.rows, k) && OwedWin(s, k))
  }

  ghost predicate Books(s: State) {
    forall k :: Balanced(s, k)
  }

  lemma SoleOwner(s: State, i: nat)
    requires Exclusive(s) && i < |s.workers| && InSection(s.workers[i])
    ensures forall j :: 0 <= j < |s.workers| && Owes(s.workers[j], Target(s.workers[i])) ==> j == i
  {
  }

  /** Whoever is inside on a row is the only one who can owe for it. */
  lemma OnlyMineOwes(s: State, i: nat)
    requires Exclusive(s) && i < |s.workers| && InSection(s.workers[i])
    ensures var k := Target(s.workers[i]);
            && (Owed(s, k) <==> s.workers[i].phase.Storing?)
            && (OwedWin(s, k) <==> s.workers[i].phase.Storing? && s.workers[i].phase.row.status == Delivered)
  {
    SoleOwner(s, i);
    if s.workers[i].phase.Storing? { assert Owes(s.workers[i], Target(s.workers[i])); }
  }

  /** A call changes nobody else's debts. */
  lemma OtherDebts(s: State, t: State, i: nat, k: RowKey)
    requires i < |s.workers| && |t.workers| == |s.workers|
    requires forall j :: 0 <= j < |s.workers| && j != i ==> t.workers[j] == s.workers[j]
    requires !Owes(s.workers[i], k) && !Owes(t.workers[i], k)
    ensures Owed(t, k) <==> Owed(s, k)
    ensures OwedWin(t, k) <==> OwedWin(s, k)
  {
    if Owed(s, k) {
      var j :| 0 <= j < |s.workers| && Owes(s.workers[j], k);
      assert Owes(t.workers[j], k);
    }
    if OwedWin(s, k) {
      var j :| 0 <= j < |s.workers| && Owes(s.workers[j], k) && s.workers[j].phase.row.status == Delivered;
      assert Owes(t.workers[j], k) && t.workers[j].phase.row.status == Delivered;
    }
    if Owed(t, k) {
      var j :| 0 <= j < |s.workers| && Owes(t.workers[j], k);
      assert Owes(s.workers[j], k);
    }
    if OwedWin(t, k) {
      var j :| 0 <= j < |s.workers| && Owes(t.workers[j], k) && t.workers[j].phase.row.status == Delivered;
      assert Owes(s.workers[j], k) && s.workers[j].phase.row.status == Delivered;
    }
  }

  /** A step for another row, or one that neither completes a call nor stores its row. */
  lemma SameBooks(s: State, t: State, i: nat, k: RowKey)
    requires i < |s.workers| && |t.workers| == |s.workers| && Balanced(s, k) && t.lost == s.lost
    requires forall j :: 0 <= j < |s.workers| && j != i ==> t.workers[j] == s.workers[j]
    requires !Owes(s.workers[i], k) && !Owes(t.workers[i], k)
    requires Tries(t.log, k) == Tries(s.log, k) && Wins(t.log, k) == Wins(s.log, k)
    requires (k in t.rows <==> k in s.rows) && (k in s.rows ==> t.rows[k] == s.rows[k])
    ensures Balanced(t, k)
  {
    hide Tries, Wins;
    OtherDebts(s, t, i, k);
    hide Owed, OwedWin;
  }

  lemma OtherLog(p: Params, s: State, i: nat, holder: string, error: Option<string>, k: RowKey)
    requires i < |s.workers|
    requires Target(s.workers[i]) != k || !InSection(s.workers[i]) || !s.workers[i].phase.Delivering?
    ensures var t := Act(p, s, i, holder, error); Tries(t.log, k) == Tries(s.log, k) && Wins(t.log, k) == Wins(s.log, k)
  {
    LogAppend(s.log, Completed(Target(s.workers[i]), error.None?), k);
  }

  lemma CallBooks(p: Params, s: State, i: nat, holder: string, error: Option<string>)
    requires LeaseInv(s) && i < |s.workers| && InSection(s.workers[i]) && s.workers[i].phase.Delivering?
    requires Exclusive(Act(p, s, i, holder, error)) && Balanced(s, Target(s.workers[i]))
    ensures Balanced(Act(p, s, i, holder, error), Target(s.workers[i]))
  {
    var w, t, k := s.workers[i], Act(p, s, i, holder, error), Target(s.workers[i]);
    assert WorkerOk(s, i);
    LogAppend(s.log, Completed(k, error.None?), k);
    OnlyMineOwes(s, i);
    assert InSection(t.workers[i]) && t.workers[i].phase.Storing? && Target(t.workers[i]) == k;
    OnlyMineOwes(t, i);
    hide Owed, OwedWin, Tries, Wins;
  }

  lemma StoreBooks(p: Params, s: State, i: nat, holder: string, error: Option<string>)
    requires LeaseInv(s) && i < |s.workers| && InSection(s.workers[i]) && s.workers[i].phase.Storing?
    requires Exclusive(Act(p, s, i, holder, error)) && Balanced(s, Target(s.workers[i]))
    ensures Balanced(Act(p, s, i, holder, error), Target(s.workers[i]))
  {
    var w, t, k := s.workers[i], Act(p, s, i, holder, error), Target(s.workers[i]);
    assert WorkerOk(s, i);
    OnlyMineOwes(s, i);
    assert InSection(t.workers[i]) && !t.workers[i].phase.Storing? && Target(t.workers[i]) == k;
    OnlyMineOwes(t, i);
    hide Owed, OwedWin, Tries, Wins;
  }

  lemma GoKeepsBooks(p: Params, s: State, i: nat, holder: string, error: Option<string>, k: RowKey)
    requires LeaseInv(s) && i < |s.workers| && Balanced(s, k)
    requires Exclusive(Act(p, s, i, holder, error))
    ensures Balanced(Act(p, s, i, holder, error), k)
  {
    var w, t := s.workers[i], Act(p, s, i, holder, error);
    assert WorkerOk(s, i);
    if InSection(w) && Target(w) == k && w.phase.Delivering? {
      CallBooks(p, s, i, holder, error);
    } else if InSection(w) && Target(w) == k && w.phase.Storing? {
      StoreBooks(p, s, i, holder, error);
    } else {
      GoTouches(p, s, i, holder, error);
      OtherLog(p, s, i, holder, error, k);
      OwesNothing(p, s, i, holder, error, k);
      hide Act, Exclusive, WorkerOk;
      SameBooks(s, t, i, k);
    }
  }

  lemma OwesNothing(p: Params, s: State, i: nat, holder: string, error: Option<string>, k: RowKey)
    requires i < |s.workers|
    requires !(InSection(s.workers[i]) && Target(s.workers[i]) == k
               && (s.workers[i].phase.Delivering? || s.workers[i].phase.Storing?))
    ensures var t := Act(p, s, i, holder, error);
            && !Owes(s.workers[i], k) && !Owes(t.workers[i], k)
            && (k in t.rows <==> k in s.rows) && (k in s.rows ==> t.rows[k] == s.rows[k])
  {
  }

  lemma NobodyElseOwes(s: State, t: State, i: nat)
    requires Exclusive(s) && i < |s.workers| && InSection(s.workers[i]) && t.workers == s.workers[i := Stopped]
    ensures !Owed(t, Target(s.workers[i])) && !OwedWin(t, Target(s.workers[i]))
  {
    SoleOwner(s, i);
  }

  /** What the death of a worker leaves. */
  lemma DeathLeaves(p: Params, s: State, i: nat)
    requires i < |s.workers|
    ensures var w, t := s.workers[i], Step(p, s, Crash(i));
            && t.workers == s.workers[i := Stopped] && t.rows == s.rows && t.log == s.log
            && t.lost == if InSection(w) && w.phase.Storing?
                         then s.lost + [Completed(Target(w), w.phase.row.status == Delivered)]
                         else s.lost
  {
    hide Target;
  }

  lemma OwnerDies(p: Params, s: State, i: nat)
    requires Exclusive(s) && i < |s.workers| && InSection(s.workers[i]) && s.workers[i].phase.Storing?
    requires Balanced(s, Target(s.workers[i]))
    ensures Balanced(Step(p, s, Crash(i)), Target(s.workers[i]))
  {
    hide Step, Target, LeaseKey, Owed, OwedWin, Tries, Wins, Exclusive;
    var w, k, t := s.workers[i], Target(s.workers[i]), Step(p, s, Crash(i));
    DeathLeaves(p, s, i);
    OnlyMineOwes(s, i);
    NobodyElseOwes(s, t, i);
    LogAppend(s.lost, Completed(k, w.phase.row.status == Delivered), k);
  }

  lemma StrangerDies(p: Params, s: State, i: nat, k: RowKey)
    requires i < |s.workers| && !Owes(s.workers[i], k) && Balanced(s, k)
    ensures Balanced(Step(p, s, Crash(i)), k)
  {
    hide Step, Target, LeaseKey, Owed, OwedWin, Tries, Wins;
    var w, t := s.workers[i], Step(p, s, Crash(i));
    DeathLeaves(p, s, i);
    if InSection(w) && w.phase.Storing? {
      LogAppend(s.lost, Completed(Target(w), w.phase.row.status == Delivered), k);
    }
    OtherDebts(s, t, i, k);
  }

  /** A death moves what its worker owed to what is lost. */
  lemma CrashKeepsBooks(p: Params, s: State, i: nat, k: RowKey)
    requires Exclusive(s) && Balanced(s, k)
    ensures Balanced(Step(p, s, Crash(i)), k)
  {
    hide Balanced, Exclusive, LosesOutcome;
    if i < |s.workers| {
      if Owes(s.workers[i], k) { OwnerDies(p, s, i); } else { StrangerDies(p, s, i, k); }
    }
  }

  lemma NewcomerKeepsBooks(s: State, w: Worker, k: RowKey)
    requires Balanced(s, k) && !InSection(w)
    ensures Balanced(s.(workers := s.workers + [w]), k)
  {
    var t := s.(workers := s.workers + [w]);
    if Owed(s, k) {
      var j :| 0 <= j < |s.workers| && Owes(s.workers[j], k);
      assert Owes(t.workers[j], k);
    }
    if OwedWin(s, k) {
      var j :| 0 <= j < |s.workers| && Owes(s.workers[j], k) && s.workers[j].phase.row.status == Delivered;
      assert Owes(t.workers[j], k) && t.workers[j].phase.row.status == Delivered;
    }
  }

  lemma StepKeepsBooks(p: Params, s: State, a: Action)
    requires LeaseInv(s) && Books(s) && (a.Go? ==> !LateEntry(s, a.w))
    ensures Books(Step(p, s, a))
  {
    StepKeepsLeases(p, s, a);
    forall k ensures Balanced(Step(p, s, a), k) {
      assert Balanced(s, k);
      StepBalances(p, s, a, k);
    }
  }

  lemma StepBalances(p: Params, s: State, a: Action, k: RowKey)
    requires LeaseInv(s) && Balanced(s, k) && Exclusive(Step(p, s, a))
    ensures Balanced(Step(p, s, a), k)
  {
    hide Act, LosesOutcome, WorkerOk, Tries, Wins;
    match a
    case Go(i, holder, error) => if i < |s.workers| { GoKeepsBooks(p, s, i, holder, error, k); }
    case Crash(i) => CrashKeepsBooks(p, s, i, k);
    case StartDispatch(event) => NewcomerKeepsBooks(s, Listing(event), k);
    case StartRetry(key) => NewcomerKeepsBooks(s, Loading(key), k);
    case _ =>
  }

  lemma {:induction false} ExecKeepsBooks(p: Params, s: State, run: seq<Action>)
    requires Initial(s) && NoLateEntry(p, s, run)
    ensures LeaseInv(Exec(p, s, run)) && Books(Exec(p, s, run))
  {
    if run != [] {
      hide Step, LateEntry, LeaseInv, Initial, Books;
      var front := run[..|run| - 1];
      assert forall k :: 0 <= k <= |front| ==> front[..k] == run[..k];
      ExecKeepsBooks(p, s, front);
      ExecKeepsLeases(p, s, run);
      StepKeepsBooks(p, Exec(p, s, front), run[|run| - 1]);
    }
  }

  lemma StepLosesNothing(p: Params, s: State, a: Action)
    requires !LosesOutcome(s, a)
    ensures Step(p, s, a).lost == s.lost
  {
  }

  lemma {:induction false} LosesNothing(p: Params, s: State, run: seq<Action>)
    requires Initial(s) && NoLostOutcome(p, s, run)
    ensures Exec(p, s, run).lost == []
  {
    if run != [] {
      var front := run[..|run| - 1];
      assert forall k :: 0 <= k <= |front| ==> front[..k] == run[..k];
      LosesNothing(p, s, front);
      assert !LosesOutcome(Exec(p, s, run[..|front|]), run[|front|]);
      hide LosesOutcome, NoLostOutcome;
      StepLosesNothing(p, Exec(p, s, front), run[|front|]);
    }
  }

  /**
   With nobody late, every completed call of a row is stored, owed by one worker about to store
   it, or lost with a worker that died; so beyond the successes lost there is at most one.
   */
  lemma EveryCallAccounted(p: Params, s: State, run: seq<Action>, k: RowKey)
    requires Initial(s) && NoLateEntry(p, s, run)
    ensures var t := Exec(p, s, run);
            && Tries(t.log, k) == AttemptsOf(t.rows, k) + Tries(t.lost, k) + (if Owed(t, k) then 1 else 0)
            && Wins(t.log, k) == Wins(t.lost, k) + (if IsDelivered(t.rows, k) || OwedWin(t, k) then 1 else 0)
            && !(IsDelivered(t.rows, k) && OwedWin(t, k))
  {
    hide Initial, NoLateEntry, Exec, Owed, OwedWin, Tries, Wins;
    ExecKeepsBooks(p, s, run);
    assert Balanced(Exec(p, s, run), k);
  }

  // ----- exactly when a handler succeeds once -----

  lemma {:induction false} WinsMeansIn(log: seq<Completed>, k: RowKey)
    ensures Wins(log, k) > 0 <==> Completed(k, true) in log
  {
    if log != [] {
      WinsMeansIn(log[..|log| - 1], k);
      assert log == log[..|log| - 1] + [log[|log| - 1]];
    }
  }

  lemma StepLogs(p: Params, s: State, a: Action, k: RowKey)
    ensures Wins(Step(p, s, a).log, k) == Wins(s.log, k) + if Succeeds(s, a, k) then 1 else 0
  {
    if a.Go? && a.w < |s.workers| { LogAppend(s.log, Completed(Target(s.workers[a.w]), a.error.None?), k); }
    hide Wins;
  }

  lemma CallRemembers(p: Params, s: State, i: nat, holder: string, error: Option<string>, k: RowKey)
    requires i < |s.workers| && InSection(s.workers[i]) && s.workers[i].phase.Delivering? && Target(s.workers[i]) == k
    ensures var t := Act(p, s, i, holder, error);
            SucceededBefore(t, k) <==> SucceededBefore(s, k) || Succeeds(s, Go(i, holder, error), k)
  {
    var t := Act(p, s, i, holder, error);
    assert t.rows == s.rows && t.lost == s.lost && t.erased == s.erased;
    if OwedWin(s, k) {
      var j :| 0 <= j < |s.workers| && Owes(s.workers[j], k) && s.workers[j].phase.row.status == Delivered;
      assert Owes(t.workers[j], k);
    }
    if OwedWin(t, k) {
      var j :| 0 <= j < |t.workers| && Owes(t.workers[j], k) && t.workers[j].phase.row.status == Delivered;
      assert j != i ==> Owes(s.workers[j], k);
    }
    if Succeeds(s, Go(i, holder, error), k) { assert Owes(t.workers[i], k); }
  }

  lemma StoreRemembers(p: Params, s: State, i: nat, holder: string, error: Option<string>, k: RowKey)
    requires i < |s.workers| && InSection(s.workers[i]) && s.workers[i].phase.Storing? && Target(s.workers[i]) == k
    ensures SucceededBefore(Act(p, s, i, holder, error), k) <==> SucceededBefore(s, k)
  {
    var t := Act(p, s, i, holder, error);
    assert t.lost == s.lost && s.erased <= t.erased && !Owes(t.workers[i], k);
    if OwedWin(s, k) {
      var j :| 0 <= j < |s.workers| && Owes(s.workers[j], k) && s.workers[j].phase.row.status == Delivered;
      assert j != i ==> Owes(t.workers[j], k);
    }
    if OwedWin(t, k) {
      var j :| 0 <= j < |t.workers| && Owes(t.workers[j], k) && t.workers[j].phase.row.status == Delivered;
      assert Owes(s.workers[j], k);
    }
    if s.workers[i].phase.row.status == Delivered { assert Owes(s.workers[i], k); }
  }

  lemma StrangerRemembers(p: Params, s: State, i: nat, holder: string, error: Option<string>, k: RowKey)
    requires i < |s.workers|
    requires !(InSection(s.workers[i]) && Target(s.workers[i]) == k
               && (s.workers[i].phase.Delivering? || s.workers[i].phase.Storing?))
    ensures SucceededBefore(Act(p, s, i, holder, error), k) <==> SucceededBefore(s, k)
  {
    var t := Act(p, s, i, holder, error);
    OwesNothing(p, s, i, holder, error, k);
    OtherDebts(s, t, i, k);
    assert k in t.erased <==> k in s.erased;
    hide OwedWin;
  }

  lemma CrashRemembers(p: Params, s: State, i: nat, k: RowKey)
    ensures SucceededBefore(Step(p, s, Crash(i)), k) <==> SucceededBefore(s, k)
  {
    var t := Step(p, s, Crash(i));
    if OwedWin(s, k) {
      var j :| 0 <= j < |s.workers| && Owes(s.workers[j], k) && s.workers[j].phase.row.status == Delivered;
      assert j != i ==> Owes(t.workers[j], k);
    }
    if OwedWin(t, k) {
      var j :| 0 <= j < |t.workers| && Owes(t.workers[j], k) && t.workers[j].phase.row.status == Delivered;
      assert Owes(s.workers[j], k);
    }
    if LosesOutcome(s, Crash(i)) && Completed(k, true) in t.lost && Completed(k, true) !in s.lost {
      assert Owes(s.workers[i], k);
    }
  }

  lemma NewcomerRemembers(s: State, w: Worker, k: RowKey)
    requires !InSection(w)
    ensures SucceededBefore(s.(workers := s.workers + [w]), k) <==> SucceededBefore(s, k)
  {
    var t := s.(workers := s.workers + [w]);
    if OwedWin(s, k) {
      var j :| 0 <= j < |s.workers| && Owes(s.workers[j], k) && s.workers[j].phase.row.status == Delivered;
      assert Owes(t.workers[j], k);
    }
  }

  /** The store and the workers remember a success from the step that makes it on. */
  lemma StepRemembers(p: Params, s: State, a: Action, k: RowKey)
    ensures SucceededBefore(Step(p, s, a), k) <==> SucceededBefore(s, k) || Succeeds(s, a, k)
  {
    match a
    case Go(i, holder, error) =>
      if i < |s.workers| {
        hide Act, SucceededBefore;
        if InSection(s.workers[i]) && Target(s.workers[i]) == k && s.workers[i].phase.Delivering? {
          CallRemembers(p, s, i, holder, error, k);
        } else if InSection(s.workers[i]) && Target(s.workers[i]) == k && s.workers[i].phase.Storing? {
          StoreRemembers(p, s, i, holder, error, k);
        } else {
          StrangerRemembers(p, s, i, holder, error, k);
        }
      }
    case Crash(i) => CrashRemembers(p, s, i, k);
    case StartDispatch(event) => NewcomerRemembers(s, Listing(event), k);
    case StartRetry(key) => NewcomerRemembers(s, Loading(key), k);
    case _ =>
  }

  lemma RedeliversNext(p: Params, s: State, run: seq<Action>, k: RowKey)
    requires run != []
    ensures var front, last := run[..|run| - 1], run[|run| - 1];
            var u := Exec(p, s, front);
            && (NeverRedelivers(p, s, run, k)
                <==> NeverRedelivers(p, s, front, k) && (Succeeds(u, last, k) ==> !SucceededBefore(u, k)))
            && (NeverRedeliversLost(p, s, run, k)
                <==> NeverRedeliversLost(p, s, front, k) && (Succeeds(u, last, k) ==> Completed(k, true) !in u.lost))
  {
    hide Exec, Succeeds, SucceededBefore;
    var front := run[..|run| - 1];
    assert forall n :: 0 <= n < |front| ==> front[..n] == run[..n] && front[n] == run[n];
    assert run[..|front|] == front;
    assert forall n :: 0 <= n < |front| ==>
             Succeeds(Exec(p, s, front[..n]), front[n], k) == Succeeds(Exec(p, s, run[..n]), run[n], k);
  }

  lemma {:induction false} ExecRemembers(p: Params, s: State, run: seq<Action>, k: RowKey)
    requires Initial(s)
    ensures Wins(Exec(p, s, run).log, k) > 0 <==> SucceededBefore(Exec(p, s, run), k)
    ensures Wins(Exec(p, s, run).log, k) <= 1 <==> NeverRedelivers(p, s, run, k)
  {
    if run != [] {
      var front, last := run[..|run| - 1], run[|run| - 1];
      assert Exec(p, s, run) == Step(p, Exec(p, s, front), last);
      hide Exec, Step, Wins, NeverRedelivers, Succeeds, SucceededBefore, Initial;
      ExecRemembers(p, s, front, k);
      StepLogs(p, Exec(p, s, front), last, k);
      StepRemembers(p, Exec(p, s, front), last, k);
      RedeliversNext(p, s, run, k);
    }
  }

  /** With nobody late, whoever is about to deliver finds no success but a lost one, and no success is erased. */
  lemma DelivererFindsNone(s: State, a: Action, k: RowKey)
    requires LeaseInv(s) && s.erased == [] && Succeeds(s, a, k)
    ensures SucceededBefore(s, k) <==> Completed(k, true) in s.lost
  {
    assert WorkerOk(s, a.w);
    OnlyMineOwes(s, a.w);
    hide Owed, OwedWin;
  }

  lemma StepErasesNone(p: Params, s: State, a: Action)
    requires LeaseInv(s)
    ensures Step(p, s, a).erased == s.erased
  {
    if a.Go? && a.w < |s.workers| { assert WorkerOk(s, a.w); }
  }

  lemma {:induction false} RedeliversOnlyLost(p: Params, s: State, run: seq<Action>, k: RowKey)
    requires Initial(s) && NoLateEntry(p, s, run)
    ensures Exec(p, s, run).erased == []
    ensures NeverRedelivers(p, s, run, k) <==> NeverRedeliversLost(p, s, run, k)
  {
    if run != [] {
      var front, last := run[..|run| - 1], run[|run| - 1];
      assert forall n :: 0 <= n <= |front| ==> front[..n] == run[..n];
      assert Exec(p, s, run) == Step(p, Exec(p, s, front), last);
      assert NoLateEntry(p, s, front);
      hide Exec, Step, NoLateEntry, NeverRedelivers, NeverRedeliversLost, Succeeds, SucceededBefore, LeaseInv, Initial;
      RedeliversOnlyLost(p, s, front, k);
      ExecKeepsLeases(p, s, front);
      StepErasesNone(p, Exec(p, s, front), last);
      if Succeeds(Exec(p, s, front), last, k) { DelivererFindsNone(Exec(p, s, front), last, k); }
      RedeliversNext(p, s, run, k);
    }
  }

  /**
   In every interleaving, late or not, the handler succeeds at most once for a row exactly when it
   never succeeds for one with an earlier success that is stored, in a worker's hands, lost with
   one or erased.  With nobody late, that is when it never succeeds again after a lost success.
   */
  lemma DeliveredOnceExactlyWhenNeverRedelivered(p: Params, s: State, run: seq<Action>, k: RowKey)
    requires Initial(s)
    ensures Wins(Exec(p, s, run).log, k) <= 1 <==> NeverRedelivers(p, s, run, k)
    ensures NoLateEntry(p, s, run) ==> (NeverRedelivers(p, s, run, k) <==> NeverRedeliversLost(p, s, run, k))
  {
    hide Exec, Wins, NoLateEntry, NeverRedelivers, NeverRedeliversLost, Initial;
    ExecRemembers(p, s, run, k);
    if NoLateEntry(p, s, run) { RedeliversOnlyLost(p, s, run, k); }
  }

  lemma NothingLostNothingRedelivered(p: Params, s: State, run: seq<Action>, k: RowKey)
    requires Initial(s) && NoLostOutcome(p, s, run)
    ensures NeverRedeliversLost(p, s, run, k)
  {
    forall n | 0 <= n < |run| ensures Completed(k, true) !in Exec(p, s, run[..n]).lost {
      var part := run[..n];
      assert forall m :: 0 <= m < n ==> part[..m] == run[..m] && part[m] == run[m];
      hide LosesOutcome, Exec;
      LosesNothing(p, s, part);
    }
  }

  /**
   When no worker dies on an outcome, nothing is redelivered: the handler succeeds at most once per
   row and attempts equal completed calls.
   */
  lemma DeliveredAtMostOnce(p: Params, s: State, run: seq<Action>, k: RowKey)
    requires Initial(s) && NoLateEntry(p, s, run) && NoLostOutcome(p, s, run)
    ensures NeverRedeliversLost(p, s, run, k)
    ensures var t := Exec(p, s, run);
            && Wins(t.log, k) <= 1
            && Tries(t.log, k) == AttemptsOf(t.rows, k) + (if Owed(t, k) then 1 else 0)
            && (!Owed(t, k) ==> (IsDelivered(t.rows, k) <==> Wins(t.log, k) == 1))
  {
    NothingLostNothingRedelivered(p, s, run, k);
    hide Initial, NoLateEntry, NoLostOutcome, Exec, NeverRedelivers, NeverRedeliversLost;
    DeliveredOnceExactlyWhenNeverRedelivered(p, s, run, k);
    EveryCallAccounted(p, s, run, k);
    LosesNothing(p, s, run);
  }

  lemma StepKeepsDelivered(p: Params, s: State, a: Action, k: RowKey)
    requires LeaseInv(s) && IsDelivered(s.rows, k)
    ensures k in Step(p, s, a).rows && Step(p, s, a).rows[k] == s.rows[k]
  {
    if a.Go? && a.w < |s.workers| { assert WorkerOk(s, a.w); }
  }

  /** Delivered is final: once a row says so, it never changes again. */
  lemma {:induction false} DeliveredIsFinal(p: Params, s: State, run: seq<Action>, n: nat, k: RowKey)
    requires Initial(s) && NoLateEntry(p, s, run) && n <= |run|
    requires IsDelivered(Exec(p, s, run[..n]).rows, k)
    ensures k in Exec(p, s, run).rows && Exec(p, s, run).rows[k] == Exec(p, s, run[..n]).rows[k]
  {
    if n == |run| {
      assert run[..n] == run;
    } else {
      hide Step, LateEntry, LeaseInv, Initial;
      var front := run[..|run| - 1];
      assert front[..n] == run[..n];
      assert forall m :: 0 <= m <= |front| ==> front[..m] == run[..m];
      DeliveredIsFinal(p, s, front, n, k);
      ExecKeepsLeases(p, s, front);
      StepKeepsDelivered(p, Exec(p, s, front), run[|run| - 1], k);
    }
  }

  // ----- a worker that dies on an outcome -----

  /** One event with one matching subscription, and nobody at work. */
  function Logged(event: Event, sub: Subscription): State {
    State(0.0, map[(event.source, event.id) := event], Put(Empty(), sub.id, sub), map[], map[], [], [], [], [])
  }

  function Seven(i: nat, holder: string): seq<Action> {
    var go := Go(i, holder, None);
    [go, go, go, go, go, go, go]
  }

  lemma ExecSnoc(p: Params, s: State, run: seq<Action>, a: Action)
    ensures Exec(p, s, run + [a]) == Step(p, Exec(p, s, run), a)
  {
    assert (run + [a])[..|run|] == run;
  }

  lemma {:induction false} ExecAppend(p: Params, s: State, run: seq<Action>, tail: seq<Action>)
    ensures Exec(p, s, run + tail) == Exec(p, Exec(p, s, run), tail)
  {
    hide Step;
    if tail == [] {
      assert run + tail == run;
    } else {
      assert run + tail == (run + tail[..|tail| - 1]) + [tail[|tail| - 1]];
      ExecAppend(p, s, run, tail[..|tail| - 1]);
      ExecSnoc(p, s, run + tail[..|tail| - 1], tail[|tail| - 1]);
    }
  }

  lemma ThreeSteps(p: Params, s: State, a: Action)
    ensures Exec(p, s, [a, a, a]) == Step(p, Step(p, Step(p, s, a), a), a)
  {
    assert [a][..0] == [] && Exec(p, s, [a]) == Step(p, s, a);
    hide Step, Exec;
    ExecSnoc(p, s, [a], a);
    ExecSnoc(p, s, [a, a], a);
    assert [a] + [a] == [a, a] && [a, a] + [a] == [a, a, a];
  }

  lemma FourSteps(p: Params, s: State, a: Action)
    ensures Exec(p, s, [a, a, a, a]) == Step(p, Step(p, Step(p, Step(p, s, a), a), a), a)
  {
    hide Step, Exec;
    ThreeSteps(p, s, a);
    ExecSnoc(p, s, [a, a, a], a);
    assert [a, a, a] + [a] == [a, a, a, a];
  }

  lemma SevenSteps(p: Params, s: State, a: Action)
    ensures Exec(p, s, [a, a, a, a, a, a, a])
            == Step(p, Step(p, Step(p, Step(p, Step(p, Step(p, Step(p, s, a), a), a), a), a), a), a)
  {
    hide Step, Exec;
    ExecAppend(p, s, [a, a, a, a], [a, a, a]);
    FourSteps(p, s, a);
    ThreeSteps(p, Exec(p, s, [a, a, a, a]), a);
    assert [a, a, a, a] + [a, a, a] == [a, a, a, a, a, a, a];
  }

  function With(s: State, i: nat, w: Worker): State
    requires i < |s.workers|
  {
    s.(workers := s.workers[i := w])
  }

  /** From its start to the point where it asks for the lease. */
  lemma ComesToLock(p: Params, s: State, i: nat, event: Event, sub: Subscription, holder: string)
    requires i < |s.workers| && s.workers[i] == Loading(KeyOf(event, sub))
    requires (event.source, event.id) in s.events && s.events[(event.source, event.id)] == event
    requires sub.id in s.subs.data && s.subs.data[sub.id] == sub && KeyOf(event, sub) !in s.rows
    ensures var go := Go(i, holder, None);
            Step(p, Step(p, Step(p, Step(p, s, go), go), go), go) == With(s, i, Working(event, [sub], Locking(s.clock)))
  {
    var go := Go(i, holder, None);
    var s1 := Step(p, s, go);
    assert s1 == With(s, i, LoadingSub(event, sub.id));
    var s2 := Step(p, s1, go);
    assert s2 == With(s, i, Working(event, [sub], FastPath));
    var s3 := Step(p, s2, go);
    assert s3 == With(s, i, Working(event, [sub], Timing));
  }

  /** Worker i holds the success of its first call and the lease it took for it. */
  function Succeeded(p: Params, s: State, i: nat, event: Event, sub: Subscription, holder: string): State
    requires i < |s.workers|
  {
    var k, c := KeyOf(event, sub), Claim(holder, s.clock, s.clock + p.leaseTtl);
    With(s, i, Working(event, [sub], Storing(c, RowAfter(p.policy, k, 1, None, s.clock))))
    .(leases := s.leases[LeaseKey(k) := Leases.Lease(holder, c.until)], log := s.log + [Completed(k, true)])
  }

  /** Through the lease to a successful call. */
  lemma ComesToStore(p: Params, s: State, i: nat, event: Event, sub: Subscription, holder: string)
    requires i < |s.workers| && s.workers[i] == Working(event, [sub], Locking(s.clock)) && KeyOf(event, sub) !in s.rows
    requires !Leases.Held(s.leases, LeaseKey(KeyOf(event, sub)), s.clock)
    ensures var go := Go(i, holder, None);
            Step(p, Step(p, Step(p, s, go), go), go) == Succeeded(p, s, i, event, sub, holder)
  {
    var k, go := KeyOf(event, sub), Go(i, holder, None);
    var c := Claim(holder, s.clock, s.clock + p.leaseTtl);
    var leases := s.leases[LeaseKey(k) := Leases.Lease(holder, s.clock + p.leaseTtl)];
    var s1 := Step(p, s, go);
    assert s1 == With(s, i, Working(event, [sub], Rechecking(c))).(leases := leases);
    var s2 := Step(p, s1, go);
    assert s2 == With(s, i, Working(event, [sub], Delivering(c, 1))).(leases := leases);
  }

  function Joined(s: State, k: RowKey): State {
    s.(workers := s.workers + [Loading(k)])
  }

  function Retry(i: nat, k: RowKey, holder: string): seq<Action> {
    [StartRetry(k)] + Seven(i, holder)
  }

  lemma StartsLoading(p: Params, s: State, k: RowKey)
    ensures Exec(p, s, [StartRetry(k)]) == Joined(s, k)
  {
    assert [StartRetry(k)][..0] == [];
  }

  /** A retry of a delivery with no row, left alone, comes to hold a success. */
  lemma RetrySucceeds(p: Params, s: State, event: Event, sub: Subscription, holder: string)
    requires (event.source, event.id) in s.events && s.events[(event.source, event.id)] == event
    requires sub.id in s.subs.data && s.subs.data[sub.id] == sub && KeyOf(event, sub) !in s.rows
    requires !Leases.Held(s.leases, LeaseKey(KeyOf(event, sub)), s.clock)
    ensures var k, i := KeyOf(event, sub), |s.workers|;
            Exec(p, s, Retry(i, k, holder)) == Succeeded(p, Joined(s, k), i, event, sub, holder)
  {
    hide Step, Exec;
    var k, i := KeyOf(event, sub), |s.workers|;
    var u := Joined(s, k);
    ExecAppend(p, s, [StartRetry(k)], Seven(i, holder));
    StartsLoading(p, s, k);
    SevenSteps(p, u, Go(i, holder, None));
    ComesToLock(p, u, i, event, sub, holder);
    var v := With(u, i, Working(event, [sub], Locking(u.clock)));
    ComesToStore(p, v, i, event, sub, holder);
    assert With(v, i, Stopped) == With(u, i, Stopped)
           && Succeeded(p, v, i, event, sub, holder) == Succeeded(p, u, i, event, sub, holder);
  }

  predicate OnlyMoves(run: seq<Action>, i: nat) {
    forall k :: 0 <= k < |run| && run[k].Go? ==> run[k].w == i
  }

  ghost predicate OthersOutside(s: State, i: nat) {
    forall j :: 0 <= j < |s.workers| && j != i ==> !InSection(s.workers[j])
  }

  lemma StepLeavesOthers(p: Params, s: State, a: Action, i: nat)
    requires OthersOutside(s, i) && (a.Go? ==> a.w == i)
    ensures OthersOutside(Step(p, s, a), i)
  {
  }

  /** Nobody is late where only one worker moves and no other is inside. */
  lemma {:induction false} AloneIsNeverLate(p: Params, s: State, run: seq<Action>, i: nat)
    requires OthersOutside(s, i) && OnlyMoves(run, i)
    ensures NoLateEntry(p, s, run) && OthersOutside(Exec(p, s, run), i)
  {
    if run != [] {
      hide Step;
      var front := run[..|run| - 1];
      assert forall k :: 0 <= k <= |front| ==> front[..k] == run[..k];
      AloneIsNeverLate(p, s, front, i);
      StepLeavesOthers(p, Exec(p, s, front), run[|run| - 1], i);
    }
  }

  lemma AppendedAt<T>(run: seq<T>, tail: seq<T>, k: nat)
    requires k < |run + tail|
    ensures k < |run| ==> (run + tail)[..k] == run[..k] && (run + tail)[k] == run[k]
    ensures |run| <= k ==> (run + tail)[..k] == run + tail[..k - |run|] && (run + tail)[k] == tail[k - |run|]
  {
  }

  lemma NeverLateAppend(p: Params, s: State, run: seq<Action>, tail: seq<Action>)
    requires NoLateEntry(p, s, run) && NoLateEntry(p, Exec(p, s, run), tail)
    ensures NoLateEntry(p, s, run + tail)
  {
    hide LateEntry, Exec;
    var all := run + tail;
    forall k | 0 <= k < |all| && all[k].Go? ensures !LateEntry(Exec(p, s, all[..k]), all[k].w) {
      AppendedAt(run, tail, k);
      if k >= |run| { ExecAppend(p, s, run, tail[..k - |run|]); }
    }
  }

  /** The first retry succeeds and dies; its lease of one second runs out. */
  function Death(k: RowKey): seq<Action> {
    Retry(0, k, "a") + [Crash(0), Tick(1.0)]
  }

  lemma Exec2(p: Params, s: State, a: Action, b: Action)
    ensures Exec(p, s, [a, b]) == Step(p, Step(p, s, a), b)
  {
    assert [a, b][..1] == [a] && [a][..0] == [];
    assert Exec(p, s, [a]) == Step(p, s, a);
    hide Step;
  }

  lemma DeathReached(p: Params, event: Event, sub: Subscription)
    requires p.leaseTtl == 1.0
    ensures var s, k := Logged(event, sub), KeyOf(event, sub);
            Exec(p, s, Death(k))
            == s.(clock := 1.0, leases := map[LeaseKey(k) := Leases.Lease("a", 1.0)], workers := [Stopped],
                  log := [Completed(k, true)], lost := [Completed(k, true)])
  {
    var s, k := Logged(event, sub), KeyOf(event, sub);
    RetrySucceeds(p, s, event, sub, "a");
    ExecAppend(p, s, Retry(0, k, "a"), [Crash(0), Tick(1.0)]);
    hide Exec;
    var u := Succeeded(p, Joined(s, k), 0, event, sub, "a");
    Exec2(p, u, Crash(0), Tick(1.0));
    assert InSection(u.workers[0]) && Target(u.workers[0]) == k;
    assert u.workers[0 := Stopped] == [Stopped];
  }

  /** Though nobody is ever late, the lost outcome makes a second retry deliver again. */
  lemma LostOutcomeDeliversTwice(p: Params, event: Event, sub: Subscription)
    requires p.leaseTtl == 1.0
    ensures var s, k := Logged(event, sub), KeyOf(event, sub);
            var run := Death(k) + Retry(1, k, "b");
            && Initial(s) && NoLateEntry(p, s, run)
            && Wins(Exec(p, s, run).log, k) == 2
  {
    var s, k := Logged(event, sub), KeyOf(event, sub);
    DeathReached(p, event, sub);
    DeathIsNeverLate(p, s, k);
    hide Exec, Step, Death, Retry, NoLateEntry;
    ExecAppend(p, s, Death(k), Retry(1, k, "b"));
    var u := Exec(p, s, Death(k));
    RetrySucceeds(p, u, event, sub, "b");
    LogAppend(u.log, Completed(k, true), k);
    LogAppend([], Completed(k, true), k);
    assert [] + [Completed(k, true)] == u.log;
  }

  lemma DeathIsNeverLate(p: Params, s: State, k: RowKey)
    requires s.workers == [] && OthersOutside(Exec(p, s, Death(k)), 1)
    ensures NoLateEntry(p, s, Death(k) + Retry(1, k, "b"))
  {
    assert OthersOutside(s, 0) && OnlyMoves(Death(k), 0) && OnlyMoves(Retry(1, k, "b"), 1);
    hide Exec, NoLateEntry, Death, Retry, OthersOutside, OnlyMoves;
    AloneIsNeverLate(p, s, Death(k), 0);
    AloneIsNeverLate(p, Exec(p, s, Death(k)), Retry(1, k, "b"), 1);
    NeverLateAppend(p, s, Death(k), Retry(1, k, "b"));
  }

  // ----- a late entry -----

  function Stalled(p: Params, event: Event, sub: Subscription): State {
    Succeeded(p, Joined(Logged(event, sub), KeyOf(event, sub)), 0, event, sub, "a").(clock := 1.0)
  }

  lemma ClockMoves(p: Params, s: State)
    requires s.clock == 0.0
    ensures Step(p, s, Tick(1.0)) == s.(clock := 1.0)
  {
  }

  lemma StallReached(p: Params, event: Event, sub: Subscription)
    ensures Exec(p, Logged(event, sub), Retry(0, KeyOf(event, sub), "a") + [Tick(1.0)]) == Stalled(p, event, sub)
  {
    hide Exec, Step, Retry;
    var s, k := Logged(event, sub), KeyOf(event, sub);
    RetrySucceeds(p, s, event, sub, "a");
    ExecSnoc(p, s, Retry(0, k, "a"), Tick(1.0));
    ClockMoves(p, Succeeded(p, Joined(s, k), 0, event, sub, "a"));
  }

  /** Two successes in hand on one row. */
  lemma BothHold(p: Params, event: Event, sub: Subscription)
    ensures var k, u := KeyOf(event, sub), Stalled(p, event, sub);
            var t := Succeeded(p, Joined(u, k), 1, event, sub, "b");
            t.lost == [] && !Exclusive(t) && Wins(t.log, k) == 2
  {
    var k, u := KeyOf(event, sub), Stalled(p, event, sub);
    var t := Succeeded(p, Joined(u, k), 1, event, sub, "b");
    assert u.log == [Completed(k, true)] && t.log == u.log + [Completed(k, true)];
    LogAppend(u.log, Completed(k, true), k);
    LogAppend([], Completed(k, true), k);
    assert [] + [Completed(k, true)] == u.log;
    hide Wins;
    assert Owes(t.workers[0], k) && Owes(t.workers[1], k);
  }

  /** The first retry stalls before storing its success; its lease runs out and a second one delivers again. */
  lemma ExpiryDeliversTwice(p: Params, event: Event, sub: Subscription)
    requires p.leaseTtl == 1.0
    ensures var s, k := Logged(event, sub), KeyOf(event, sub);
            var t := Exec(p, s, (Retry(0, k, "a") + [Tick(1.0)]) + Retry(1, k, "b"));
            Initial(s) && t.lost == [] && !Exclusive(t) && Wins(t.log, k) == 2
  {
    var s, k, u := Logged(event, sub), KeyOf(event, sub), Stalled(p, event, sub);
    StallReached(p, event, sub);
    StalledIsReady(p, event, sub);
    BothHold(p, event, sub);
    hide Exec, Step, Retry, Exclusive, Wins, Stalled, Succeeded;
    ExecAppend(p, s, Retry(0, k, "a") + [Tick(1.0)], Retry(1, k, "b"));
    RetrySucceeds(p, u, event, sub, "b");
  }

  lemma StalledIsReady(p: Params, event: Event, sub: Subscription)
    requires p.leaseTtl == 1.0
    ensures var k, u := KeyOf(event, sub), Stalled(p, event, sub);
            && |u.workers| == 1 && (event.source, event.id) in u.events && u.events[(event.source, event.id)] == event
            && sub.id in u.subs.data && u.subs.data[sub.id] == sub && k !in u.rows
            && !Leases.Held(u.leases, LeaseKey(k), u.clock)
  {
  }
}
