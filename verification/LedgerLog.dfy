/** What the handler calls made for a delivery say of its row, over every sequential run of the bus. */
module LedgerLog {
  import opened Wrappers
  import opened Deliveries
  import opened LedgerSpec
  import opened LedgerRuns
  import Backoff

  /** The last handler call made for a row. */
  function LastFor(calls: seq<Call>, k: RowKey): Option<Call> {
    if calls == [] then None
    else
      var c := calls[|calls| - 1];
      if KeyOf(c.event, c.sub) == k then Some(c) else LastFor(calls[..|calls| - 1], k)
  }

  /** The row is the one its last call left; or, once dead, that row put back to pending by a replay. */
  predicate FromLog(p: Backoff.Policy, rows: map<RowKey, Delivery>, calls: seq<Call>, k: RowKey)
    requires k in rows
  {
    var n, last := CallsFor(calls, k), LastFor(calls, k);
    && n >= 1 && last.Some?
    && var left := RowAfter(p, k, n, last.value.error, last.value.at);
       rows[k] == left || (left.status == Dead && rows[k] == left.(status := Pending))
  }

  ghost predicate LogInv(env: Env, s: Ledger) {
    forall k :: k in s.rows.data ==> FromLog(env.policy, s.rows.data, s.calls, k)
  }

  /** Of the calls for one row only the last can have succeeded. */
  ghost predicate OnlyLastSucceeds(calls: seq<Call>) {
    forall i, j | 0 <= i < j < |calls| && KeyOf(calls[i].event, calls[i].sub) == KeyOf(calls[j].event, calls[j].sub) ::
      calls[i].error.Some?
  }

  lemma LastForAppend(calls: seq<Call>, c: Call, k: RowKey)
    ensures LastFor(calls + [c], k) == if KeyOf(c.event, c.sub) == k then Some(c) else LastFor(calls, k)
  {
    assert (calls + [c])[..|calls|] == calls;
  }

  lemma {:induction false} LastForIsCall(calls: seq<Call>, k: RowKey, i: nat)
    requires i < |calls| && KeyOf(calls[i].event, calls[i].sub) == k
    ensures CallsFor(calls, k) >= 1 && LastFor(calls, k).Some?
    ensures calls[i] == LastFor(calls, k).value
            || exists j ::
                 i < j < |calls| && KeyOf(calls[j].event, calls[j].sub) == k && calls[j] == LastFor(calls, k).value
  {
    var n := |calls| - 1;
    var c := calls[n];
    if KeyOf(c.event, c.sub) != k {
      LastForIsCall(calls[..n], k, i);
    }
  }

  // ----- each operation keeps it -----

  lemma AttemptKeepsLog(env: Env, s: Ledger, event: Event, sub: Subscription)
    requires s.leases == map[] && Counted(s) && LogInv(env, s)
    ensures LogInv(env, Attempt(env, s, event, sub))
  {
    AttemptEffect(env, s, event, sub);
    var k, t := KeyOf(event, sub), Attempt(env, s, event, sub);
    hide Attempt;
    if !IsDelivered(s.rows.data, k) {
      var c := t.calls[|s.calls|];
      forall j | j in t.rows.data ensures FromLog(env.policy, t.rows.data, t.calls, j) {
        CallsForAppend(s.calls, c, j);
        LastForAppend(s.calls, c, j);
        assert CallsFor(s.calls, j) == AttemptsOf(s.rows.data, j);
        if j != k { assert FromLog(env.policy, s.rows.data, s.calls, j); }
      }
    }
  }

  /** An attempt calls the handler only while no call for its row has succeeded. */
  lemma AttemptKeepsSuccess(env: Env, s: Ledger, event: Event, sub: Subscription)
    requires s.leases == map[] && Counted(s) && LogInv(env, s) && OnlyLastSucceeds(s.calls)
    ensures OnlyLastSucceeds(Attempt(env, s, event, sub).calls)
  {
    AttemptEffect(env, s, event, sub);
    var k, t := KeyOf(event, sub), Attempt(env, s, event, sub);
    hide Attempt;
    if !IsDelivered(s.rows.data, k) {
      forall i | 0 <= i < |s.calls| && KeyOf(s.calls[i].event, s.calls[i].sub) == k ensures s.calls[i].error.Some? {
        LastForIsCall(s.calls, k, i);
        assert CallsFor(s.calls, k) == AttemptsOf(s.rows.data, k);
        assert FromLog(env.policy, s.rows.data, s.calls, k);
      }
    }
  }

  ghost predicate Good(env: Env, s: Ledger) {
    Inv(env, s) && LogInv(env, s) && OnlyLastSucceeds(s.calls)
  }

  lemma {:induction false} FanOutKeepsLog(env: Env, s: Ledger, event: Event, subs: seq<Subscription>)
    requires Good(env, s) && forall i :: 0 <= i < |subs| ==> Ready(s, event, subs[i])
    ensures Good(env, AttemptAll(env, s, event, subs))
  {
    FanOutKeepsInv(env, s, event, subs);
    if subs != [] {
      var front := subs[..|subs| - 1];
      FanOutKeepsLog(env, s, event, front);
      var t := AttemptAll(env, s, event, front);
      AttemptKeepsLog(env, t, event, subs[|subs| - 1]);
      AttemptKeepsSuccess(env, t, event, subs[|subs| - 1]);
      hide Attempt;
    }
  }

  lemma PublishKeepsLog(env: Env, s: Ledger, body: Body, principal: string, org: string)
    requires Good(env, s)
    ensures Good(env, Publish(env, s, body, principal, org).0)
  {
    hide StatusOk, FromLog, Matches, Matching;
    PublishEffect(env, s, body, principal, org);
    PublishCases(env, s, body, principal, org);
    var (t, reply) := Publish(env, s, body, principal, org);
    if reply.Published? && !reply.deduped {
      var event, asked := Stamped(env, s, body, principal, org), Asked(env, s, body);
      SameLedgerKeepsInv(env, s, asked);
      RecordKeepsInv(env, asked, event);
      var s1 := RecordEvent(asked, event).0;
      MatchingIsReady(env, s1, event);
      FanOutKeepsLog(env, s1, event, Matching(s1, event.org, event.kind));
    }
  }

  lemma RetryKeepsLog(env: Env, s: Ledger, k: RowKey)
    requires s.leases == map[] && Counted(s) && LogInv(env, s) && OnlyLastSucceeds(s.calls)
    ensures LogInv(env, AttemptPending(env, s, k)) && OnlyLastSucceeds(AttemptPending(env, s, k).calls)
  {
    if (k.source, k.eventId) in s.events && k.subId in s.subs.data {
      AttemptKeepsLog(env, s, s.events[(k.source, k.eventId)], s.subs.data[k.subId]);
      AttemptKeepsSuccess(env, s, s.events[(k.source, k.eventId)], s.subs.data[k.subId]);
    }
    hide Attempt;
  }

  lemma RewrittenKeepsLog(env: Env, s: Ledger, d: Delivery)
    requires LogInv(env, s) && d.key in s.rows.data && s.rows.data[d.key] == d && d.status == Dead
    ensures LogInv(env, Rewritten(s, d))
  {
    var t := Rewritten(s, d);
    forall j | j in t.rows.data ensures FromLog(env.policy, t.rows.data, t.calls, j) {
      assert FromLog(env.policy, s.rows.data, s.calls, j);
    }
  }

  lemma ReviveKeepsLog(env: Env, s: Ledger, d: Delivery)
    requires Good(env, s) && d.key in s.rows.data && s.rows.data[d.key] == d && d.status == Dead
    ensures Good(env, Revive(env, s, d))
  {
    ReviveKeepsInv(env, s, d);
    RewrittenBase(env, s, d);
    RewrittenKeepsLog(env, s, d);
    RetryKeepsLog(env, Rewritten(s, d), d.key);
    hide Inv, AttemptPending, LogInv, OnlyLastSucceeds;
  }

  lemma {:induction false} ReviveAllKeepsLog(env: Env, s: Ledger, ds: seq<Delivery>, eventId: string, source: string)
    requires Good(env, s) && DeadList(s, ds)
    ensures Good(env, ReviveAll(env, s, ds, eventId, source).0)
  {
    if ds != [] {
      hide Inv, LogInv, OnlyLastSucceeds, Revive;
      var front, d := ds[..|ds| - 1], ds[|ds| - 1];
      ReviveAllKeepsLog(env, s, front, eventId, source);
      if OfEvent(d, eventId, source) {
        ReviveAllEffect(env, s, front, eventId, source);
        KeysOfMembers(front, eventId, source, d.key);
        var t := ReviveAll(env, s, front, eventId, source).0;
        assert d.key in s.rows.data.Keys && d.key in t.rows.data.Keys;
        ReviveKeepsLog(env, t, d);
      }
    }
  }

  lemma ApplyKeepsLog(env: Env, s: Ledger, op: Op)
    requires FreshNames(env) && Good(env, s)
    ensures Good(env, Apply(env, s, op))
  {
    ApplyKeepsInv(env, s, op);
    match op {
      case DoPublish(body, principal, org) => PublishKeepsLog(env, s, body, principal, org);
      case DoSubscribe(principal, org, kind, consumer, target, grantRef) =>
        SubscribeKeepsInv(env, s, principal, org, kind, consumer, target, grantRef);
      case DoUnsubscribe(id) =>
      case DoReplay(eventId, source, org) =>
        DeadRowsAreDead(env, s, org);
        ReviveAllKeepsLog(env, s, DeadRows(s, org), eventId, source);
      case DoRetry(key) => RetryKeepsLog(env, s, key);
    }
  }

  lemma {:induction false} ExecKeepsLog(env: Env, ops: seq<Op>)
    requires FreshNames(env)
    ensures Good(env, Exec(env, ops))
  {
    if ops == [] {
      BlankInv(env);
    } else {
      hide Good, FreshNames, Apply;
      ExecKeepsLog(env, ops[..|ops| - 1]);
      ApplyKeepsLog(env, Exec(env, ops[..|ops| - 1]), ops[|ops| - 1]);
    }
  }

  // ----- what every run shows -----

  /** A row says delivered exactly when the last call made for it succeeded, and no call was made after a success. */
  lemma DeliveredExactlyWhenLastSucceeded(env: Env, ops: seq<Op>, k: RowKey)
    requires FreshNames(env)
    ensures var s := Exec(env, ops);
            && (k in s.rows.data <==> LastFor(s.calls, k).Some?)
            && (IsDelivered(s.rows.data, k) <==> LastFor(s.calls, k).Some? && LastFor(s.calls, k).value.error.None?)
            && OnlyLastSucceeds(s.calls)
  {
    ExecKeepsLog(env, ops);
    var s := Exec(env, ops);
    hide Exec, StatusOk, RowBase;
    assert CallsFor(s.calls, k) == AttemptsOf(s.rows.data, k);
    LastNeedsCalls(s.calls, k);
    if k in s.rows.data { assert FromLog(env.policy, s.rows.data, s.calls, k); }
  }

  lemma {:induction false} LastNeedsCalls(calls: seq<Call>, k: RowKey)
    ensures LastFor(calls, k).Some? <==> CallsFor(calls, k) > 0
  {
    if calls != [] { LastNeedsCalls(calls[..|calls| - 1], k); }
  }

  /** Every call logged for the row raised. */
  ghost predicate AllFailed(calls: seq<Call>, k: RowKey) {
    forall i :: 0 <= i < |calls| && KeyOf(calls[i].event, calls[i].sub) == k ==> calls[i].error.Some?
  }

  lemma {:induction false} LastFailed(calls: seq<Call>, k: RowKey)
    requires AllFailed(calls, k)
    ensures LastFor(calls, k).Some? ==> LastFor(calls, k).value.error.Some?
  {
    if calls != [] {
      var front := calls[..|calls| - 1];
      assert AllFailed(front, k);
      LastFailed(front, k);
    }
  }

  /** A replay of the event this row delivers. */
  predicate Replays(op: Op, k: RowKey) {
    op.DoReplay? && op.eventId == k.eventId && op.source == k.source
  }

  lemma OnlyItsReplayStrands(env: Env, s: Ledger, op: Op, k: RowKey)
    requires FreshNames(env) && Inv(env, s) && !Replays(op, k) && Stranded(Apply(env, s, op), k)
    ensures Stranded(s, k)
  {
    if op.DoReplay? {
      hide Inv;
      ReplayEffect(env, s, op.eventId, op.source, op.org);
      assert k in s.rows.data.Keys && k !in DeadKeys(s, op.eventId, op.source, op.org);
    } else {
      OnlyReplayStrands(env, s, op, k);
    }
  }

  lemma {:induction false} UnreplayedIsNotStranded(env: Env, ops: seq<Op>, k: RowKey)
    requires FreshNames(env) && forall i :: 0 <= i < |ops| ==> !Replays(ops[i], k)
    ensures !Stranded(Exec(env, ops), k)
  {
    if ops != [] {
      hide FreshNames, Inv, Apply, Stranded;
      var front := ops[..|ops| - 1];
      UnreplayedIsNotStranded(env, front, k);
      ExecKeepsInv(env, front);
      if Stranded(Exec(env, ops), k) { OnlyItsReplayStrands(env, Exec(env, front), ops[|ops| - 1], k); }
    } else {
      NothingIsStranded(k);
    }
  }

  lemma NothingIsStranded(k: RowKey)
    ensures !Stranded(BLANK, k)
  {
  }

  /** The row of n failed calls, the last of which started at this time. */
  predicate FailingRow(p: Backoff.Policy, row: Delivery, n: nat, last: Call) {
    && n >= 1 && row.attempts == n && row.lastError == last.error
    && (n < p.maxAttempts ==>
          var wait := Backoff.Twice(p.base, n - 1);
          row.status == Pending && row.nextAttemptAt == Some(last.at + if wait <= p.cap then wait else p.cap))
    && (n >= p.maxAttempts ==> row.nextAttemptAt.None? && row.status in {Dead, Pending})
  }

  lemma AllFailedRow(env: Env, s: Ledger, k: RowKey)
    requires Good(env, s) && k in s.rows.data && AllFailed(s.calls, k)
    ensures LastFor(s.calls, k).Some?
    ensures FailingRow(env.policy, s.rows.data[k], CallsFor(s.calls, k), LastFor(s.calls, k).value)
  {
    LastFailed(s.calls, k);
    LastNeedsCalls(s.calls, k);
    if CallsFor(s.calls, k) > 0 { Backoff.DelayIsBaseDoubled(env.policy, CallsFor(s.calls, k)); }
    hide Inv, AllFailed, Backoff.Delay, Backoff.Twice;
    assert FromLog(env.policy, s.rows.data, s.calls, k);
  }

  lemma StrandedByReplay(env: Env, ops: seq<Op>, k: RowKey)
    requires FreshNames(env) && Stranded(Exec(env, ops), k)
    ensures k.subId !in Exec(env, ops).subs.data && exists i :: 0 <= i < |ops| && Replays(ops[i], k)
  {
    hide FreshNames, Exec, RowBase;
    ExecKeepsInv(env, ops);
    assert StatusOk(env.policy, Exec(env, ops), k);
    hide Inv;
    if forall i :: 0 <= i < |ops| ==> !Replays(ops[i], k) { UnreplayedIsNotStranded(env, ops, k); }
  }

  /**
   In every run, whatever other handlers do: a row whose calls have all failed is dead exactly
   from attempt max_attempts on, and before that pending until the base, doubled once for each
   attempt before the last and capped, has passed from the start of that. Only a replay of its
   event, its subscription gone, can leave it pending with nothing scheduled.
   */
  lemma AlwaysFailing(env: Env, ops: seq<Op>, k: RowKey)
    requires FreshNames(env)
    requires k in Exec(env, ops).rows.data && AllFailed(Exec(env, ops).calls, k)
    ensures var s := Exec(env, ops);
            var row, n := s.rows.data[k], CallsFor(s.calls, k);
            && LastFor(s.calls, k).Some? && FailingRow(env.policy, row, n, LastFor(s.calls, k).value)
            && (row.status == Dead <==> n >= env.policy.maxAttempts && !Stranded(s, k))
            && (Stranded(s, k) ==> k.subId !in s.subs.data && exists i :: 0 <= i < |ops| && Replays(ops[i], k))
  {
    hide FreshNames, Exec, Good;
    ExecKeepsLog(env, ops);
    AllFailedRow(env, Exec(env, ops), k);
    if Stranded(Exec(env, ops), k) { StrandedByReplay(env, ops, k); }
    hide AllFailed, Replays;
  }

  /** How long an operation put the next attempt of the row off, if it made one. */
  function PutOff(s: Ledger, t: Ledger, k: RowKey): real {
    if CallsFor(t.calls, k) > CallsFor(s.calls, k) && k in t.rows.data && t.rows.data[k].nextAttemptAt.Some?
       && LastFor(t.calls, k).Some?
    then t.rows.data[k].nextAttemptAt.value - LastFor(t.calls, k).value.at else 0.0
  }

  function TotalPutOff(env: Env, ops: seq<Op>, k: RowKey): real {
    if ops == [] then 0.0
    else
      var front := ops[..|ops| - 1];
      TotalPutOff(env, front, k) + PutOff(Exec(env, front), Exec(env, ops), k)
  }

  lemma {:induction false} CallsForPrefix(calls: seq<Call>, more: seq<Call>, k: RowKey)
    requires calls <= more
    ensures CallsFor(calls, k) <= CallsFor(more, k)
  {
    if |more| > |calls| {
      CallsForPrefix(calls, more[..|more| - 1], k);
    } else {
      assert calls == more;
    }
  }

  lemma {:induction false} AttemptAllExtends(env: Env, s: Ledger, event: Event, subs: seq<Subscription>)
    ensures s.calls <= AttemptAll(env, s, event, subs).calls
  {
    if subs != [] {
      AttemptAllExtends(env, s, event, subs[..|subs| - 1]);
    }
  }

  lemma {:induction false} ReviveAllExtends(env: Env, s: Ledger, ds: seq<Delivery>, eventId: string, source: string)
    ensures s.calls <= ReviveAll(env, s, ds, eventId, source).0.calls
  {
    if ds != [] {
      ReviveAllExtends(env, s, ds[..|ds| - 1], eventId, source);
    }
  }

  lemma ApplyExtends(env: Env, s: Ledger, op: Op)
    ensures s.calls <= Apply(env, s, op).calls
  {
    match op {
      case DoPublish(body, principal, org) =>
        PublishCases(env, s, body, principal, org);
        var event := Stamped(env, s, body, principal, org);
        AttemptAllExtends(env, RecordEvent(Asked(env, s, body), event).0, event,
                          Matching(RecordEvent(Asked(env, s, body), event).0, event.org, event.kind));
      case DoSubscribe(_, _, _, _, _, _) =>
      case DoUnsubscribe(_) =>
      case DoReplay(eventId, source, org) => ReviveAllExtends(env, s, DeadRows(s, org), eventId, source);
      case DoRetry(_) =>
    }
  }

  /** Delays that can still have been scheduled after n attempts. */
  function Scheduled(p: Backoff.Policy, n: nat): nat {
    if n < p.maxAttempts then n else if p.maxAttempts == 0 then 0 else p.maxAttempts - 1
  }

  lemma {:induction false} TotalDelayGrows(p: Backoff.Policy, m: nat, n: nat)
    requires Backoff.Sane(p) && m <= n
    ensures Backoff.TotalDelay(p, m) <= Backoff.TotalDelay(p, n)
  {
    if m < n {
      TotalDelayGrows(p, m, n - 1);
      Backoff.DelayBounds(p, n);
    }
  }

  /** One operation schedules at most the delay of the attempts it made. */
  lemma PutOffIsDelay(env: Env, s: Ledger, t: Ledger, k: RowKey)
    requires Good(env, t) && Backoff.Sane(env.policy) && s.calls <= t.calls
    ensures var m, n := Scheduled(env.policy, CallsFor(s.calls, k)), Scheduled(env.policy, CallsFor(t.calls, k));
            Backoff.TotalDelay(env.policy, m) + PutOff(s, t, k) <= Backoff.TotalDelay(env.policy, n)
  {
    hide Inv;
    CallsForPrefix(s.calls, t.calls, k);
    var m, n := Scheduled(env.policy, CallsFor(s.calls, k)), Scheduled(env.policy, CallsFor(t.calls, k));
    TotalDelayGrows(env.policy, m, n);
    if PutOff(s, t, k) != 0.0 {
      assert FromLog(env.policy, t.rows.data, t.calls, k);
      assert m < n && PutOff(s, t, k) == Backoff.Delay(env.policy, n);
      TotalDelayGrows(env.policy, m, n - 1);
    }
  }

  lemma {:induction false} PutOffUpTo(env: Env, ops: seq<Op>, k: RowKey)
    requires FreshNames(env) && Backoff.Sane(env.policy)
    ensures TotalPutOff(env, ops, k)
            <= Backoff.TotalDelay(env.policy, Scheduled(env.policy, CallsFor(Exec(env, ops).calls, k)))
  {
    if ops != [] {
      hide FreshNames, Good, PutOff, Apply, Scheduled;
      var front := ops[..|ops| - 1];
      PutOffUpTo(env, front, k);
      ExecKeepsLog(env, ops);
      ApplyExtends(env, Exec(env, front), ops[|ops| - 1]);
      PutOffIsDelay(env, Exec(env, front), Exec(env, ops), k);
    }
  }

  /** In every run all the waiting ever scheduled for a row is bounded by the geometric sum and by the capped sum. */
  lemma ScheduleBounded(env: Env, ops: seq<Op>, k: RowKey)
    requires FreshNames(env) && Backoff.Sane(env.policy)
    ensures var m := env.policy.maxAttempts - 1;
            TotalPutOff(env, ops, k) <= Backoff.Min(Backoff.Geometric(env.policy, m), Backoff.AllCapped(env.policy, m))
  {
    var m := env.policy.maxAttempts - 1;
    PutOffUpTo(env, ops, k);
    TotalDelayGrows(env.policy, Scheduled(env.policy, CallsFor(Exec(env, ops).calls, k)), m);
    Backoff.TotalDelayBound(env.policy, m);
    hide Exec, TotalPutOff;
  }
}
