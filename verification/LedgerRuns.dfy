/** What every sequential run of the bus keeps. */
module LedgerRuns {
  import opened Wrappers
  import opened Deliveries
  import opened Dict
  import opened LedgerSpec
  import Backoff
  import Glob
  import Leases

  // ----- the invariant -----

  /** Name generation never repeats itself. */
  ghost predicate FreshNames(env: Env) {
    forall i: nat, j: nat :: env.newName(i) == env.newName(j) ==> i == j
  }

  ghost predicate Named(env: Env, n: nat, name: string) {
    exists i: nat :: i < n && name == env.newName(i)
  }

  /** Handler calls made for a row. */
  function CallsFor(calls: seq<Call>, k: RowKey): nat {
    if calls == [] then 0
    else
      var c := calls[|calls| - 1];
      CallsFor(calls[..|calls| - 1], k) + if KeyOf(c.event, c.sub) == k then 1 else 0
  }

  predicate Recorded(s: Ledger, event: Event) {
    (event.source, event.id) in s.events && s.events[(event.source, event.id)] == event
  }

  ghost predicate RowBase(env: Env, s: Ledger, k: RowKey)
    requires k in s.rows.data
  {
    && s.rows.data[k].key == k
    && (k.source, k.eventId) in s.events
    && Named(env, s.names, k.subId)
    && s.rows.data[k].attempts >= 1
    && (k.subId in s.subs.data ==>
          var event := s.events[(k.source, k.eventId)];
          Matches(event.org, event.kind, s.subs.data[k.subId]))
  }

  /**
   delivered: no error, nothing scheduled.  dead: an error, nothing scheduled, the attempts used up.
   pending: an error, and either a next time and attempts left, or (after a replay) no subscription.
   */
  predicate StatusOk(p: Backoff.Policy, s: Ledger, k: RowKey)
    requires k in s.rows.data
  {
    var row := s.rows.data[k];
    match row.status
    case Delivered => row.lastError.None? && row.nextAttemptAt.None?
    case Dead => row.lastError.Some? && row.nextAttemptAt.None? && row.attempts >= p.maxAttempts
    case Pending =>
      && row.lastError.Some?
      && (row.nextAttemptAt.Some? ==> row.attempts < p.maxAttempts)
      && (row.nextAttemptAt.None? ==> row.attempts >= p.maxAttempts && k.subId !in s.subs.data)
  }

  predicate CallOk(c: Call) {
    Matches(c.event.org, c.event.kind, c.sub)
  }

  ghost predicate SubsOk(env: Env, s: Ledger) {
    forall id :: id in s.subs.data ==> s.subs.data[id].id == id && Named(env, s.names, id)
  }

  ghost predicate EventsOk(s: Ledger) {
    forall e :: e in s.events ==> (s.events[e].source, s.events[e].id) == e
  }

  ghost predicate Counted(s: Ledger) {
    forall k :: CallsFor(s.calls, k) == AttemptsOf(s.rows.data, k)
  }

  /** Everything but the state each row is in. */
  ghost predicate Base(env: Env, s: Ledger) {
    && s.leases == map[]
    && Valid(s.subs) && Valid(s.rows)
    && SubsOk(env, s) && EventsOk(s) && Counted(s)
    && (forall k :: k in s.rows.data ==> RowBase(env, s, k))
    && (forall i :: 0 <= i < |s.calls| ==> CallOk(s.calls[i]))
  }

  ghost predicate Inv(env: Env, s: Ledger) {
    Base(env, s) && forall k :: k in s.rows.data ==> StatusOk(env.policy, s, k)
  }

  lemma NamedGrows(env: Env, n: nat, m: nat, name: string)
    requires Named(env, n, name) && n <= m
    ensures Named(env, m, name)
  {
  }

  lemma NewNameIsNew(env: Env, n: nat)
    requires FreshNames(env)
    ensures !Named(env, n, env.newName(n)) && Named(env, n + 1, env.newName(n))
  {
  }

  // ----- one attempt -----

  /** With no lease outstanding, an attempt is one handler call and one row, and leaves no lease. */
  lemma AttemptEffect(env: Env, s: Ledger, event: Event, sub: Subscription)
    requires s.leases == map[]
    ensures var k := KeyOf(event, sub);
            var error := env.handler(|s.calls|);
            var row := RowAfter(env.policy, k, AttemptsOf(s.rows.data, k) + 1, error, env.clock(s.ticks));
            Attempt(env, s, event, sub) ==
            if IsDelivered(s.rows.data, k) then s
            else Ledger(s.events, s.subs, Put(s.rows, k, row), map[],
                        s.calls + [Call(sub, event, error, env.clock(s.ticks))],
                        s.names + 1, s.ticks + 1)
  {
    var k := KeyOf(event, sub);
    var now, holder := env.clock(s.ticks), env.newName(s.names);
    var leases := Leases.Acquire(s.leases, LeaseKey(k), holder, now + env.leaseTtl, now).0;
    assert Leases.Release(leases, LeaseKey(k), holder) == map[];
  }

  lemma CallsForAppend(calls: seq<Call>, c: Call, k: RowKey)
    ensures CallsFor(calls + [c], k) == CallsFor(calls, k) + if KeyOf(c.event, c.sub) == k then 1 else 0
  {
    assert (calls + [c])[..|calls|] == calls;
  }

  predicate Ready(s: Ledger, event: Event, sub: Subscription) {
    && Recorded(s, event)
    && sub.id in s.subs.data && s.subs.data[sub.id] == sub
    && Matches(event.org, event.kind, sub)
  }

  lemma AttemptKeepsRows(env: Env, s: Ledger, event: Event, sub: Subscription)
    requires s.leases == map[] && Ready(s, event, sub)
    requires Valid(s.rows) && Counted(s) && Named(env, s.names, sub.id)
    requires forall j :: j in s.rows.data ==> RowBase(env, s, j)
    ensures var t := Attempt(env, s, event, sub);
            Valid(t.rows) && Counted(t) && forall j :: j in t.rows.data ==> RowBase(env, t, j)
  {
    var t := Attempt(env, s, event, sub);
    var k := KeyOf(event, sub);
    AttemptEffect(env, s, event, sub);
    if !IsDelivered(s.rows.data, k) {
      PutValid(s.rows, k, t.rows.data[k]);
      forall j ensures CallsFor(t.calls, j) == AttemptsOf(t.rows.data, j) {
        CallsForAppend(s.calls, t.calls[|s.calls|], j);
      }
      NamedGrows(env, s.names, t.names, sub.id);
      forall j | j in t.rows.data ensures RowBase(env, t, j) {
        if j != k { NamedGrows(env, s.names, t.names, j.subId); assert RowBase(env, s, j); }
      }
    }
  }

  lemma AttemptKeepsBase(env: Env, s: Ledger, event: Event, sub: Subscription)
    requires Base(env, s) && Ready(s, event, sub)
    ensures Base(env, Attempt(env, s, event, sub))
  {
    var t := Attempt(env, s, event, sub);
    AttemptEffect(env, s, event, sub);
    AttemptKeepsRows(env, s, event, sub);
    forall id | id in t.subs.data ensures t.subs.data[id].id == id && Named(env, t.names, id) {
      NamedGrows(env, s.names, t.names, id);
    }
  }

  lemma AttemptKeepsStatus(env: Env, s: Ledger, event: Event, sub: Subscription)
    requires s.leases == map[]
    requires forall j :: j in s.rows.data && j != KeyOf(event, sub) ==> StatusOk(env.policy, s, j)
    requires IsDelivered(s.rows.data, KeyOf(event, sub)) ==> StatusOk(env.policy, s, KeyOf(event, sub))
    ensures var t := Attempt(env, s, event, sub);
            forall j :: j in t.rows.data ==> StatusOk(env.policy, t, j)
  {
    AttemptEffect(env, s, event, sub);
  }

  // ----- publish -----

  ghost predicate FanOutPre(s: Ledger, event: Event, subs: seq<Subscription>) {
    && s.leases == map[]
    && (forall i, j :: 0 <= i < j < |subs| ==> subs[i].id != subs[j].id)
    && (forall k :: k in s.rows.data ==> !(k.eventId == event.id && k.source == event.source))
  }

  /** t is s with one new row, of one attempt, for each of these subscriptions. */
  ghost predicate FannedOut(s: Ledger, t: Ledger, event: Event, subs: seq<Subscription>) {
    && |t.calls| == |s.calls| + |subs|
    && (forall k :: k in t.rows.data <==> k in s.rows.data || exists i :: 0 <= i < |subs| && k == KeyOf(event, subs[i]))
    && (forall k :: k in s.rows.data ==> t.rows.data[k] == s.rows.data[k])
    && (forall i :: 0 <= i < |subs| ==> t.rows.data[KeyOf(event, subs[i])].attempts == 1)
  }

  lemma {:induction false} FanOutKeepsInv(env: Env, s: Ledger, event: Event, subs: seq<Subscription>)
    requires Inv(env, s) && forall i :: 0 <= i < |subs| ==> Ready(s, event, subs[i])
    ensures var t := AttemptAll(env, s, event, subs);
            Inv(env, t) && t.events == s.events && t.subs == s.subs && s.names <= t.names
  {
    if subs != [] {
      var front, last := subs[..|subs| - 1], subs[|subs| - 1];
      FanOutKeepsInv(env, s, event, front);
      var t := AttemptAll(env, s, event, front);
      assert Ready(s, event, last);
      AttemptKeepsBase(env, t, event, last);
      AttemptKeepsStatus(env, t, event, last);
      AttemptEffect(env, t, event, last);
    }
  }

  lemma FanOutStep(env: Env, s: Ledger, t: Ledger, event: Event, front: seq<Subscription>, last: Subscription)
    requires FannedOut(s, t, event, front) && t.leases == map[]
    requires forall i :: 0 <= i < |front| ==> front[i].id != last.id
    requires KeyOf(event, last) !in s.rows.data
    ensures FannedOut(s, Attempt(env, t, event, last), event, front + [last])
    ensures Attempt(env, t, event, last).leases == map[]
  {
    var subs, k := front + [last], KeyOf(event, last);
    AttemptEffect(env, t, event, last);
    hide Attempt, RowAfter;
    assert k !in t.rows.data;
    var u := Attempt(env, t, event, last);
    forall j
      ensures j in u.rows.data <==> j in s.rows.data || exists i :: 0 <= i < |subs| && j == KeyOf(event, subs[i])
    {
      if j == k { assert subs[|front|] == last; }
      if i :| 0 <= i < |front| && j == KeyOf(event, front[i]) { assert subs[i] == front[i]; }
    }
  }

  lemma {:induction false} FanOut(env: Env, s: Ledger, event: Event, subs: seq<Subscription>)
    requires FanOutPre(s, event, subs)
    ensures FannedOut(s, AttemptAll(env, s, event, subs), event, subs)
    ensures AttemptAll(env, s, event, subs).leases == map[]
  {
    if subs == [] {
      FansNothing(s, event);
    } else {
      var front, last := subs[..|subs| - 1], subs[|subs| - 1];
      assert subs == front + [last];
      FanOutFront(s, event, front, last);
      hide Attempt, FannedOut, FanOutPre;
      FanOut(env, s, event, front);
      FanOutStep(env, s, AttemptAll(env, s, event, front), event, front, last);
    }
  }

  lemma FansNothing(s: Ledger, event: Event)
    ensures FannedOut(s, s, event, [])
  {
  }

  lemma FanOutFront(s: Ledger, event: Event, front: seq<Subscription>, last: Subscription)
    requires FanOutPre(s, event, front + [last])
    ensures FanOutPre(s, event, front) && KeyOf(event, last) !in s.rows.data && s.leases == map[]
    ensures forall i :: 0 <= i < |front| ==> front[i].id != last.id
  {
    var subs := front + [last];
    assert subs[|front|] == last && forall i :: 0 <= i < |front| ==> subs[i] == front[i];
  }

  lemma MatchingIsReady(env: Env, s: Ledger, event: Event)
    requires Base(env, s) && Recorded(s, event)
    ensures var subs := Matching(s, event.org, event.kind);
            && (forall i :: 0 <= i < |subs| ==> Ready(s, event, subs[i]))
            && (forall i, j :: 0 <= i < j < |subs| ==> subs[i].id != subs[j].id)
            && (forall id :: id in s.subs.data && Matches(event.org, event.kind, s.subs.data[id]) ==>
                 s.subs.data[id] in subs)
  {
    var test := (sub: Subscription) => Matches(event.org, event.kind, sub);
    var subs := Matching(s, event.org, event.kind);
    var ids := PickKeys(s.subs, s.subs.order, test);
    assert forall i :: 0 <= i < |subs| ==> subs[i].id == ids[i];
    forall i | 0 <= i < |subs| ensures Ready(s, event, subs[i]) { SelectMembers(s.subs, test, subs[i]); }
    forall id | id in s.subs.data && Matches(event.org, event.kind, s.subs.data[id]) ensures s.subs.data[id] in subs {
      SelectMembers(s.subs, test, s.subs.data[id]);
    }
  }

  /** The ledger proper: what callers can observe, without the counters. */
  predicate SameLedger(s: Ledger, t: Ledger) {
    t.events == s.events && t.subs == s.subs && t.rows == s.rows && t.leases == s.leases && t.calls == s.calls
  }

  lemma SameLedgerKeepsInv(env: Env, s: Ledger, t: Ledger)
    requires Inv(env, s) && SameLedger(s, t) && s.names <= t.names
    ensures Inv(env, t)
  {
    forall id | id in t.subs.data ensures t.subs.data[id].id == id && Named(env, t.names, id) {
      NamedGrows(env, s.names, t.names, id);
    }
    forall k | k in t.rows.data ensures RowBase(env, t, k) && StatusOk(env.policy, t, k) {
      assert RowBase(env, s, k) && StatusOk(env.policy, s, k);
      NamedGrows(env, s.names, t.names, k.subId);
    }
  }

  lemma RecordKeepsInv(env: Env, s: Ledger, event: Event)
    requires Inv(env, s) && (event.source, event.id) !in s.events
    ensures Inv(env, RecordEvent(s, event).0) && Recorded(RecordEvent(s, event).0, event)
    ensures forall k :: k in s.rows.data ==> !(k.eventId == event.id && k.source == event.source)
  {
    var t := RecordEvent(s, event).0;
    forall k | k in s.rows.data
      ensures !(k.eventId == event.id && k.source == event.source) && RowBase(env, t, k) && StatusOk(env.policy, t, k)
    {
      assert RowBase(env, s, k) && StatusOk(env.policy, s, k);
    }
  }

  /** The event a publish stamps. */
  function Stamped(env: Env, s: Ledger, body: Body, principal: string, org: string): Event {
    Stamp(env, s, body, principal, org).0
  }

  /**
   The event is appended; its rows are exactly the matching subscriptions, one attempt and one
   handler call each; every other row is as it was.
   */
  ghost predicate FirstPublished(s: Ledger, t: Ledger, event: Event) {
    && t.events == s.events[(event.source, event.id) := event] && t.subs == s.subs
    && |t.calls| == |s.calls| + |Matching(s, event.org, event.kind)|
    && (forall k :: k in s.rows.data ==> k in t.rows.data && t.rows.data[k] == s.rows.data[k])
    && (forall k :: k in t.rows.data && k !in s.rows.data ==>
          k.eventId == event.id && k.source == event.source && t.rows.data[k].attempts == 1)
    && (forall k: RowKey :: k.eventId == event.id && k.source == event.source ==>
          (k in t.rows.data <==> k.subId in s.subs.data && Matches(event.org, event.kind, s.subs.data[k.subId])))
  }

  lemma FirstPublishEffect(env: Env, s: Ledger, event: Event)
    requires Inv(env, s) && (event.source, event.id) !in s.events
    ensures var t := Dispatch(env, RecordEvent(s, event).0, event);
            Inv(env, t) && s.names <= t.names && FirstPublished(s, t, event)
  {
    RecordKeepsInv(env, s, event);
    var s1 := RecordEvent(s, event).0;
    MatchingIsReady(env, s1, event);
    var subs := Matching(s1, event.org, event.kind);
    assert subs == Matching(s, event.org, event.kind);
    FanOutKeepsInv(env, s1, event, subs);
    FanOut(env, s1, event, subs);
    FanOutKeys(env, s1, event);
  }

  /** The ledger once the checks of a publish have read the clock (and a name, if the body has no id). */
  function Asked(env: Env, s: Ledger, body: Body): Ledger {
    s.(names := if body.id != "" then s.names else s.names + 1, ticks := s.ticks + 1)
  }

  lemma PublishCases(env: Env, s: Ledger, body: Body, principal: string, org: string)
    ensures var (t, reply) := Publish(env, s, body, principal, org);
            var event := Stamped(env, s, body, principal, org);
            var asked := Asked(env, s, body);
            && (!reply.Published? || reply.deduped ==> t == asked)
            && (reply.Published? ==> reply.id == event.id && (reply.deduped <==> (event.source, event.id) in s.events))
            && (reply.Published? && !reply.deduped ==> t == Dispatch(env, RecordEvent(asked, event).0, event))
  {
  }

  lemma FirstPublishedFrom(s: Ledger, s': Ledger, t: Ledger, event: Event)
    requires SameLedger(s, s') && FirstPublished(s', t, event)
    ensures FirstPublished(s, t, event)
  {
    assert Matching(s, event.org, event.kind) == Matching(s', event.org, event.kind);
  }

  /**
   A rejected or repeated publish leaves the ledger as it was; a first publish appends the
   event and delivers it once to each matching subscription.
   */
  lemma PublishEffect(env: Env, s: Ledger, body: Body, principal: string, org: string)
    requires Inv(env, s)
    ensures var (t, reply) := Publish(env, s, body, principal, org);
            var event := Stamped(env, s, body, principal, org);
            && Inv(env, t) && s.names <= t.names
            && event.org == org && event.principal == principal
            && (!reply.Published? ==> SameLedger(s, t))
            && (reply.Published? ==>
                  && reply.id == event.id
                  && (reply.deduped <==> (event.source, event.id) in s.events)
                  && (if reply.deduped then SameLedger(s, t) else FirstPublished(s, t, event)))
  {
    var event, asked := Stamped(env, s, body, principal, org), Asked(env, s, body);
    PublishCases(env, s, body, principal, org);
    SameLedgerKeepsInv(env, s, asked);
    if (event.source, event.id) !in s.events {
      FirstPublishEffect(env, asked, event);
      FirstPublishedFrom(s, asked, Dispatch(env, RecordEvent(asked, event).0, event), event);
    }
  }

  lemma FanOutKeys(env: Env, s: Ledger, event: Event)
    requires Base(env, s) && Recorded(s, event)
    ensures var subs := Matching(s, event.org, event.kind);
            forall k: RowKey :: k.eventId == event.id && k.source == event.source ==>
              ((exists i :: 0 <= i < |subs| && k == KeyOf(event, subs[i])) <==>
               k.subId in s.subs.data && Matches(event.org, event.kind, s.subs.data[k.subId]))
  {
    MatchingIsReady(env, s, event);
    var subs := Matching(s, event.org, event.kind);
    forall k: RowKey | k.eventId == event.id && k.source == event.source
      ensures (exists i :: 0 <= i < |subs| && k == KeyOf(event, subs[i])) <==>
              k.subId in s.subs.data && Matches(event.org, event.kind, s.subs.data[k.subId])
    {
      if k.subId in s.subs.data && Matches(event.org, event.kind, s.subs.data[k.subId]) {
        var i :| 0 <= i < |subs| && subs[i] == s.subs.data[k.subId];
        assert k == KeyOf(event, subs[i]);
      }
      if i :| 0 <= i < |subs| && k == KeyOf(event, subs[i]) {
        assert Ready(s, event, subs[i]);
      }
    }
  }

  // ----- replay -----

  /** A replayed row: delivered or dead after one more attempt, or left pending when nobody subscribes. */
  predicate Replayed(s: Ledger, t: Ledger, k: RowKey)
    requires k in s.rows.data && k in t.rows.data
  {
    var before, after := s.rows.data[k], t.rows.data[k];
    if k.subId in s.subs.data
    then after.status in {Delivered, Dead} && after.attempts == before.attempts + 1
    else after == Delivery(k, Pending, before.attempts, before.lastError, None)
  }

  /** The row as `replay` rewrites it before trying again. */
  function Rewritten(s: Ledger, d: Delivery): Ledger {
    s.(rows := Put(s.rows, d.key, Delivery(d.key, Pending, d.attempts, d.lastError, None)))
  }

  lemma RewrittenBase(env: Env, s: Ledger, d: Delivery)
    requires Inv(env, s) && d.key in s.rows.data && s.rows.data[d.key] == d && d.status == Dead
    ensures Base(env, Rewritten(s, d))
    ensures forall j :: j in Rewritten(s, d).rows.data && j != d.key ==> StatusOk(env.policy, Rewritten(s, d), j)
    ensures StatusOk(env.policy, s, d.key)
  {
    var k, s1 := d.key, Rewritten(s, d);
    assert RowBase(env, s, k) && StatusOk(env.policy, s, k);
    PutValid(s.rows, k, s1.rows.data[k]);
    forall j | j in s1.rows.data ensures RowBase(env, s1, j) && (j != k ==> StatusOk(env.policy, s1, j)) {
      assert RowBase(env, s, j) && StatusOk(env.policy, s, j);
    }
    forall j ensures CallsFor(s1.calls, j) == AttemptsOf(s1.rows.data, j) {
      assert CallsFor(s.calls, j) == AttemptsOf(s.rows.data, j);
    }
  }

  /** t is s with exactly these rows replayed. */
  ghost predicate ReplayedTo(s: Ledger, t: Ledger, keys: set<RowKey>) {
    && t.events == s.events && t.subs == s.subs && s.names <= t.names
    && t.rows.data.Keys == s.rows.data.Keys && keys <= s.rows.data.Keys
    && (forall k :: k in s.rows.data && k !in keys ==> t.rows.data[k] == s.rows.data[k])
    && (forall k :: k in keys ==> Replayed(s, t, k))
  }

  lemma ReviveKeepsInv(env: Env, s: Ledger, d: Delivery)
    requires Inv(env, s) && d.key in s.rows.data && s.rows.data[d.key] == d && d.status == Dead
    ensures Inv(env, Revive(env, s, d))
  {
    var k, s1 := d.key, Rewritten(s, d);
    RewrittenBase(env, s, d);
    assert RowBase(env, s, k);
    if k.subId in s.subs.data {
      var event, sub := s.events[(k.source, k.eventId)], s.subs.data[k.subId];
      AttemptKeepsBase(env, s1, event, sub);
      AttemptKeepsStatus(env, s1, event, sub);
    }
  }

  lemma ReviveRows(env: Env, s: Ledger, d: Delivery)
    requires s.leases == map[] && d.key in s.rows.data && s.rows.data[d.key] == d
             && d.attempts >= env.policy.maxAttempts
    requires (d.key.source, d.key.eventId) in s.events && EventsOk(s)
    requires d.key.subId in s.subs.data ==> s.subs.data[d.key.subId].id == d.key.subId
    ensures ReplayedTo(s, Revive(env, s, d), {d.key})
  {
    var k, s1 := d.key, Rewritten(s, d);
    if k.subId in s.subs.data {
      AttemptEffect(env, s1, s.events[(k.source, k.eventId)], s.subs.data[k.subId]);
    }
  }

  lemma ReviveEffect(env: Env, s: Ledger, d: Delivery)
    requires Inv(env, s) && d.key in s.rows.data && s.rows.data[d.key] == d && d.status == Dead
    ensures Inv(env, Revive(env, s, d)) && ReplayedTo(s, Revive(env, s, d), {d.key})
  {
    assert RowBase(env, s, d.key) && StatusOk(env.policy, s, d.key);
    ReviveKeepsInv(env, s, d);
    ReviveRows(env, s, d);
  }

  function KeysOf(ds: seq<Delivery>, eventId: string, source: string): set<RowKey> {
    if ds == [] then {}
    else
      var d, rest := ds[|ds| - 1], KeysOf(ds[..|ds| - 1], eventId, source);
      if OfEvent(d, eventId, source) then rest + {d.key} else rest
  }

  lemma {:induction false} KeysOfMembers(ds: seq<Delivery>, eventId: string, source: string, k: RowKey)
    ensures k in KeysOf(ds, eventId, source)
            <==> exists i :: 0 <= i < |ds| && ds[i].key == k && OfEvent(ds[i], eventId, source)
  {
    if ds != [] {
      KeysOfMembers(ds[..|ds| - 1], eventId, source, k);
      assert forall i :: 0 <= i < |ds| - 1 ==> ds[..|ds| - 1][i] == ds[i];
    }
  }

  ghost predicate DeadList(s: Ledger, ds: seq<Delivery>) {
    && (forall i :: 0 <= i < |ds| ==>
          ds[i].key in s.rows.data && s.rows.data[ds[i].key] == ds[i] && ds[i].status == Dead)
    && (forall i, j :: 0 <= i < j < |ds| ==> ds[i].key != ds[j].key)
  }

  lemma ReplayedCompose(s: Ledger, t: Ledger, u: Ledger, keys: set<RowKey>, k: RowKey)
    requires ReplayedTo(s, t, keys) && ReplayedTo(t, u, {k}) && k !in keys
    ensures ReplayedTo(s, u, keys + {k})
  {
    assert k in t.rows.data.Keys;
    assert forall j :: j in keys ==> u.rows.data[j] == t.rows.data[j];
  }

  lemma ReviveOneMore(env: Env, s: Ledger, t: Ledger, keys: set<RowKey>, d: Delivery)
    requires Inv(env, t) && ReplayedTo(s, t, keys) && d.key !in keys
    requires d.key in s.rows.data && s.rows.data[d.key] == d && d.status == Dead
    ensures Inv(env, Revive(env, t, d)) && ReplayedTo(s, Revive(env, t, d), keys + {d.key})
  {
    assert d.key in s.rows.data.Keys;
    ReviveEffect(env, t, d);
    ReplayedCompose(s, t, Revive(env, t, d), keys, d.key);
  }

  lemma NothingReplayed(s: Ledger)
    ensures ReplayedTo(s, s, {})
  {
  }

  lemma {:induction false} ReviveAllCounts(env: Env, s: Ledger, ds: seq<Delivery>, eventId: string, source: string)
    requires forall i, j :: 0 <= i < j < |ds| ==> ds[i].key != ds[j].key
    ensures ReviveAll(env, s, ds, eventId, source).1 == |KeysOf(ds, eventId, source)|
  {
    if ds != [] {
      var front := ds[..|ds| - 1];
      ReviveAllCounts(env, s, front, eventId, source);
      KeysOfMembers(front, eventId, source, ds[|ds| - 1].key);
    }
  }

  lemma {:induction false} ReviveAllEffect(env: Env, s: Ledger, ds: seq<Delivery>, eventId: string, source: string)
    requires Inv(env, s) && DeadList(s, ds)
    ensures var t := ReviveAll(env, s, ds, eventId, source).0;
            Inv(env, t) && ReplayedTo(s, t, KeysOf(ds, eventId, source))
  {
    if ds == [] {
      NothingReplayed(s);
    } else {
      var front, d := ds[..|ds| - 1], ds[|ds| - 1];
      ReviveAllEffect(env, s, front, eventId, source);
      if OfEvent(d, eventId, source) {
        KeysOfMembers(front, eventId, source, d.key);
        ReviveOneMore(env, s, ReviveAll(env, s, front, eventId, source).0, KeysOf(front, eventId, source), d);
      }
    }
  }

  lemma DeadRowsAreDead(env: Env, s: Ledger, org: string)
    requires Inv(env, s)
    ensures DeadList(s, DeadRows(s, org))
  {
    hide StatusOk, Counted, EventsOk, SubsOk;
    var ds := DeadRows(s, org);
    var test := (d: Delivery) => DeadIn(s, org, d);
    assert forall k :: k in s.rows.data ==> RowBase(env, s, k);
    var keys := PickKeys(s.rows, s.rows.order, test);
    assert forall i :: 0 <= i < |ds| ==> ds[i].key == keys[i];
    forall i | 0 <= i < |ds| ensures ds[i].key in s.rows.data && s.rows.data[ds[i].key] == ds[i]
      && DeadIn(s, org, ds[i]) {
      SelectMembers(s.rows, test, ds[i]);
    }
  }

  /** The dead rows of one event in one org. */
  function DeadKeys(s: Ledger, eventId: string, source: string, org: string): set<RowKey> {
    set k | k in s.rows.data && k.eventId == eventId && k.source == source && s.rows.data[k].status == Dead
            && (source, eventId) in s.events && s.events[(source, eventId)].org == org
  }

  lemma DeadKeysAre(env: Env, s: Ledger, eventId: string, source: string, org: string)
    requires Inv(env, s)
    ensures KeysOf(DeadRows(s, org), eventId, source) == DeadKeys(s, eventId, source, org)
  {
    hide StatusOk, Counted, EventsOk, SubsOk;
    var ds, test := DeadRows(s, org), (d: Delivery) => DeadIn(s, org, d);
    assert forall k :: k in s.rows.data ==> RowBase(env, s, k);
    forall k ensures k in KeysOf(ds, eventId, source) <==> k in DeadKeys(s, eventId, source, org) {
      KeysOfMembers(ds, eventId, source, k);
      forall i | 0 <= i < |ds| && ds[i].key == k ensures k in s.rows.data && s.rows.data[k] == ds[i] && test(ds[i]) {
        SelectMembers(s.rows, test, ds[i]);
      }
      if k in s.rows.data { SelectMembers(s.rows, test, s.rows.data[k]); }
    }
  }

  /**
   Replay counts exactly the dead rows of that event in that org, touches no other row, keeps
   the set of rows, and leaves each touched row delivered, dead once more, or pending unchanged.
   */
  lemma ReplayEffect(env: Env, s: Ledger, eventId: string, source: string, org: string)
    requires Inv(env, s)
    ensures var (t, n) := Replay(env, s, eventId, source, org);
            var touched := DeadKeys(s, eventId, source, org);
            Inv(env, t) && ReplayedTo(s, t, touched) && n == |touched|
  {
    var ds := DeadRows(s, org);
    DeadRowsAreDead(env, s, org);
    DeadKeysAre(env, s, eventId, source, org);
    hide Inv, DeadRows, DeadKeys, ReplayedTo, KeysOf;
    ReviveAllEffect(env, s, ds, eventId, source);
    ReviveAllCounts(env, s, ds, eventId, source);
  }

  // ----- whole runs -----

  datatype Op =
    | DoPublish(body: Body, principal: string, org: string)
    | DoSubscribe(principal: string, org: string, kind: string, consumer: string, target: string, grantRef: string)
    | DoUnsubscribe(id: string)
    | DoReplay(eventId: string, source: string, org: string)
    | DoRetry(key: RowKey)   // attempt_pending on a stored row

  function Apply(env: Env, s: Ledger, op: Op): Ledger {
    match op
    case DoPublish(body, principal, org) => Publish(env, s, body, principal, org).0
    case DoSubscribe(principal, org, kind, consumer, target, grantRef) =>
      Subscribe(env, s, principal, org, kind, consumer, target, grantRef).0
    case DoUnsubscribe(id) => Unsubscribe(s, id)
    case DoReplay(eventId, source, org) => Replay(env, s, eventId, source, org).0
    case DoRetry(key) => if key in s.rows.data then AttemptPending(env, s, key) else s
  }

  function Exec(env: Env, ops: seq<Op>): Ledger {
    if ops == [] then BLANK else Apply(env, Exec(env, ops[..|ops| - 1]), ops[|ops| - 1])
  }

  /**
   A subscription comes under an id no subscription or row ever had, so it starts with no backlog; a
   refused one changes nothing.
   */
  lemma SubscribeKeepsInv(env: Env, s: Ledger, principal: string, org: string, kind: string,
                          consumer: string, target: string, grantRef: string)
    requires FreshNames(env) && Inv(env, s)
    ensures var (t, sub) := Subscribe(env, s, principal, org, kind, consumer, target, grantRef);
            && Inv(env, t) && t.events == s.events && t.rows == s.rows && t.calls == s.calls
            && (sub.None? ==> SameLedger(s, t))
            && (sub.Some? ==>
                  && sub.value.id !in s.subs.data && t.subs.data == s.subs.data[sub.value.id := sub.value]
                  && sub.value.org == org && sub.value.kind == kind
                  && forall k :: k in s.rows.data ==> k.subId != sub.value.id)
  {
    var t := Subscribe(env, s, principal, org, kind, consumer, target, grantRef).0;
    if t.names == s.names {
      SameLedgerKeepsInv(env, s, t);
    } else {
      var id := env.newName(s.names);
      NewNameIsNew(env, s.names);
      assert id !in s.subs.data;
      forall k | k in s.rows.data ensures k.subId != id { assert RowBase(env, s, k); }
      PutValid(s.subs, id, t.subs.data[id]);
      forall x | x in t.subs.data ensures t.subs.data[x].id == x && Named(env, t.names, x) {
        if x != id { NamedGrows(env, s.names, t.names, x); }
      }
      forall k | k in t.rows.data ensures RowBase(env, t, k) && StatusOk(env.policy, t, k) {
        assert RowBase(env, s, k) && StatusOk(env.policy, s, k);
        NamedGrows(env, s.names, t.names, k.subId);
      }
    }
  }

  lemma UnsubscribeKeepsInv(env: Env, s: Ledger, id: string)
    requires Inv(env, s)
    ensures Inv(env, Unsubscribe(s, id))
  {
    var t := Unsubscribe(s, id);
    RemoveValid(s.subs, id);
    forall k | k in t.rows.data ensures RowBase(env, t, k) && StatusOk(env.policy, t, k) {
      assert RowBase(env, s, k) && StatusOk(env.policy, s, k);
    }
  }

  lemma RetryKeepsInv(env: Env, s: Ledger, k: RowKey)
    requires Inv(env, s) && k in s.rows.data
    ensures Inv(env, AttemptPending(env, s, k)) && AttemptPending(env, s, k).events == s.events
  {
    assert RowBase(env, s, k);
    if k.subId in s.subs.data {
      var event, sub := s.events[(k.source, k.eventId)], s.subs.data[k.subId];
      AttemptEffect(env, s, event, sub);
      AttemptKeepsBase(env, s, event, sub);
      AttemptKeepsStatus(env, s, event, sub);
    }
  }

  /** Every operation keeps the invariant and every event ever logged. */
  lemma ApplyKeepsInv(env: Env, s: Ledger, op: Op)
    requires FreshNames(env) && Inv(env, s)
    ensures Inv(env, Apply(env, s, op))
    ensures forall e :: e in s.events ==> e in Apply(env, s, op).events && Apply(env, s, op).events[e] == s.events[e]
  {
    match op {
      case DoPublish(body, principal, org) => PublishEffect(env, s, body, principal, org);
      case DoSubscribe(principal, org, kind, consumer, target, grantRef) =>
        SubscribeKeepsInv(env, s, principal, org, kind, consumer, target, grantRef);
      case DoUnsubscribe(id) => UnsubscribeKeepsInv(env, s, id);
      case DoReplay(eventId, source, org) => ReplayEffect(env, s, eventId, source, org);
      case DoRetry(key) => if key in s.rows.data { RetryKeepsInv(env, s, key); }
    }
  }

  lemma BlankInv(env: Env)
    ensures Inv(env, BLANK)
  {
  }

  lemma {:induction false} ExecKeepsInv(env: Env, ops: seq<Op>)
    requires FreshNames(env)
    ensures Inv(env, Exec(env, ops))
  {
    if ops == [] {
      BlankInv(env);
    } else {
      ExecKeepsInv(env, ops[..|ops| - 1]);
      ApplyKeepsInv(env, Exec(env, ops[..|ops| - 1]), ops[|ops| - 1]);
    }
  }

  /**
   After every run each row is in one of its legal states, its attempts count its handler calls, and
   no lease is left.
   */
  lemma RowsAlwaysLegal(env: Env, ops: seq<Op>, k: RowKey)
    requires FreshNames(env)
    ensures var s := Exec(env, ops);
            && s.leases == map[]
            && CallsFor(s.calls, k) == AttemptsOf(s.rows.data, k)
            && (k in s.rows.data ==> StatusOk(env.policy, s, k))
  {
    ExecKeepsInv(env, ops);
  }

  /** No run ever calls a handler for a subscription of another org, or one whose pattern does not match. */
  lemma HandlersStayInOrg(env: Env, ops: seq<Op>, i: nat)
    requires FreshNames(env) && i < |Exec(env, ops).calls|
    ensures var c := Exec(env, ops).calls[i];
            c.sub.org == c.event.org && Glob.TypeMatches(c.sub.kind, c.event.kind)
  {
    ExecKeepsInv(env, ops);
    assert CallOk(Exec(env, ops).calls[i]);
  }

  predicate Stranded(s: Ledger, k: RowKey) {
    k in s.rows.data && s.rows.data[k].status == Pending && s.rows.data[k].nextAttemptAt.None?
  }

  /** A row pending with nothing scheduled comes only from replay. */
  lemma OnlyReplayStrands(env: Env, s: Ledger, op: Op, k: RowKey)
    requires FreshNames(env) && Inv(env, s) && !op.DoReplay?
    requires Stranded(Apply(env, s, op), k)
    ensures Stranded(s, k)
  {
    ApplyKeepsInv(env, s, op);
    assert StatusOk(env.policy, Apply(env, s, op), k);
    match op {
      case DoPublish(body, principal, org) => PublishEffect(env, s, body, principal, org);
      case DoSubscribe(_, _, _, _, _, _) =>
      case DoUnsubscribe(_) =>
      case DoReplay(_, _, _) =>
      case DoRetry(key) =>
        if key in s.rows.data && key.subId in s.subs.data {
          assert RowBase(env, s, key);
          AttemptEffect(env, s, s.events[(key.source, key.eventId)], s.subs.data[key.subId]);
        }
    }
  }

  // ----- dedup over a run -----

  /** The last operation is a publish accepted for this event key, deduped or not. */
  predicate Accepts(env: Env, s: Ledger, op: Op, key: (string, string), deduped: bool) {
    op.DoPublish? &&
    var event := Stamped(env, s, op.body, op.principal, op.org);
    (event.source, event.id) == key && Publish(env, s, op.body, op.principal, op.org).1 == Published(event.id, deduped)
  }

  /** Accepted publishes of a key that answered deduped = false. */
  function FirstPublishes(env: Env, ops: seq<Op>, key: (string, string)): nat {
    if ops == [] then 0
    else
      var front := ops[..|ops| - 1];
      FirstPublishes(env, front, key) + if Accepts(env, Exec(env, front), ops[|ops| - 1], key, false) then 1 else 0
  }

  /** An operation logs this key exactly when it is the publish answered deduped = false. */
  lemma LogsExactlyWhenNew(env: Env, s: Ledger, op: Op, key: (string, string))
    requires FreshNames(env) && Inv(env, s)
    ensures key in Apply(env, s, op).events <==> key in s.events || Accepts(env, s, op, key, false)
    ensures Accepts(env, s, op, key, false) ==> key !in s.events
    ensures Accepts(env, s, op, key, true) ==> key in s.events && SameLedger(s, Apply(env, s, op))
  {
    ApplyKeepsInv(env, s, op);
    match op {
      case DoPublish(body, principal, org) => PublishEffect(env, s, body, principal, org);
      case DoSubscribe(principal, org, kind, consumer, target, grantRef) =>
        SubscribeKeepsInv(env, s, principal, org, kind, consumer, target, grantRef);
      case DoUnsubscribe(id) =>
      case DoReplay(eventId, source, org) => ReplayEffect(env, s, eventId, source, org);
      case DoRetry(k) => if k in s.rows.data { RetryKeepsInv(env, s, k); }
    }
  }

  /** A key is in the log exactly when one publish of it answered deduped = false, and then exactly one did. */
  lemma {:induction false} PublishedOnce(env: Env, ops: seq<Op>, key: (string, string))
    requires FreshNames(env)
    ensures FirstPublishes(env, ops, key) == if key in Exec(env, ops).events then 1 else 0
  {
    if ops != [] {
      var front := ops[..|ops| - 1];
      PublishedOnce(env, front, key);
      ExecKeepsInv(env, front);
      LogsExactlyWhenNew(env, Exec(env, front), ops[|ops| - 1], key);
    }
  }

  /** The event first logged under a key stays there through the rest of the run. */
  lemma {:induction false} FirstEventStays(env: Env, ops: seq<Op>, n: nat, key: (string, string))
    requires FreshNames(env) && n <= |ops| && key in Exec(env, ops[..n]).events
    ensures key in Exec(env, ops).events && Exec(env, ops).events[key] == Exec(env, ops[..n]).events[key]
  {
    if n == |ops| {
      assert ops[..n] == ops;
    } else {
      var front := ops[..|ops| - 1];
      assert front[..n] == ops[..n];
      FirstEventStays(env, front, n, key);
      ExecKeepsInv(env, front);
      ApplyKeepsInv(env, Exec(env, front), ops[|ops| - 1]);
    }
  }
}
