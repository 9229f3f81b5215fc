/**
 The event bus as a function of its ledger: publish with dedup, subscribe, dispatch under a
 per-delivery lease, and replay of dead deliveries.

 The environment supplies the clock readings, the outcome of every handler call, the fresh
 names and the three checks on a publish, each as an arbitrary function.
 */
module LedgerSpec {
  import opened Wrappers
  import opened Deliveries
  import opened Dict
  import Backoff
  import Glob
  import Leases

  /** handler(n) is the error class the n-th handler call raises, None when it returns. */
  datatype Env = Env(policy: Backoff.Policy, leaseTtl: real, clock: nat -> real,
                     handler: nat -> Option<string>, newName: nat -> string,
                     authorized: (nat, string, string, string) -> bool,
                     envelopeOk: Event -> bool, schemaOk: Event -> bool)

  /** `at` is the clock reading the attempt started with. */
  datatype Call = Call(sub: Subscription, event: Event, error: Option<string>, at: real)

  /** `calls` remembers the handler calls; `names` and `ticks` count names and clock readings used. */
  datatype Ledger = Ledger(events: map<(string, string), Event>, subs: Dict<string, Subscription>,
                           rows: Dict<RowKey, Delivery>, leases: Leases.Table<string>,
                           calls: seq<Call>, names: nat, ticks: nat)

  const BLANK := Ledger(map[], Empty(), Empty(), map[], [], 0, 0)

  // ----- dispatch -----

  /** The part of an attempt that runs under the lease. */
  function Deliver(env: Env, s: Ledger, event: Event, sub: Subscription, now: real): Ledger {
    var k := KeyOf(event, sub);
    if IsDelivered(s.rows.data, k) then s
    else
      var error := env.handler(|s.calls|);
      var row := RowAfter(env.policy, k, AttemptsOf(s.rows.data, k) + 1, error, now);
      s.(rows := Put(s.rows, k, row), calls := s.calls + [Call(sub, event, error, now)])
  }

  function Attempt(env: Env, s: Ledger, event: Event, sub: Subscription): Ledger {
    var k := KeyOf(event, sub);
    if IsDelivered(s.rows.data, k) then s
    else
      var now, holder := env.clock(s.ticks), env.newName(s.names);
      var (leases, granted) := Leases.Acquire(s.leases, LeaseKey(k), holder, now + env.leaseTtl, now);
      var s1 := s.(ticks := s.ticks + 1, names := s.names + 1, leases := leases);
      if !granted then s1
      else
        var s2 := Deliver(env, s1, event, sub, now);
        s2.(leases := Leases.Release(s2.leases, LeaseKey(k), holder))
  }

  function AttemptAll(env: Env, s: Ledger, event: Event, subs: seq<Subscription>): Ledger {
    if subs == [] then s
    else Attempt(env, AttemptAll(env, s, event, subs[..|subs| - 1]), event, subs[|subs| - 1])
  }

  predicate Matches(org: string, kind: string, sub: Subscription) {
    sub.org == org && Glob.TypeMatches(sub.kind, kind)
  }

  function Matching(s: Ledger, org: string, kind: string): seq<Subscription> {
    Select(s.subs, (sub: Subscription) => Matches(org, kind, sub))
  }

  function Dispatch(env: Env, s: Ledger, event: Event): Ledger {
    AttemptAll(env, s, event, Matching(s, event.org, event.kind))
  }

  function AttemptPending(env: Env, s: Ledger, k: RowKey): Ledger {
    if (k.source, k.eventId) !in s.events || k.subId !in s.subs.data then s
    else Attempt(env, s, s.events[(k.source, k.eventId)], s.subs.data[k.subId])
  }

  // ----- the service -----

  datatype Body = Body(id: string, kind: string, schema: string, source: string, payload: string)

  datatype Reply = Published(id: string, deduped: bool) | Denied | BadEnvelope | BadSchema

  /** Org and principal come from the caller's credentials, never from the body. */
  function Stamp(env: Env, s: Ledger, body: Body, principal: string, org: string): (Event, Ledger) {
    var id := if body.id != "" then body.id else env.newName(s.names);
    (Event(id, body.kind, body.schema, body.source, org, principal, body.payload),
     if body.id != "" then s else s.(names := s.names + 1))
  }

  function RecordEvent(s: Ledger, event: Event): (Ledger, bool) {
    if (event.source, event.id) in s.events then (s, false)
    else (s.(events := s.events[(event.source, event.id) := event]), true)
  }

  function Publish(env: Env, s: Ledger, body: Body, principal: string, org: string): (Ledger, Reply) {
    var (event, s1) := Stamp(env, s, body, principal, org);
    var s2 := s1.(ticks := s1.ticks + 1);
    if !env.authorized(s1.ticks, principal, org, event.kind) then (s2, Denied)
    else if !env.envelopeOk(event) then (s2, BadEnvelope)
    else if !env.schemaOk(event) then (s2, BadSchema)
    else
      var (s3, isNew) := RecordEvent(s2, event);
      (if isNew then Dispatch(env, s3, event) else s3, Published(event.id, !isNew))
  }

  function Subscribe(env: Env, s: Ledger, principal: string, org: string, kind: string,
                     consumer: string, target: string, grantRef: string): (Ledger, Option<Subscription>)
  {
    var s1 := s.(ticks := s.ticks + 1);
    if !env.authorized(s.ticks, principal, org, kind) then (s1, None)
    else
      var sub := Subscription(env.newName(s.names), org, consumer, kind, target, grantRef);
      (s1.(names := s.names + 1, subs := Put(s.subs, sub.id, sub)), Some(sub))
  }

  function Unsubscribe(s: Ledger, id: string): Ledger {
    if id in s.subs.data then s.(subs := Remove(s.subs, id)) else s
  }

  predicate DeadIn(s: Ledger, org: string, d: Delivery) {
    && (d.key.source, d.key.eventId) in s.events
    && s.events[(d.key.source, d.key.eventId)].org == org
    && d.status == Dead
  }

  function DeadRows(s: Ledger, org: string): seq<Delivery> {
    Select(s.rows, (d: Delivery) => DeadIn(s, org, d))
  }

  function Revive(env: Env, s: Ledger, d: Delivery): Ledger {
    AttemptPending(env, s.(rows := Put(s.rows, d.key, Delivery(d.key, Pending, d.attempts, d.lastError, None))), d.key)
  }

  predicate OfEvent(d: Delivery, eventId: string, source: string) {
    d.key.eventId == eventId && d.key.source == source
  }

  function ReviveAll(env: Env, s: Ledger, ds: seq<Delivery>, eventId: string, source: string): (Ledger, nat) {
    if ds == [] then (s, 0)
    else
      var (s1, n) := ReviveAll(env, s, ds[..|ds| - 1], eventId, source);
      var d := ds[|ds| - 1];
      if OfEvent(d, eventId, source) then (Revive(env, s1, d), n + 1) else (s1, n)
  }

  function Replay(env: Env, s: Ledger, eventId: string, source: string, org: string): (Ledger, nat) {
    ReviveAll(env, s, DeadRows(s, org), eventId, source)
  }
}
