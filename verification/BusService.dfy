/** The bus in place: the in-memory ledger store, its dispatcher and its service. */
module BusService {
  import opened Wrappers
  import opened Deliveries
  import opened Dict
  import opened LedgerSpec
  import LedgerLog
  import LedgerRuns
  import Leases

  class Bus {
    const env: Env
    var events: map<(string, string), Event>
    var subs: Dict<string, Subscription>
    var rows: Dict<RowKey, Delivery>
    var leases: Leases.Table<string>
    var calls: seq<Call>
    var names: nat
    var ticks: nat

    function State(): Ledger
      reads this
    {
      Ledger(events, subs, rows, leases, calls, names, ticks)
    }

    constructor (env: Env)
      ensures this.env == env && State() == BLANK
    {
      this.env := env;
      events, subs, rows, leases := map[], Empty(), Empty(), map[];
      calls, names, ticks := [], 0, 0;
    }

    method Now() returns (now: real)
      modifies this`ticks
      ensures now == env.clock(old(ticks)) && ticks == old(ticks) + 1
    {
      now := env.clock(ticks);
      ticks := ticks + 1;
    }

    method NewName() returns (name: string)
      modifies this`names
      ensures name == env.newName(old(names)) && names == old(names) + 1
    {
      name := env.newName(names);
      names := names + 1;
    }

    method AcquireLease(key: string, holder: string, until: real, now: real) returns (granted: bool)
      modifies this`leases
      ensures (leases, granted) == Leases.Acquire(old(leases), key, holder, until, now)
    {
      if key !in leases || leases[key].until <= now {
        leases := leases[key := Leases.Lease(holder, until)];
        return true;
      }
      return false;
    }

    method ReleaseLease(key: string, holder: string)
      modifies this`leases
      ensures leases == Leases.Release(old(leases), key, holder)
    {
      if key in leases && leases[key].holder == holder {
        leases := leases - {key};
      }
    }

    /** One call of a handler: it returns, or raises an error of some class. */
    method CallHandler(sub: Subscription, event: Event, at: real) returns (error: Option<string>)
      modifies this`calls
      ensures error == env.handler(|old(calls)|) && calls == old(calls) + [Call(sub, event, error, at)]
    {
      error := env.handler(|calls|);
      calls := calls + [Call(sub, event, error, at)];
    }

    /** The re-read, the call and the row written, all under the lease. */
    method Deliver(event: Event, sub: Subscription, now: real)
      modifies this`rows, this`calls
      ensures State() == LedgerSpec.Deliver(env, old(State()), event, sub, now)
    {
      var k := KeyOf(event, sub);
      if k in rows.data && rows.data[k].status == Delivered {
        return;
      }
      var attempts := (if k in rows.data then rows.data[k].attempts else 0) + 1;
      var error := CallHandler(sub, event, now);
      rows := Put(rows, k, RowAfter(env.policy, k, attempts, error, now));
    }

    method Attempt(event: Event, sub: Subscription)
      modifies this
      ensures State() == LedgerSpec.Attempt(env, old(State()), event, sub)
    {
      var k := KeyOf(event, sub);
      if k in rows.data && rows.data[k].status == Delivered {
        return;
      }
      var now := Now();
      var holder := NewName();
      var granted := AcquireLease(LeaseKey(k), holder, now + env.leaseTtl, now);
      if !granted {
        return;
      }
      Deliver(event, sub, now);
      ReleaseLease(LeaseKey(k), holder);
    }

    method Dispatch(event: Event)
      modifies this
      ensures State() == LedgerSpec.Dispatch(env, old(State()), event)
    {
      var matching := Matching(State(), event.org, event.kind);
      for i := 0 to |matching|
        invariant State() == AttemptAll(env, old(State()), event, matching[..i])
      {
        assert matching[..i + 1][..i] == matching[..i];
        Attempt(event, matching[i]);
      }
      assert matching[..|matching|] == matching;
    }

    method AttemptPending(k: RowKey)
      modifies this
      ensures State() == LedgerSpec.AttemptPending(env, old(State()), k)
    {
      if (k.source, k.eventId) !in events || k.subId !in subs.data {
        return;
      }
      Attempt(events[(k.source, k.eventId)], subs.data[k.subId]);
    }

    method Publish(body: Body, principal: string, org: string) returns (reply: Reply)
      modifies this
      ensures (State(), reply) == LedgerSpec.Publish(env, old(State()), body, principal, org)
    {
      var id := body.id;
      if id == "" {
        id := NewName();
      }
      var event := Event(id, body.kind, body.schema, body.source, org, principal, body.payload);
      var tick := ticks;
      var _ := Now();
      if !env.authorized(tick, principal, org, event.kind) {
        return Denied;
      }
      if !env.envelopeOk(event) {
        return BadEnvelope;
      }
      if !env.schemaOk(event) {
        return BadSchema;
      }
      var isNew := (event.source, event.id) !in events;
      if isNew {
        events := events[(event.source, event.id) := event];
        Dispatch(event);
      }
      return Published(event.id, !isNew);
    }

    method Subscribe(principal: string, org: string, kind: string, consumer: string, target: string,
                     grantRef: string)
      returns (sub: Option<Subscription>)
      modifies this
      ensures (State(), sub) == LedgerSpec.Subscribe(env, old(State()), principal, org, kind, consumer, target,
                                                     grantRef)
    {
      var tick := ticks;
      var _ := Now();
      if !env.authorized(tick, principal, org, kind) {
        return None;
      }
      var id := NewName();
      sub := Some(Subscription(id, org, consumer, kind, target, grantRef));
      subs := Put(subs, id, sub.value);
    }

    method Unsubscribe(id: string)
      modifies this
      ensures State() == LedgerSpec.Unsubscribe(old(State()), id)
    {
      if id in subs.data {
        subs := Remove(subs, id);
      }
    }

    method Replay(eventId: string, source: string, org: string) returns (n: nat)
      modifies this
      ensures (State(), n) == LedgerSpec.Replay(env, old(State()), eventId, source, org)
    {
      var dead := DeadRows(State(), org);
      n := 0;
      for i := 0 to |dead|
        invariant (State(), n) == ReviveAll(env, old(State()), dead[..i], eventId, source)
      {
        assert dead[..i + 1][..i] == dead[..i];
        var d := dead[i];
        if d.key.eventId == eventId && d.key.source == source {
          rows := Put(rows, d.key, Delivery(d.key, Pending, d.attempts, d.lastError, None));
          AttemptPending(d.key);
          n := n + 1;
        }
      }
      assert dead[..|dead|] == dead;
    }

    /** One operation, its reply dropped. */
    method Perform(op: LedgerRuns.Op)
      modifies this
      ensures State() == LedgerRuns.Apply(env, old(State()), op)
    {
      match op
      case DoPublish(body, principal, org) => var _ := Publish(body, principal, org);
      case DoSubscribe(principal, org, kind, consumer, target, grantRef) =>
        var _ := Subscribe(principal, org, kind, consumer, target, grantRef);
      case DoUnsubscribe(id) => Unsubscribe(id);
      case DoReplay(eventId, source, org) => var _ := Replay(eventId, source, org);
      case DoRetry(key) =>
        if key in rows.data {
          AttemptPending(key);
        }
    }

    /** A whole run from an empty bus: it keeps every row legal, counted by its calls and as its last call left it. */
    method RunAll(ops: seq<LedgerRuns.Op>)
      requires State() == BLANK
      modifies this
      ensures State() == LedgerRuns.Exec(env, ops)
      ensures LedgerRuns.FreshNames(env) ==> LedgerLog.Good(env, State())
    {
      for i := 0 to |ops|
        invariant State() == LedgerRuns.Exec(env, ops[..i])
      {
        assert ops[..i + 1][..i] == ops[..i];
        Perform(ops[i]);
      }
      assert ops[..|ops|] == ops;
      if LedgerRuns.FreshNames(env) { LedgerLog.ExecKeepsLog(env, ops); }
    }
  }
}
