/** Who may do what on the bus, in what order handlers are called, and what they are never called for. */
module LedgerAnswers {
  import opened Wrappers
  import opened Deliveries
  import opened Dict
  import opened LedgerSpec
  import opened LedgerRuns
  import Glob

  // ----- when a publish or a subscription is turned down -----

  /** The event a publish stands for: the caller's org and principal, and all else from the body. */
  predicate EventOf(env: Env, s: Ledger, body: Body, principal: string, org: string, event: Event) {
    && event.org == org && event.principal == principal
    && event.kind == body.kind && event.schema == body.schema && event.source == body.source
    && event.payload == body.payload
    && (body.id != "" ==> event.id == body.id) && (body.id == "" ==> event.id == env.newName(s.names))
  }

  /**
   A publish is denied exactly when its principal may not use the type in that org at that clock
   reading, turned down for its envelope or its data exactly when it is authorized and the first
   check that fails is that one, and published otherwise, deduped exactly when its key is logged.
   */
  lemma PublishAnswers(env: Env, s: Ledger, body: Body, principal: string, org: string, event: Event)
    requires EventOf(env, s, body, principal, org, event)
    ensures var reply := Publish(env, s, body, principal, org).1;
            var may := env.authorized(s.ticks, principal, org, body.kind);
            && (reply == Denied <==> !may)
            && (reply == BadEnvelope <==> may && !env.envelopeOk(event))
            && (reply == BadSchema <==> may && env.envelopeOk(event) && !env.schemaOk(event))
            && (reply.Published? <==> may && env.envelopeOk(event) && env.schemaOk(event))
            && (reply.Published? ==>
                  reply.id == event.id && (reply.deduped <==> (body.source, event.id) in s.events))
  {
    assert Stamped(env, s, body, principal, org) == event;
    PublishCases(env, s, body, principal, org);
    hide Dispatch;
  }

  /** A subscription is stored exactly when its principal may use the type in that org, just as asked for. */
  lemma SubscribeAnswers(env: Env, s: Ledger, principal: string, org: string, kind: string,
                         consumer: string, target: string, grantRef: string)
    ensures var (t, sub) := Subscribe(env, s, principal, org, kind, consumer, target, grantRef);
            && (sub.Some? <==> env.authorized(s.ticks, principal, org, kind))
            && (sub.Some? ==>
                  && sub.value.org == org && sub.value.kind == kind && sub.value.consumer == consumer
                  && sub.value.target == target && sub.value.grantRef == grantRef
                  && t.subs.data == s.subs.data[sub.value.id := sub.value])
            && (sub.None? ==> t == s.(ticks := s.ticks + 1))
  {
  }

  /** The n-th operation logged this event, authorized and valid when it did. */
  ghost predicate LoggedBy(env: Env, ops: seq<Op>, n: nat, event: Event) {
    && n < |ops| && ops[n].DoPublish?
    && var s, op := Exec(env, ops[..n]), ops[n];
       && EventOf(env, s, op.body, op.principal, op.org, event) && (event.source, event.id) !in s.events
       && env.authorized(s.ticks, event.principal, event.org, event.kind)
       && env.envelopeOk(event) && env.schemaOk(event)
  }

  lemma PublishLogs(env: Env, s: Ledger, op: Op, key: (string, string))
    requires FreshNames(env) && Inv(env, s) && key !in s.events && key in Apply(env, s, op).events
    ensures op.DoPublish? && var event := Apply(env, s, op).events[key];
            && (event.source, event.id) == key && EventOf(env, s, op.body, op.principal, op.org, event)
            && env.authorized(s.ticks, event.principal, event.org, event.kind)
            && env.envelopeOk(event) && env.schemaOk(event)
  {
    LogsExactlyWhenNew(env, s, op, key);
    var event := Stamped(env, s, op.body, op.principal, op.org);
    PublishAnswers(env, s, op.body, op.principal, op.org, event);
    PublishEffect(env, s, op.body, op.principal, op.org);
    hide Publish, Inv;
  }

  /** Every event in the log was put there by a publish authorized and valid at the time, under its caller's name. */
  lemma {:induction false} EveryEventWasAuthorized(env: Env, ops: seq<Op>, key: (string, string))
    requires FreshNames(env) && key in Exec(env, ops).events
    ensures exists n: nat :: LoggedBy(env, ops, n, Exec(env, ops).events[key])
  {
    if ops != [] {
      hide FreshNames, Inv, Apply, EventOf;
      var front, last := ops[..|ops| - 1], |ops| - 1;
      assert Exec(env, ops) == Apply(env, Exec(env, front), ops[last]);
      ExecKeepsInv(env, front);
      if key in Exec(env, front).events {
        ApplyKeepsInv(env, Exec(env, front), ops[last]);
        EveryEventWasAuthorized(env, front, key);
        var n: nat :| LoggedBy(env, front, n, Exec(env, front).events[key]);
        assert front[..n] == ops[..n];
        assert LoggedBy(env, ops, n, Exec(env, ops).events[key]);
      } else {
        PublishLogs(env, Exec(env, front), ops[last], key);
        assert LoggedBy(env, ops, last, Exec(env, ops).events[key]);
      }
    }
  }

  /** The n-th operation stored this subscription, authorized when it did. */
  ghost predicate SubscribedBy(env: Env, ops: seq<Op>, n: nat, sub: Subscription) {
    && n < |ops| && ops[n].DoSubscribe?
    && var op := ops[n];
       && sub.org == op.org && sub.kind == op.kind && sub.consumer == op.consumer && sub.target == op.target
       && sub.grantRef == op.grantRef
       && env.authorized(Exec(env, ops[..n]).ticks, op.principal, op.org, op.kind)
  }

  lemma OnlySubscribeAdds(env: Env, s: Ledger, op: Op, id: string)
    requires FreshNames(env) && Inv(env, s) && id in Apply(env, s, op).subs.data
    requires id in s.subs.data ==> Apply(env, s, op).subs.data[id] != s.subs.data[id]
    ensures op.DoSubscribe? && var sub := Apply(env, s, op).subs.data[id];
            && sub.org == op.org && sub.kind == op.kind && sub.consumer == op.consumer && sub.target == op.target
            && sub.grantRef == op.grantRef && env.authorized(s.ticks, op.principal, op.org, op.kind)
  {
    SubsStay(env, s, op);
    if op.DoSubscribe? {
      SubscribeAnswers(env, s, op.principal, op.org, op.kind, op.consumer, op.target, op.grantRef);
      hide Subscribe, Inv;
    }
  }

  /** Only subscribing and unsubscribing touch the subscriptions. */
  lemma SubsStay(env: Env, s: Ledger, op: Op)
    requires FreshNames(env) && Inv(env, s)
    ensures !op.DoSubscribe? && !op.DoUnsubscribe? ==> Apply(env, s, op).subs == s.subs
    ensures op.DoUnsubscribe? ==> Apply(env, s, op).subs.data == s.subs.data - {op.id}
  {
    match op {
      case DoPublish(body, principal, org) =>
        PublishEffect(env, s, body, principal, org);
      case DoSubscribe(_, _, _, _, _, _) =>
      case DoUnsubscribe(_) =>
      case DoReplay(eventId, source, org) => ReplayEffect(env, s, eventId, source, org);
      case DoRetry(_) =>
    }
  }

  /** Every subscription stored was asked for by a principal authorized at the time. */
  lemma {:induction false} EverySubscriptionWasAuthorized(env: Env, ops: seq<Op>, id: string)
    requires FreshNames(env) && id in Exec(env, ops).subs.data
    ensures exists n: nat :: SubscribedBy(env, ops, n, Exec(env, ops).subs.data[id])
  {
    if ops != [] {
      hide FreshNames, Inv, Apply;
      var front, last := ops[..|ops| - 1], |ops| - 1;
      assert Exec(env, ops) == Apply(env, Exec(env, front), ops[last]);
      ExecKeepsInv(env, front);
      var sub := Exec(env, ops).subs.data[id];
      if id in Exec(env, front).subs.data && Exec(env, front).subs.data[id] == sub {
        EverySubscriptionWasAuthorized(env, front, id);
        var n: nat :| SubscribedBy(env, front, n, sub);
        assert front[..n] == ops[..n];
        assert SubscribedBy(env, ops, n, sub);
      } else {
        OnlySubscribeAdds(env, Exec(env, front), ops[last], id);
        assert SubscribedBy(env, ops, last, sub);
      }
    }
  }

  // ----- which handlers are called, and when -----

  /** While somebody else's lease on the delivery lasts, an attempt reads the clock, takes a name and does nothing. */
  lemma HeldDeliveryIsSkipped(env: Env, s: Ledger, event: Event, sub: Subscription)
    requires !IsDelivered(s.rows.data, KeyOf(event, sub))
    requires var lk := "dispatch:" + event.source + ":" + event.id + ":" + sub.id;
             lk in s.leases && env.clock(s.ticks) < s.leases[lk].until
    ensures Attempt(env, s, event, sub) == s.(ticks := s.ticks + 1, names := s.names + 1)
  {
  }

  /** The handler calls of a fan-out: one for each subscription, in order, each with the outcome the handler gave. */
  ghost predicate CallsOf(env: Env, s: Ledger, event: Event, subs: seq<Subscription>, calls: seq<Call>) {
    && |calls| == |s.calls| + |subs| && s.calls <= calls
    && (forall i :: 0 <= i < |subs| ==> CallIs(env, calls, |s.calls| + i, event, subs[i]))
  }

  predicate CallIs(env: Env, calls: seq<Call>, i: nat, event: Event, sub: Subscription) {
    i < |calls| && calls[i].sub == sub && calls[i].event == event && calls[i].error == env.handler(i)
  }

  lemma {:induction false} FanOutCalls(env: Env, s: Ledger, event: Event, subs: seq<Subscription>)
    requires FanOutPre(s, event, subs)
    ensures CallsOf(env, s, event, subs, AttemptAll(env, s, event, subs).calls)
  {
    if subs != [] {
      var front, last := subs[..|subs| - 1], subs[|subs| - 1];
      FanOutFront(s, event, front, last);
      assert subs == front + [last];
      hide Attempt, CallsOf, FannedOut, FanOutPre;
      FanOutCalls(env, s, event, front);
      FanOut(env, s, event, front);
      CallsNext(env, s, AttemptAll(env, s, event, front), event, front, last);
    } else {
      assert CallsOf(env, s, event, subs, s.calls);
    }
  }

  lemma CallsNext(env: Env, s: Ledger, u: Ledger, event: Event, front: seq<Subscription>, last: Subscription)
    requires CallsOf(env, s, event, front, u.calls) && FannedOut(s, u, event, front) && u.leases == map[]
    requires FanOutPre(s, event, front + [last])
    ensures CallsOf(env, s, event, front + [last], Attempt(env, u, event, last).calls)
  {
    AttemptEffect(env, u, event, last);
    hide Attempt, RowAfter;
    var subs, t := front + [last], Attempt(env, u, event, last);
    assert subs[|front|] == last;
    forall i | 0 <= i < |front| ensures front[i].id != last.id { assert subs[i].id != subs[|front|].id; }
    assert KeyOf(event, last) !in u.rows.data;
    assert t.calls[..|u.calls|] == u.calls && s.calls <= t.calls;
    forall i | 0 <= i < |subs| ensures CallIs(env, t.calls, |s.calls| + i, event, subs[i]) {
      assert i < |front| ==> CallIs(env, u.calls, |s.calls| + i, event, front[i]);
    }
  }

  /** These are the matching subscriptions, each once, in the order they were made. */
  ghost predicate MatchingInOrder(s: Ledger, org: string, kind: string, subs: seq<Subscription>) {
    exists at: seq<nat> :: StandAt(s, org, kind, subs, at)
  }

  ghost predicate StandAt(s: Ledger, org: string, kind: string, subs: seq<Subscription>, at: seq<nat>) {
    && |at| == |subs| && (forall i, j :: 0 <= i < j < |at| ==> at[i] < at[j])
    && (forall n: nat :: n in at <==> MatchesAt(s, org, kind, n))
    && (forall i :: 0 <= i < |at| ==>
          MatchesAt(s, org, kind, at[i]) && s.subs.data[s.subs.order[at[i]]] == subs[i])
  }

  predicate MatchesAt(s: Ledger, org: string, kind: string, n: nat) {
    && n < |s.subs.order| && s.subs.order[n] in s.subs.data
    && var sub := s.subs.data[s.subs.order[n]]; sub.org == org && Glob.TypeMatches(sub.kind, kind)
  }

  lemma SelectsInOrder(s: Ledger, org: string, kind: string)
    ensures MatchingInOrder(s, org, kind, Matching(s, org, kind))
  {
    var test := (sub: Subscription) => Matches(org, kind, sub);
    var at := PicksInOrder(s.subs, s.subs.order, test);
    assert forall n: nat :: Hit(s.subs, s.subs.order, test, n) == MatchesAt(s, org, kind, n);
    assert Matching(s, org, kind) == Pick(s.subs, s.subs.order, test);
    hide Hit;
    assert StandAt(s, org, kind, Matching(s, org, kind), at);
  }

  /** A first publish calls the handler of each matching subscription once, in the order they were made. */
  lemma PublishCallsInOrder(env: Env, s: Ledger, body: Body, principal: string, org: string, event: Event)
    returns (subs: seq<Subscription>)
    requires Inv(env, s) && EventOf(env, s, body, principal, org, event)
    requires Publish(env, s, body, principal, org).1 == Published(event.id, false)
    ensures MatchingInOrder(s, org, body.kind, subs)
    ensures CallsOf(env, s, event, subs, Publish(env, s, body, principal, org).0.calls)
  {
    assert Stamped(env, s, body, principal, org) == event;
    PublishCases(env, s, body, principal, org);
    hide Publish, Dispatch;
    assert Publish(env, s, body, principal, org).0 == Dispatch(env, RecordEvent(Asked(env, s, body), event).0, event);
    DispatchCalls(env, s, Asked(env, s, body), event);
    SelectsInOrder(s, org, body.kind);
    subs := Matching(s, org, body.kind);
  }

  /** A logged event is ready to fan out to the subscriptions that match it. */
  lemma FansOutAfterRecord(env: Env, s: Ledger, asked: Ledger, event: Event)
    requires Inv(env, s) && SameLedger(s, asked) && s.names <= asked.names && (event.source, event.id) !in s.events
    ensures var s1 := RecordEvent(asked, event).0;
            && s1.calls == s.calls && Matching(s1, event.org, event.kind) == Matching(s, event.org, event.kind)
            && FanOutPre(s1, event, Matching(s, event.org, event.kind))
            && Dispatch(env, s1, event) == AttemptAll(env, s1, event, Matching(s, event.org, event.kind))
  {
    SameLedgerKeepsInv(env, s, asked);
    RecordKeepsInv(env, asked, event);
    MatchingIsReady(env, RecordEvent(asked, event).0, event);
    hide Inv, FanOutPre, AttemptAll;
  }

  lemma CallsSame(env: Env, s: Ledger, t: Ledger, event: Event, subs: seq<Subscription>, calls: seq<Call>)
    requires s.calls == t.calls && CallsOf(env, s, event, subs, calls)
    ensures CallsOf(env, t, event, subs, calls)
  {
  }

  lemma DispatchCalls(env: Env, s: Ledger, asked: Ledger, event: Event)
    requires Inv(env, s) && SameLedger(s, asked) && s.names <= asked.names && (event.source, event.id) !in s.events
    ensures CallsOf(env, s, event, Matching(s, event.org, event.kind),
                    Dispatch(env, RecordEvent(asked, event).0, event).calls)
  {
    FansOutAfterRecord(env, s, asked, event);
    hide Inv, Matching, SameLedger, FanOutPre, RecordEvent, AttemptAll, Dispatch, CallsOf;
    var s1, subs := RecordEvent(asked, event).0, Matching(s, event.org, event.kind);
    FanOutCalls(env, s1, event, subs);
    CallsSame(env, s1, s, event, subs, Dispatch(env, s1, event).calls);
  }

  /** The calls added each log the outcome their handler gave, and go to one of these subscriptions. */
  ghost predicate Heard(env: Env, was: seq<Call>, calls: seq<Call>, ids: set<string>) {
    was <= calls && forall i :: |was| <= i < |calls| ==> calls[i].error == env.handler(i) && calls[i].sub.id in ids
  }

  lemma AttemptIsHeard(env: Env, was: seq<Call>, s: Ledger, event: Event, sub: Subscription, ids: set<string>)
    requires Heard(env, was, s.calls, ids) && sub.id in ids
    ensures Heard(env, was, Attempt(env, s, event, sub).calls, ids)
    ensures Attempt(env, s, event, sub).subs == s.subs && s.names <= Attempt(env, s, event, sub).names
  {
  }

  lemma {:induction false} FanOutIsHeard(env: Env, was: seq<Call>, s: Ledger, event: Event, subs: seq<Subscription>,
                                         ids: set<string>)
    requires Heard(env, was, s.calls, ids) && forall i :: 0 <= i < |subs| ==> subs[i].id in ids
    ensures Heard(env, was, AttemptAll(env, s, event, subs).calls, ids)
  {
    if subs != [] {
      hide Attempt;
      FanOutIsHeard(env, was, s, event, subs[..|subs| - 1], ids);
      AttemptIsHeard(env, was, AttemptAll(env, s, event, subs[..|subs| - 1]), event, subs[|subs| - 1], ids);
    }
  }

  ghost predicate OwnIds(s: Ledger) {
    forall id :: id in s.subs.data ==> s.subs.data[id].id == id
  }

  lemma RetryIsHeard(env: Env, was: seq<Call>, s: Ledger, k: RowKey)
    requires Heard(env, was, s.calls, s.subs.data.Keys) && OwnIds(s)
    ensures var t := AttemptPending(env, s, k);
            Heard(env, was, t.calls, s.subs.data.Keys) && t.subs == s.subs && s.names <= t.names
  {
    if (k.source, k.eventId) in s.events && k.subId in s.subs.data {
      AttemptIsHeard(env, was, s, s.events[(k.source, k.eventId)], s.subs.data[k.subId], s.subs.data.Keys);
    }
    hide Attempt;
  }

  lemma {:induction false} ReplayIsHeard(env: Env, s: Ledger, ds: seq<Delivery>, eventId: string, source: string)
    requires OwnIds(s)
    ensures var t := ReviveAll(env, s, ds, eventId, source).0;
            Heard(env, s.calls, t.calls, s.subs.data.Keys) && t.subs == s.subs && s.names <= t.names
  {
    if ds != [] {
      hide AttemptPending;
      var d, u := ds[|ds| - 1], ReviveAll(env, s, ds[..|ds| - 1], eventId, source).0;
      ReplayIsHeard(env, s, ds[..|ds| - 1], eventId, source);
      if OfEvent(d, eventId, source) {
        var v := u.(rows := Put(u.rows, d.key, Delivery(d.key, Pending, d.attempts, d.lastError, None)));
        RetryIsHeard(env, s.calls, v, d.key);
      }
    }
  }

  lemma PublishIsHeard(env: Env, s: Ledger, body: Body, principal: string, org: string)
    requires Inv(env, s)
    ensures Heard(env, s.calls, Publish(env, s, body, principal, org).0.calls, s.subs.data.Keys)
  {
    PublishCases(env, s, body, principal, org);
    var (t, reply) := Publish(env, s, body, principal, org);
    if reply.Published? && !reply.deduped {
      var event, asked := Stamped(env, s, body, principal, org), Asked(env, s, body);
      SameLedgerKeepsInv(env, s, asked);
      RecordKeepsInv(env, asked, event);
      var s1 := RecordEvent(asked, event).0;
      MatchingIsReady(env, s1, event);
      hide Inv, Publish, Matching;
      FanOutIsHeard(env, s.calls, s1, event, Matching(s1, event.org, event.kind), s.subs.data.Keys);
    }
  }

  /** The calls an operation adds go to subscriptions stored when it begins, and log what their handlers gave. */
  lemma ApplyIsHeard(env: Env, s: Ledger, op: Op)
    requires FreshNames(env) && Inv(env, s)
    ensures Heard(env, s.calls, Apply(env, s, op).calls, s.subs.data.Keys) && s.names <= Apply(env, s, op).names
  {
    match op {
      case DoPublish(body, principal, org) =>
        PublishIsHeard(env, s, body, principal, org);
        PublishEffect(env, s, body, principal, org);
      case DoSubscribe(_, _, _, _, _, _) =>
      case DoUnsubscribe(_) =>
      case DoReplay(eventId, source, org) => ReplayIsHeard(env, s, DeadRows(s, org), eventId, source);
      case DoRetry(key) => RetryIsHeard(env, s.calls, s, key);
    }
  }

  /** In every run the outcome logged for a call is the one its handler gave. */
  lemma {:induction false} OutcomesAreHeard(env: Env, ops: seq<Op>, i: nat)
    requires FreshNames(env) && i < |Exec(env, ops).calls|
    ensures Exec(env, ops).calls[i].error == env.handler(i)
  {
    if ops != [] {
      hide FreshNames, Inv, Apply;
      var front := ops[..|ops| - 1];
      ExecKeepsInv(env, front);
      ApplyIsHeard(env, Exec(env, front), ops[|ops| - 1]);
      if i < |Exec(env, front).calls| { OutcomesAreHeard(env, front, i); }
    }
  }

  /** A name given out and not among the subscriptions is never given to one again. */
  lemma GoneStaysGone(env: Env, s: Ledger, op: Op, id: string)
    requires FreshNames(env) && Inv(env, s) && Named(env, s.names, id) && id !in s.subs.data
    ensures Named(env, Apply(env, s, op).names, id) && id !in Apply(env, s, op).subs.data
  {
    ApplyIsHeard(env, s, op);
    NamedGrows(env, s.names, Apply(env, s, op).names, id);
    NewNameIsNew(env, s.names);
    SubsStay(env, s, op);
    hide Publish, Replay, AttemptPending, Inv, Named, FreshNames;
  }

  /** Once a subscription is removed its id never comes back and its handler is never called again. */
  lemma {:induction false} RemovedIsNeverCalled(env: Env, ops: seq<Op>, n: nat, id: string)
    requires FreshNames(env) && n < |ops| && ops[n] == DoUnsubscribe(id) && id in Exec(env, ops[..n]).subs.data
    ensures Named(env, Exec(env, ops).names, id) && id !in Exec(env, ops).subs.data
    ensures var was, calls := Exec(env, ops[..n]).calls, Exec(env, ops).calls;
            was <= calls && forall i :: |was| <= i < |calls| ==> calls[i].sub.id != id
    decreases |ops|
  {
    var front, last := ops[..|ops| - 1], |ops| - 1;
    var s := Exec(env, front);
    assert Exec(env, ops) == Apply(env, s, ops[last]);
    ExecKeepsInv(env, front);
    if n == last {
      assert ops[..n] == front;
    } else {
      assert front[..n] == ops[..n];
      hide Exec, Apply, Inv, Named;
      RemovedIsNeverCalled(env, front, n, id);
      GoneStaysGone(env, s, ops[last], id);
      ApplyIsHeard(env, s, ops[last]);
    }
  }
}
