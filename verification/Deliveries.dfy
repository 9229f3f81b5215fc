/** Events, subscriptions and delivery rows, and the row one attempt leaves. */
module Deliveries {
  import opened Wrappers
  import Backoff

  /** `kind` is the event type; `payload` stands for the fields no rule here reads. */
  datatype Event = Event(id: string, kind: string, schema: string, source: string, org: string,
                         principal: string, payload: string)

  datatype Subscription = Subscription(id: string, org: string, consumer: string, kind: string,
                                       target: string, grantRef: string)

  datatype RowKey = RowKey(eventId: string, source: string, subId: string)

  datatype Status = Pending | Delivered | Dead

  datatype Delivery = Delivery(key: RowKey, status: Status, attempts: nat,
                               lastError: Option<string>, nextAttemptAt: Option<real>)

  function KeyOf(event: Event, sub: Subscription): RowKey {
    RowKey(event.id, event.source, sub.id)
  }

  function LeaseKey(k: RowKey): string {
    "dispatch:" + k.source + ":" + k.eventId + ":" + k.subId
  }

  /** Distinct rows may share a lease key. */
  lemma LeaseKeysCollide()
    ensures RowKey("b", "a:x", "c") != RowKey("x:b", "a", "c")
    ensures LeaseKey(RowKey("b", "a:x", "c")) == LeaseKey(RowKey("x:b", "a", "c"))
  {
  }

  function AttemptsOf(rows: map<RowKey, Delivery>, k: RowKey): nat {
    if k in rows then rows[k].attempts else 0
  }

  predicate IsDelivered(rows: map<RowKey, Delivery>, k: RowKey) {
    k in rows && rows[k].status == Delivered
  }

  /** The row after one attempt: its number, the error class raised if any, and when it started. */
  function RowAfter(p: Backoff.Policy, k: RowKey, attempts: nat, error: Option<string>, now: real): Delivery
    requires attempts >= 1
  {
    match error
    case None => Delivery(k, Delivered, attempts, None, None)
    case Some(_) =>
      if attempts >= p.maxAttempts then Delivery(k, Dead, attempts, error, None)
      else Delivery(k, Pending, attempts, error, Some(Backoff.NextAt(p, attempts, now)))
  }
}
