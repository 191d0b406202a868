/** A small option type. */
module Wrappers {
  datatype Option<+T> = None | Some(value: T)
}

/** Facts about finite sets. */
module Sets {
  lemma AtMostOne<T>(a: set<T>)
    requires forall x, y :: x in a && y in a ==> x == y
    ensures |a| <= 1
  {
    if x :| x in a {
      assert a == {x};
    }
  }
}

/** The tables of `migrations/20260513000001_v01_outbox_init.sql` and their CHECK constraints. */
module Schema {
  import opened Wrappers
  import Utf8

  type EventId = nat
  type Token = nat
  type JobId = nat
  type Time = int
  type U32 = n: int | 0 <= n < 0x1_0000_0000

  const I32_MAX: int := 0x7FFF_FFFF

  datatype DeliveryKey = DeliveryKey(event: EventId, handler: string)
  datatype DispatchKey = DispatchKey(tenant: string, key: string)

  datatype Status = Queued | Running | AwaitingRetry | Sent | Skipped | Dead

  predicate Terminal(s: Status) {
    s in {Sent, Skipped, Dead}
  }

  datatype Delivery = Delivery(
    status: Status,
    attempts: int,
    lastError: Option<string>,
    leaseToken: Option<Token>,
    firstAttemptedAt: Option<Time>,
    lastAttemptedAt: Option<Time>,
    finishedAt: Option<Time>,
    createdAt: Time,
    updatedAt: Time)

  datatype Event = Event(eventType: string, tenant: string, createdAt: Time)
  datatype KeyRow = KeyRow(event: EventId, createdAt: Time)

  datatype Tables = Tables(
    events: map<EventId, Event>,
    keys: map<DispatchKey, KeyRow>,
    deliveries: map<DeliveryKey, Delivery>)

  function Coalesce(a: Option<Time>, b: Time): Time {
    if a.Some? then a.value else b
  }

  /** `handler_deliveries_status_invariants`. */
  predicate StatusCheck(d: Delivery) {
    match d.status
    case Queued =>
      d.attempts == 0 && d.firstAttemptedAt.None? && d.lastAttemptedAt.None? && d.finishedAt.None? && d.leaseToken.None?
    case Running =>
      d.attempts > 0 && d.firstAttemptedAt.Some? && d.lastAttemptedAt.Some? && d.finishedAt.None? && d.leaseToken.Some?
    case AwaitingRetry =>
      d.attempts > 0 && d.firstAttemptedAt.Some? && d.lastAttemptedAt.Some? && d.finishedAt.None? && d.leaseToken.None?
    case _ =>
      d.attempts > 0 && d.firstAttemptedAt.Some? && d.lastAttemptedAt.Some? && d.finishedAt.Some? && d.leaseToken.None?
  }

  /** `handler_deliveries_temporal`. */
  predicate TemporalCheck(d: Delivery) {
    && (d.firstAttemptedAt.Some? ==> d.firstAttemptedAt.value >= d.createdAt)
    && (d.lastAttemptedAt.Some? ==> d.lastAttemptedAt.value >= Coalesce(d.firstAttemptedAt, d.createdAt))
    && (d.finishedAt.Some? ==> d.finishedAt.value >= Coalesce(d.lastAttemptedAt, d.createdAt))
    && d.updatedAt >= d.createdAt
  }

  /** `handler_deliveries_last_error_bytes`, and that a TEXT value holds no NUL. */
  predicate ErrorCheck(d: Delivery) {
    d.lastError.Some? ==> Utf8.Len(d.lastError.value) <= 8192 && '\0' !in d.lastError.value
  }

  predicate AttemptsCheck(d: Delivery) {
    0 <= d.attempts <= I32_MAX
  }

  /** Every constraint Postgres enforces on a delivery row; a statement that would break one fails. */
  predicate RowChecks(d: Delivery) {
    StatusCheck(d) && TemporalCheck(d) && ErrorCheck(d) && AttemptsCheck(d)
  }

  /** The column defaults of a freshly inserted delivery. */
  function QueuedRow(now: Time): Delivery {
    Delivery(Queued, 0, None, None, None, None, None, now, now)
  }
}
