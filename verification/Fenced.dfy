/** The claim statement and the four fenced marks of `src/runtime.rs`, each as one atomic
    change of the tables. */
module Fenced {
  import opened Wrappers
  import opened Schema
  import opened Routing
  import Utf8

  /** `i32::try_from(attempt).unwrap_or(i32::MAX)`: the smaller of the attempt and the largest i32. */
  function Clamp(attempt: U32): (n: int)
    ensures n <= attempt && n <= 0x7FFF_FFFF && (n == attempt || n == 0x7FFF_FFFF)
  {
    if attempt <= I32_MAX then attempt else I32_MAX
  }

  function Max(a: int, b: int): int {
    if a < b then b else a
  }

  /** The SET list of the claim. */
  function ClaimedRow(d: Delivery, attempt: int, token: Token, now: Time): Delivery {
    d.(status := Running,
       leaseToken := Some(token),
       attempts := Max(Max(d.attempts, attempt), 1),
       lastAttemptedAt := Some(now),
       firstAttemptedAt := Some(Coalesce(d.firstAttemptedAt, now)),
       lastError := None,
       updatedAt := now)
  }

  /** `row` is what a claim makes of `was`: attempts are the largest of the old value, the attempt
      cut to an i32, and 1; the first attempt keeps its time; the last error is gone; no other
      column moves. */
  predicate IsClaimed(was: Delivery, row: Delivery, attempt: U32, token: Token, now: Time) {
    var n := if attempt <= 0x7FFF_FFFF then attempt else 0x7FFF_FFFF;
    && row.attempts in {was.attempts, n, 1} && row.attempts >= was.attempts && row.attempts >= n && row.attempts >= 1
    && row.firstAttemptedAt == (if was.firstAttemptedAt.Some? then was.firstAttemptedAt else Some(now))
    && row.lastAttemptedAt == Some(now) && row.updatedAt == now
    && row.status == Running && row.leaseToken == Some(token) && row.lastError == None
    && row.finishedAt == was.finishedAt && row.createdAt == was.createdAt
  }

  /** The SET list of a mark. */
  function MarkedRow(d: Delivery, m: Mark, now: Time): Delivery {
    d.(status := NewStatus(m),
       leaseToken := None,
       lastError := MarkText(m),
       finishedAt := if m.MarkRetry? then d.finishedAt else Some(now),
       updatedAt := now)
  }

  /** The claim's UPDATE matches: the row exists and is not terminal. Tokens are not compared. */
  predicate Claimable(db: Tables, k: DeliveryKey) {
    k in db.deliveries && !Terminal(db.deliveries[k].status)
  }

  /** A mark's WHERE clause matches. */
  predicate Fence(db: Tables, k: DeliveryKey, token: Token) {
    k in db.deliveries && db.deliveries[k].status == Running && db.deliveries[k].leaseToken == Some(token)
  }

  function SetRow(db: Tables, k: DeliveryKey, d: Delivery): Tables {
    db.(deliveries := db.deliveries[k := d])
  }

  /** The claim violates no constraint; otherwise Postgres rejects it with a class 23 error. */
  predicate ClaimFits(db: Tables, k: DeliveryKey, attempt: U32, token: Token, now: Time) {
    Claimable(db, k) ==> RowChecks(ClaimedRow(db.deliveries[k], Clamp(attempt), token, now))
  }

  function Claim(db: Tables, k: DeliveryKey, attempt: U32, token: Token, now: Time): Tables {
    if Claimable(db, k) then SetRow(db, k, ClaimedRow(db.deliveries[k], Clamp(attempt), token, now)) else db
  }

  predicate MarkFits(db: Tables, k: DeliveryKey, token: Token, m: Mark, now: Time) {
    Fence(db, k, token) ==> RowChecks(MarkedRow(db.deliveries[k], m, now))
  }

  function MarkFenced(db: Tables, k: DeliveryKey, token: Token, m: Mark, now: Time): Tables {
    if Fence(db, k, token) then SetRow(db, k, MarkedRow(db.deliveries[k], m, now)) else db
  }

  /** What the claim query returns: nothing without an event row, else the status the
      delivery had before the statement and whether it was updated. */
  datatype ClaimReply = NoRow | Row(prev: Option<Status>, didUpdate: bool)

  function Reply(db: Tables, k: DeliveryKey): ClaimReply {
    if k.event !in db.events then NoRow
    else Row(if k in db.deliveries then Some(db.deliveries[k].status) else None, Claimable(db, k))
  }

  /** The keys the claim query joins to an event; its reply has one row per joined key, or one
      row when there is none. */
  function JoinedKeys(db: Tables, e: EventId): set<DispatchKey> {
    set dk | dk in db.keys && db.keys[dk].event == e
  }

  /** Step 3 of `handle_envelope`: stop with a result, or go on to the handler. */
  function AfterClaim(reply: ClaimReply): Option<JobResult> {
    match reply
    case NoRow => Some(JobAbort("event row missing"))
    case Row(None, _) => Some(JobAbort("handler_delivery row not found"))
    case Row(Some(prev), false) =>
      Some(if Terminal(prev) then JobOk else JobRetry("audit row UPDATE collision", None))
    case Row(Some(_), true) => None
  }

  /** Outcome of one SQL statement. A failed statement may still have been applied (its
      reply was lost); `deterministic` is how `map_sql` classifies the error. */
  datatype Sql = Done | Failed(applied: bool, deterministic: bool)

  predicate TookEffect(sql: Sql) {
    sql.Done? || sql.applied
  }

  /** A statement that breaks a constraint fails, unapplied, with a deterministic error. */
  predicate Possible(sql: Sql, fits: bool) {
    fits || sql == Failed(false, true)
  }

  /** The SET list of the claim does this and nothing else. */
  lemma ClaimedRowIs(was: Delivery, row: Delivery, attempt: U32, token: Token, now: Time)
    ensures row == ClaimedRow(was, Clamp(attempt), token, now) <==> IsClaimed(was, row, attempt, token, now)
  {
  }

  /** A claim on a row that satisfies the constraints breaks none of them but the temporal one,
      and that one exactly when the statement time lies before the first attempt (or, on a
      fresh row, before its creation). */
  lemma ClaimFitsIff(db: Tables, k: DeliveryKey, attempt: U32, token: Token, now: Time)
    requires Claimable(db, k) && RowChecks(db.deliveries[k])
    ensures var d := db.deliveries[k]; var d' := ClaimedRow(d, Clamp(attempt), token, now);
            && StatusCheck(d') && ErrorCheck(d') && AttemptsCheck(d')
            && (ClaimFits(db, k, attempt, token, now) <==> now >= Coalesce(d.firstAttemptedAt, d.createdAt))
  {
  }

  /** A mark whose token matches breaks no constraint, given only that its time is not before
      the claim that stamped the row. */
  lemma MarkAlwaysFits(db: Tables, k: DeliveryKey, token: Token, m: Mark, now: Time)
    requires k in db.deliveries ==> RowChecks(db.deliveries[k])
    requires Fence(db, k, token) ==> now >= db.deliveries[k].lastAttemptedAt.value
    requires MarkText(m).Some? ==> Utf8.Len(MarkText(m).value) <= 8192 && '\0' !in MarkText(m).value
    ensures MarkFits(db, k, token, m, now)
  {
  }
}
