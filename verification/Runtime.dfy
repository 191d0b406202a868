/** `OutboxRuntime` of `src/runtime.rs`: the four fenced marks and `handle_envelope` as methods
    that run their statements one after the other, on tables shared with everything else. */
module Runtime {
  import opened Wrappers
  import opened Schema
  import opened Routing
  import opened Fenced
  import opened World
  import Utf8

  /** What became of a statement that would leave a row as `row` (if it matches one) on a
      connection that behaves as `sql`: a broken constraint is a deterministic, unapplied failure. */
  function Outcome(fits: bool, sql: Sql): (out: Sql)
    ensures Possible(out, fits) && (fits ==> out == sql)
  {
    if fits then sql else Failed(false, true)
  }

  /** The tables and the error a mark leaves. */
  function AfterMark(db: Tables, k: DeliveryKey, token: Token, m: Mark, now: Time,
                     sql: Sql): (Tables, Option<JobResult>) {
    var out := Outcome(MarkFits(db, k, token, m, now), sql);
    (if TookEffect(out) then MarkFenced(db, k, token, m, now) else db,
     if out.Done? then None else Some(MapSql(out.deterministic, "mark")))
  }

  /** The tables and the reply, or the error, the claim leaves. */
  function AfterClaimSql(db: Tables, k: DeliveryKey, attempt: U32, token: Token, now: Time,
                         sql: Sql): (Tables, Option<JobResult>) {
    var out := Outcome(ClaimFits(db, k, attempt, token, now), sql);
    (if TookEffect(out) then Claim(db, k, attempt, token, now) else db,
     if out.Done? then None else Some(MapSql(out.deterministic, "fetch delivery")))
  }

  /** How a call of the handler under the internal timeout ended. */
  datatype HandlerRun =
    | Finished(error: Option<HandlerError>)
    | NotDecoded(message: string)
    | Unwound(payload: string)
    | Elapsed

  function Seen(run: HandlerRun): (o: Observed)
    ensures !o.NotRegistered?
  {
    match run
    case Finished(e) => Returned(e)
    case NotDecoded(m) => DecodeFailed(m)
    case Unwound(p) => Panicked(p)
    case Elapsed => TimedOut
  }

  /** Time and connection behaviour of one statement. */
  datatype Stmt = Stmt(now: Time, sql: Sql)

  datatype Call = Call(env: DeliveryKey, attempt: U32, maxAttempts: U32, token: Token)

  class OutboxRuntime {
    var db: Tables
    const registry: set<string>
    const policy: Policy

    constructor (db: Tables, registry: set<string>, policy: Policy)
      ensures this.db == db && this.registry == registry && this.policy == policy
    {
      this.db, this.registry, this.policy := db, registry, policy;
    }

    /** One UPDATE of the row at `k`, or of no row. */
    method Update(k: DeliveryKey, row: Option<Delivery>, sql: Sql) returns (out: Sql)
      modifies this
      ensures out == Outcome(row.Some? ==> RowChecks(row.value), sql)
      ensures db == if row.Some? && TookEffect(out) then SetRow(old(db), k, row.value) else old(db)
    {
      if row.Some? && !RowChecks(row.value) {
        return Failed(false, true);
      }
      if row.Some? && TookEffect(sql) {
        db := SetRow(db, k, row.value);
      }
      return sql;
    }

    method MarkSentFenced(k: DeliveryKey, token: Token, st: Stmt) returns (err: Option<JobResult>)
      modifies this
      ensures (db, err) == AfterMark(old(db), k, token, MarkSent, st.now, st.sql)
    {
      var row := None;
      if Fence(db, k, token) {
        row := Some(db.deliveries[k].(status := Sent, finishedAt := Some(st.now), leaseToken := None, lastError := None,
          updatedAt := st.now));
      }
      var out := Update(k, row, st.sql);
      return if out.Failed? then Some(MapSql(out.deterministic, "mark")) else None;
    }

    method MarkAwaitingRetryFenced(k: DeliveryKey, reason: string, token: Token,
                                   st: Stmt) returns (err: Option<JobResult>)
      modifies this
      ensures (db, err) == AfterMark(old(db), k, token, MarkRetry(Utf8.Clean(reason)), st.now, st.sql)
    {
      var cleaned := Utf8.Sanitize(reason);
      var trimmed := Utf8.Fit(cleaned, Utf8.MAX_LAST_ERROR_BYTES);
      var row := None;
      if Fence(db, k, token) {
        row := Some(db.deliveries[k].(status := AwaitingRetry, leaseToken := None, lastError := Some(trimmed),
          updatedAt := st.now));
      }
      var out := Update(k, row, st.sql);
      return if out.Failed? then Some(MapSql(out.deterministic, "mark")) else None;
    }

    method MarkDeadFenced(k: DeliveryKey, reason: string, token: Token, st: Stmt) returns (err: Option<JobResult>)
      modifies this
      ensures (db, err) == AfterMark(old(db), k, token, MarkDead(Utf8.Clean(reason)), st.now, st.sql)
    {
      var cleaned := Utf8.Sanitize(reason);
      var trimmed := Utf8.Fit(cleaned, Utf8.MAX_LAST_ERROR_BYTES);
      var row := None;
      if Fence(db, k, token) {
        row := Some(db.deliveries[k].(status := Dead, finishedAt := Some(st.now), leaseToken := None,
          lastError := Some(trimmed), updatedAt := st.now));
      }
      var out := Update(k, row, st.sql);
      return if out.Failed? then Some(MapSql(out.deterministic, "mark")) else None;
    }

    method MarkSkippedFenced(k: DeliveryKey, reason: string, token: Token, st: Stmt) returns (err: Option<JobResult>)
      modifies this
      ensures (db, err) == AfterMark(old(db), k, token, MarkSkipped(Utf8.Clean(reason)), st.now, st.sql)
    {
      var cleaned := Utf8.Sanitize(reason);
      var trimmed := Utf8.Fit(cleaned, Utf8.MAX_LAST_ERROR_BYTES);
      var row := None;
      if Fence(db, k, token) {
        row := Some(db.deliveries[k].(status := Skipped, finishedAt := Some(st.now), leaseToken := None,
          lastError := Some(trimmed), updatedAt := st.now));
      }
      var out := Update(k, row, st.sql);
      return if out.Failed? then Some(MapSql(out.deterministic, "mark")) else None;
    }

    /** The claim CTE: lock the row, update it unless it is terminal, and select the event with
        what was found. `Err` is the mapped database error. */
    method ClaimDelivery(c: Call, st: Stmt) returns (reply: ClaimReply, err: Option<JobResult>)
      modifies this
      ensures (db, err) == AfterClaimSql(old(db), c.env, c.attempt, c.token, st.now, st.sql)
      ensures reply == Reply(old(db), c.env)
      ensures Claimable(old(db), c.env) && (err.None? || db != old(db)) ==>
              c.env in db.deliveries && db == SetRow(old(db), c.env, db.deliveries[c.env])
              && IsClaimed(old(db).deliveries[c.env], db.deliveries[c.env], c.attempt, c.token, st.now)
    {
      var k := c.env;
      var locked: Option<Delivery> := None;
      if k in db.deliveries {
        locked := Some(db.deliveries[k]);
      }
      var row := None;
      var bound := if c.attempt <= I32_MAX then c.attempt else I32_MAX;
      if locked.Some? && locked.value.status !in {Sent, Dead, Skipped} {
        var d := locked.value;
        var attempts := if d.attempts < bound then bound else d.attempts;
        row := Some(d.(status := Running,
                       leaseToken := Some(c.token),
                       attempts := if attempts < 1 then 1 else attempts,
                       lastAttemptedAt := Some(st.now),
                       firstAttemptedAt := if d.firstAttemptedAt.Some? then d.firstAttemptedAt else Some(st.now),
                       lastError := None,
                       updatedAt := st.now));
      }
      reply := if k.event in db.events
               then Row(if locked.Some? then Some(locked.value.status) else None, row.Some?)
               else NoRow;
      var out := Update(k, row, st.sql);
      err := if out.Failed? then Some(MapSql(out.deterministic, "fetch delivery")) else None;
    }

    /** Panic policy and decode strategy: the result of the handler as step 7 sees it. */
    method Interpret(run: HandlerRun) returns (result: Option<HandlerError>)
      ensures result == ResultOf(policy, Seen(run))
    {
      match run
      case Finished(e) => return e;
      case NotDecoded(reason) =>
        if policy.decode == DecodeRetry {
          return Some(Retry(reason, None));
        }
        return Some(Abort(reason));
      case Unwound(payload) =>
        var msg := Utf8.Sanitize(payload);
        match policy.panic {
          case PanicRetry => return Some(Retry("panic: " + msg, None));
          case PanicDead => return Some(Abort("panic: " + msg));
        }
      case Elapsed => return Some(Retry(policy.timedOut, None));
    }

    /** `handle_envelope`. While the handler runs, others may change the tables: `meanwhile` is
        how it leaves them. The call refines the two atomic steps of the interleaved system. */
    method HandleEnvelope(c: Call, claim: Stmt, run: HandlerRun, meanwhile: Tables,
                          mark: Stmt) returns (result: JobResult)
      modifies this
      ensures Handled(old(db), c, c.env.handler in registry, policy, claim, run, meanwhile, mark, db, result)
    {
      var reply, err := ClaimDelivery(c, claim);
      if err.Some? {
        return err.value;
      }
      match reply {
        case NoRow => return JobAbort("event row missing");
        case Row(None, _) => return JobAbort("handler_delivery row not found");
        case Row(Some(prev), false) =>
          if prev in {Sent, Dead, Skipped} {
            return JobOk;
          }
          return JobRetry("audit row UPDATE collision", None);
        case Row(Some(_), true) =>
      }
      if c.env.handler !in registry {
        db := meanwhile;
        err := MarkDeadFenced(c.env, policy.notRegistered, c.token, mark);
        return if err.Some? then err.value else JobAbort(policy.notRegistered);
      }
      var outcome := Interpret(run);
      db := meanwhile;
      result := Finish(c, outcome, mark);
    }

    /** Step 7: the terminal transition based on the handler's result. */
    method Finish(c: Call, outcome: Option<HandlerError>, mark: Stmt) returns (result: JobResult)
      modifies this
      ensures var (m, r) := RouteResult(c.attempt, c.maxAttempts, outcome);
              var (marked, err) := AfterMark(old(db), c.env, c.token, m, mark.now, mark.sql);
              db == marked && result == if err.Some? then err.value else r
    {
      var err;
      match outcome {
        case None =>
          err := MarkSentFenced(c.env, c.token, mark);
          return if err.Some? then err.value else JobOk;
        case Some(Retry(reason, retryIn)) =>
          if c.attempt >= c.maxAttempts {
            err := MarkDeadFenced(c.env, reason, c.token, mark);
          } else {
            err := MarkAwaitingRetryFenced(c.env, reason, c.token, mark);
          }
          return if err.Some? then err.value else JobRetry(Utf8.Clean(reason), retryIn);
        case Some(Skip(reason)) =>
          err := MarkSkippedFenced(c.env, reason, c.token, mark);
          return if err.Some? then err.value else JobAbort("skipped: " + Utf8.Clean(reason));
        case Some(Abort(reason)) =>
          err := MarkDeadFenced(c.env, reason, c.token, mark);
          return if err.Some? then err.value else JobAbort(Utf8.Clean(reason));
      }
    }
  }

  /** What a call of `handle_envelope` may leave: it stops after its claim, or it routes what it
      saw into one mark on the tables of that later moment. */
  ghost predicate Handled(db: Tables, c: Call, registered: bool, policy: Policy, claim: Stmt, run: HandlerRun,
                          meanwhile: Tables, mark: Stmt, db': Tables, result: JobResult)
  {
    var (claimed, err) := AfterClaimSql(db, c.env, c.attempt, c.token, claim.now, claim.sql);
    var early := if err.Some? then err else AfterClaim(Reply(db, c.env));
    if early.Some? then db' == claimed && result == early.value
    else
      var (m, r) := Route(policy, c.attempt, c.maxAttempts, if registered then Seen(run) else NotRegistered);
      var (marked, err') := AfterMark(meanwhile, c.env, c.token, m, mark.now, mark.sql);
      db' == marked && result == if err'.Some? then err'.value else r
  }

  function ClaimStep(s: System, t: Token, claim: Stmt): Step
    requires t in s.invs
  {
    var inv := s.invs[t];
    ClaimRow(t, Outcome(ClaimFits(s.db, inv.env, inv.attempt, t, claim.now), claim.sql), claim.now)
  }

  function MarkStep(s: System, t: Token, o: Observed, mark: Stmt): Step
    requires t in s.invs
  {
    MarkRow(t, o, Outcome(MarkFits(s.db, s.invs[t].env, t, RouteOf(s, t, o).0, mark.now), mark.sql), mark.now)
  }

  /** The claim of a call is the claim step of the interleaved system. */
  lemma ClaimRefinesStep(s: System, t: Token, claim: Stmt)
    requires t in s.invs && s.invs[t].pc == Fetching
    ensures var inv := s.invs[t]; var st := ClaimStep(s, t, claim);
            var (db', err) := AfterClaimSql(s.db, inv.env, inv.attempt, t, claim.now, claim.sql);
            && Enabled(s, st) && Apply(s, st).db == db'
            && Apply(s, st).invs[t].pc ==
               (var early := if err.Some? then err else AfterClaim(Reply(s.db, inv.env));
                if early.Some? then Reporting(early.value) else Handling(claim.now))
  {
  }

  /** What a call does after its handler is the mark step of the interleaved system, taken on
      whatever tables the other steps have left by then. */
  lemma MarkRefinesStep(s: System, t: Token, o: Observed, mark: Stmt)
    requires t in s.invs && s.invs[t].pc.Handling? && s.invs[t].pc.claimedAt <= mark.now
    ensures var (m, r) := RouteOf(s, t, o); var st := MarkStep(s, t, o, mark);
            var (db', err) := AfterMark(s.db, s.invs[t].env, t, m, mark.now, mark.sql);
            && Enabled(s, st) && Apply(s, st).db == db'
            && Apply(s, st).invs[t].pc == Reporting(if err.Some? then err.value else r)
  {
  }

  /** A whole call is those two steps: it claims in state `s0`, and marks in any later state `s1` in
      which its invocation is still in the handler, unless the claim already ended it. The final
      tables and the result are those of the last step it took. */
  lemma CallRefinesSteps(s0: System, s1: System, t: Token, registered: bool, claim: Stmt, run: HandlerRun, mark: Stmt,
                         db': Tables, result: JobResult)
    requires t in s0.invs && s0.invs[t].pc == Fetching
    requires var pc := PcAfter(s0, ClaimStep(s0, t, claim));
             pc.Handling? ==>
               t in s1.invs && s1.invs[t] == s0.invs[t].(pc := pc) && s1.cfg == s0.cfg && claim.now <= mark.now
    requires var inv := s0.invs[t];
             Handled(s0.db, Call(inv.env, inv.attempt, inv.maxAttempts, t), registered, s0.cfg.policy, claim, run,
                     s1.db, mark, db', result)
    ensures var st := ClaimStep(s0, t, claim); var pc := PcAfter(s0, st);
            && Enabled(s0, st)
            && (pc.Handling? ==> pc == Handling(claim.now))
            && (!pc.Handling? ==> TablesAfter(s0, st) == db' && pc == Reporting(result))
    ensures PcAfter(s0, ClaimStep(s0, t, claim)).Handling? ==>
              var st := MarkStep(s1, t, if registered then Seen(run) else NotRegistered, mark);
              Enabled(s1, st) && TablesAfter(s1, st) == db' && PcAfter(s1, st) == Reporting(result)
  {
    ClaimRefinesStep(s0, t, claim);
    if PcAfter(s0, ClaimStep(s0, t, claim)).Handling? {
      MarkRefinesStep(s1, t, if registered then Seen(run) else NotRegistered, mark);
    }
  }

  /** The handler's own result is honoured as it is; a decode failure, a panic or a timeout never
      counts as success or as a skip, keeps its text, and is final only under the strict setting. */
  lemma FaultsAreNotResults(policy: Policy, run: HandlerRun)
    ensures var result := ResultOf(policy, Seen(run));
            && (run.Finished? ==> result == run.error)
            && (!run.Finished? ==> result.Some? && !result.value.Skip?)
            && (!run.Finished? ==>
                  (result.value.Abort? <==>
                    (run.NotDecoded? && policy.decode.DecodeAbort?) || (run.Unwound? && policy.panic.PanicDead?)))
            && (run.NotDecoded? ==> result.value.reason == run.message)
            && (run.Unwound? ==> Utf8.Clean(result.value.reason) == Utf8.Clean("panic: " + run.payload))
  {
    if run.Unwound? { PanicText(run.payload); }
  }

  // ---- what the handler said -----------------------------------------------

  predicate Succeeds(run: HandlerRun) {
    run == HandlerRun.Finished(None)
  }

  predicate Skips(run: HandlerRun) {
    run.Finished? && run.error.Some? && run.error.value.Skip?
  }

  /** No further attempt can mend it, by the handler's word or by the settings. Any end that is
      neither this nor a success nor a skip is worth retrying. */
  predicate Fatal(policy: Policy, run: HandlerRun) {
    || (run.Finished? && run.error.Some? && run.error.value.Abort?)
    || (run.NotDecoded? && policy.decode == DecodeAbort)
    || (run.Unwound? && policy.panic == PanicDead)
  }

  /** Why a call did not succeed, in the words of whoever says so. */
  function Reason(policy: Policy, registered: bool, run: HandlerRun): string
    requires registered ==> !Succeeds(run)
  {
    if !registered then policy.notRegistered
    else match run
         case Finished(error) => error.value.reason
         case NotDecoded(message) => message
         case Unwound(payload) => "panic: " + payload
         case Elapsed => policy.timedOut
  }

  /** The answer to the queue: a retry carries the delay the handler asked for. */
  ghost predicate Answers(policy: Policy, registered: bool, run: HandlerRun, result: JobResult) {
    if !registered then result == JobAbort(policy.notRegistered)
    else if Succeeds(run) then result == JobOk
    else
      var text := Utf8.Clean(Reason(policy, true, run));
      if Skips(run) then result == JobAbort("skipped: " + text)
      else if Fatal(policy, run) then result == JobAbort(text)
      else result == JobRetry(text, if run.Finished? then run.error.value.retryIn else None)
  }

  /** The answer after a failed statement: a deterministic error aborts, any other retries. */
  ghost predicate Excuses(sql: Sql, result: JobResult)
    requires sql.Failed?
  {
    if sql.deterministic then result.JobAbort? else result.JobRetry? && result.retryIn == None
  }

  /** The row before and after: only a mark's columns move. */
  ghost predicate OnlyMarked(was: Delivery, row: Delivery, now: Time) {
    row == was.(status := row.status, leaseToken := None, lastError := row.lastError, updatedAt := now,
                finishedAt := if row.status == AwaitingRetry then was.finishedAt else Some(now))
  }

  lemma {:induction false} SanitizeTail(a: string, b: string)
    ensures Utf8.Sanitize(a + Utf8.Sanitize(b)) == Utf8.Sanitize(a + b)
  {
  }

  /** Cleaning the prefixed text of a panic cleans its payload. */
  lemma {:induction false} PanicText(payload: string)
    ensures Utf8.Clean("panic: " + Utf8.Sanitize(payload)) == Utf8.Clean("panic: " + payload)
  {
    SanitizeTail("panic: ", payload);
  }

  /** What is marked, and answered, for each end of the handler. */
  lemma RouteDecides(policy: Policy, attempt: U32, maxAttempts: U32, registered: bool, run: HandlerRun)
    ensures var (m, r) := Route(policy, attempt, maxAttempts, if registered then Seen(run) else NotRegistered);
            && Answers(policy, registered, run, r)
            && (m.MarkSent? <==> registered && Succeeds(run))
            && (m.MarkSkipped? <==> registered && Skips(run))
            && (m.MarkRetry? <==>
                  registered && !Succeeds(run) && !Skips(run) && !Fatal(policy, run) && attempt < maxAttempts)
            && (!m.MarkSent? ==> MarkText(m) == Some(Utf8.Clean(Reason(policy, registered, run))))
  {
    if run.Unwound? { PanicText(run.payload); }
  }

  /** With its lease intact a call leaves the row as its handler said: sent, skipped, dead or
      awaiting_retry exactly for these ends, with the cleaned reason as text, and the queue is told
      the same, or of the error if the mark failed. */
  lemma HandlerDecides(db: Tables, c: Call, registered: bool, policy: Policy, claim: Stmt, run: HandlerRun,
                       meanwhile: Tables, mark: Stmt, db': Tables, result: JobResult)
    requires Handled(db, c, registered, policy, claim, run, meanwhile, mark, db', result)
    requires c.env.event in db.events && Claimable(db, c.env) && ClaimFits(db, c.env, c.attempt, c.token, claim.now)
    requires Fence(meanwhile, c.env, c.token) && RowChecks(meanwhile.deliveries[c.env])
    requires meanwhile.deliveries[c.env].lastAttemptedAt.value <= mark.now
    requires claim.sql == Done
    ensures if mark.sql.Done? then Answers(policy, registered, run, result) else Excuses(mark.sql, result)
    ensures !TookEffect(mark.sql) ==> db' == meanwhile
    ensures TookEffect(mark.sql) ==>
            && c.env in db'.deliveries && db' == SetRow(meanwhile, c.env, db'.deliveries[c.env])
            && OnlyMarked(meanwhile.deliveries[c.env], db'.deliveries[c.env], mark.now)
    ensures TookEffect(mark.sql) ==>
            var row := db'.deliveries[c.env];
            && (row.status == Sent <==> registered && Succeeds(run))
            && (row.status == Skipped <==> registered && Skips(run))
            && (row.status == Dead <==>
                  || !registered
                  || Fatal(policy, run)
                  || (!Succeeds(run) && !Skips(run) && c.attempt >= c.maxAttempts))
            && (row.status == AwaitingRetry <==>
                  registered && !Succeeds(run) && !Skips(run) && !Fatal(policy, run) && c.attempt < c.maxAttempts)
            && row.lastError ==
               if registered && Succeeds(run) then None else Some(Utf8.Clean(Reason(policy, registered, run)))
  {
    var o := if registered then Seen(run) else NotRegistered;
    var (m, r) := Route(policy, c.attempt, c.maxAttempts, o);
    BoundTextFits(policy, c.attempt, c.maxAttempts, o);
    MarkAlwaysFits(meanwhile, c.env, c.token, m, mark.now);
    RouteDecides(policy, c.attempt, c.maxAttempts, registered, run);
    assert TookEffect(mark.sql) ==> db' == MarkFenced(meanwhile, c.env, c.token, m, mark.now);
  }

  /** A call whose statements succeed and whose lease still stands at its mark leaves the row as
      its result says, touches nothing else, and gives row and queue the same text. */
  lemma UndisturbedCall(db: Tables, c: Call, registered: bool, policy: Policy, claim: Stmt, run: HandlerRun,
                        meanwhile: Tables, mark: Stmt, db': Tables, result: JobResult)
    requires Handled(db, c, registered, policy, claim, run, meanwhile, mark, db', result)
    requires c.env.event in db.events && Claimable(db, c.env) && ClaimFits(db, c.env, c.attempt, c.token, claim.now)
    requires Fence(meanwhile, c.env, c.token) && RowChecks(meanwhile.deliveries[c.env])
    requires meanwhile.deliveries[c.env].lastAttemptedAt.value <= mark.now
    requires claim.sql == Done && mark.sql == Done
    requires |policy.notRegistered| <= 2048
    requires forall i :: 0 <= i < |policy.notRegistered| ==> !Utf8.IsControl(policy.notRegistered[i])
    ensures c.env in db'.deliveries && db' == SetRow(meanwhile, c.env, db'.deliveries[c.env])
    ensures var row := db'.deliveries[c.env];
            && RowChecks(row) && row.leaseToken == None && row.status !in {Queued, Running}
            && (row.status == AwaitingRetry <==> Requeues(result, c.attempt, c.maxAttempts))
            && (row.status == Sent <==> result == JobOk) && (result == JobOk <==> registered && Succeeds(run))
            && (row.status == Skipped <==> registered && Skips(run))
            && (row.finishedAt == Some(mark.now) <==> row.status != AwaitingRetry)
            && row.attempts == meanwhile.deliveries[c.env].attempts
            && match result
               case JobOk => row.lastError == None
               case JobRetry(why, _) => row.lastError == Some(why)
               case JobAbort(why) =>
                 row.lastError.Some? && why == (if row.status == Skipped then "skipped: " else "") + row.lastError.value
  {
    var o := if registered then Seen(run) else NotRegistered;
    var (m, r) := Route(policy, c.attempt, c.maxAttempts, o);
    BoundTextFits(policy, c.attempt, c.maxAttempts, o);
    MarkAlwaysFits(meanwhile, c.env, c.token, m, mark.now);
    RouteAgreesWithQueue(policy, c.attempt, c.maxAttempts, o);
    SameTextInBothPlaces(policy, c.attempt, c.maxAttempts, o);
    HandlerDecides(db, c, registered, policy, claim, run, meanwhile, mark, db', result);
    assert db' == MarkFenced(meanwhile, c.env, c.token, m, mark.now) && result == r;
  }

  /** A call that never reaches its handler: a missing event or delivery row, a broken constraint and
      a deterministic database error abort the job, any other database error retries it. A failed claim
      that was applied claims the row all the same; one that was not leaves the tables alone. */
  lemma StoppedCall(db: Tables, c: Call, registered: bool, policy: Policy, claim: Stmt, run: HandlerRun,
                    meanwhile: Tables, mark: Stmt, db': Tables, result: JobResult)
    requires Handled(db, c, registered, policy, claim, run, meanwhile, mark, db', result)
    ensures !ClaimFits(db, c.env, c.attempt, c.token, claim.now) ==> db' == db && result.JobAbort?
    ensures ClaimFits(db, c.env, c.attempt, c.token, claim.now) ==>
            match claim.sql
            case Failed(applied, _) =>
              && Excuses(claim.sql, result)
              && (applied && Claimable(db, c.env) ==>
                    && c.env in db'.deliveries && db' == SetRow(db, c.env, db'.deliveries[c.env])
                    && IsClaimed(db.deliveries[c.env], db'.deliveries[c.env], c.attempt, c.token, claim.now))
              && (!applied || !Claimable(db, c.env) ==> db' == db)
            case Done =>
              && (c.env.event !in db.events ==> result == JobAbort("event row missing"))
              && (c.env.event in db.events && c.env !in db.deliveries ==>
                    db' == db && result == JobAbort("handler_delivery row not found"))
  {
  }

  /** A call that finds the delivery already terminal changes nothing and completes the job. */
  lemma TerminalIsLeftAlone(db: Tables, c: Call, registered: bool, policy: Policy, claim: Stmt, run: HandlerRun,
                            meanwhile: Tables, mark: Stmt, db': Tables, result: JobResult)
    requires Handled(db, c, registered, policy, claim, run, meanwhile, mark, db', result)
    requires c.env.event in db.events && c.env in db.deliveries && Terminal(db.deliveries[c.env].status)
    ensures db' == db
    ensures claim.sql == Done ==> result == JobOk
  {
  }

  /** A call whose lease was lost during the handler leaves the tables as the others left them. */
  lemma FencedOutCall(db: Tables, c: Call, registered: bool, policy: Policy, claim: Stmt, run: HandlerRun,
                      meanwhile: Tables, mark: Stmt, db': Tables, result: JobResult)
    requires Handled(db, c, registered, policy, claim, run, meanwhile, mark, db', result)
    requires c.env.event in db.events && Claimable(db, c.env) && ClaimFits(db, c.env, c.attempt, c.token, claim.now)
    requires claim.sql == Done && !Fence(meanwhile, c.env, c.token)
    ensures db' == meanwhile
    ensures if mark.sql.Done? then Answers(policy, registered, run, result) else Excuses(mark.sql, result)
  {
    RouteDecides(policy, c.attempt, c.maxAttempts, registered, run);
  }
}
