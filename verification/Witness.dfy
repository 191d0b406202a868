/** Concrete runs: the hypotheses of the drift results are met in reachable states, so that what
    they describe does happen. */
module Witness {
  import opened Wrappers
  import opened Schema
  import opened Routing
  import opened Fenced
  import opened World
  import opened Invariants
  import opened Lockstep
  import opened Drift
  import Fencing

  ghost predicate Reachable(s: System) {
    exists states, steps :: IsRun(states, steps) && states[|steps|] == s
  }

  lemma ReachableMatches(s: System)
    requires Reachable(s)
    ensures RowsMatch(s.db.deliveries, s.log) && TokensMatch(s.log, s.invs) && LeasesMatch(s.jobs, s.invs)
    ensures forall k :: k in s.db.deliveries ==> k.event in s.db.events
  {
    var states, steps :| IsRun(states, steps) && states[|steps|] == s;
    RunMatches(states, steps, |steps|);
  }

  lemma RunExtends(states: seq<System>, steps: seq<Step>, st: Step)
    requires IsRun(states, steps) && Enabled(states[|steps|], st)
    ensures IsRun(states + [Apply(states[|steps|], st)], steps + [st])
  {
    var states', steps' := states + [Apply(states[|steps|], st)], steps + [st];
    forall i | 0 <= i < |steps'| ensures Linked(states', steps', i) {
      if i < |steps| {
        assert Linked(states, steps, i);
        assert states'[i] == states[i] && states'[i + 1] == states[i + 1] && steps'[i] == steps[i];
      }
    }
  }

  lemma ReachableNext(s: System, st: Step)
    requires Reachable(s) && Enabled(s, st)
    ensures Reachable(Apply(s, st))
  {
    var states, steps :| IsRun(states, steps) && states[|steps|] == s;
    RunExtends(states, steps, st);
    var states', steps' := states + [Apply(s, st)], steps + [st];
    assert IsRun(states', steps') && states'[|steps'|] == Apply(s, st);
  }

  lemma ReachableMarkAndReport(s: System, t: Token, o: Observed, sql: Sql, now: Time)
    requires Reachable(s) && Enabled(s, MarkRow(t, o, sql, now))
    ensures Reachable(MarkAndReport(s, t, o, sql, now))
  {
    ReachableNext(s, MarkRow(t, o, sql, now));
    ReachableNext(Apply(s, MarkRow(t, o, sql, now)), Report(t));
  }

  lemma ReachableInit(s: System)
    requires Init(s)
    ensures Reachable(s)
  {
    var states, steps: seq<Step> := [s], [];
    assert IsRun(states, steps) && states[|steps|] == s;
  }

  // ---- one event, one handler ----------------------------------------------

  function Start(cfg: Cfg): System {
    Empty(cfg, 0)
  }

  ghost predicate OneHandler(cfg: Cfg, ty: string, h: string) {
    cfg.handlersFor == map[ty := [h]] && cfg.maxAttempts >= 1
  }

  /** A delivery with its job, ready for its first attempt, in a quiet system. */
  ghost predicate Delivered(s: System, h: string) {
    && s.cfg.maxAttempts >= 1 && s.invs == map[] && 0 in s.db.events
    && s.db.deliveries == map[DeliveryKey(0, h) := QueuedRow(0)]
    && s.jobs == map[0 := Job(DeliveryKey(0, h), 1, s.cfg.maxAttempts, Ready)]
  }

  lemma AfterBegin(cfg: Cfg, ty: string, h: string) returns (s: System)
    requires OneHandler(cfg, ty, h)
    ensures Reachable(s) && s == Start(cfg).(txs := map[0 := EmptyTx(0)], begun := {0})
  {
    ReachableInit(Start(cfg));
    ReachableNext(Start(cfg), Begin(0, 0));
    s := Apply(Start(cfg), Begin(0, 0));
  }

  lemma AfterInsert(cfg: Cfg, ty: string, h: string) returns (s: System)
    requires OneHandler(cfg, ty, h)
    ensures Reachable(s)
    ensures s == Start(cfg).(txs := map[0 := InsertEvent(EmptyTx(0), 0, Event(ty, "", 0), [h])], begun := {0},
            minted := map[0 := 0])
  {
    var s1 := AfterBegin(cfg, ty, h);
    assert HandlersFor(cfg.handlersFor, ty) == [h];
    ReachableNext(s1, Insert(0, 0, ty, ""));
    s := Apply(s1, Insert(0, 0, ty, ""));
  }

  lemma OneJob(h: string)
    ensures OneJobEach(map[0 := h], [h], map[])
  {
    assert 0 in map[0 := h] && map[0 := h][0] == h;
  }

  lemma AfterPush(cfg: Cfg, ty: string, h: string) returns (s: System)
    requires OneHandler(cfg, ty, h)
    ensures Reachable(s)
    ensures s.txs == map[0 := PushJobs(InsertEvent(EmptyTx(0), 0, Event(ty, "", 0), [h]), map[0 := h])]
    ensures s.cfg == cfg && s.db == Tables(map[], map[], map[]) && s.jobs == map[] && s.invs == map[]
  {
    var s1 := AfterInsert(cfg, ty, h);
    OneJob(h);
    PushCanRun(s1, map[0 := h]);
    ReachableNext(s1, Push(0, map[0 := h]));
    s := Apply(s1, Push(0, map[0 := h]));
  }

  lemma PushCanRun(s: System, ids: map<JobId, string>)
    requires 0 in s.txs && !s.txs[0].failed && s.txs[0].phase.Inserted?
    requires OneJobEach(ids, s.txs[0].phase.handlers, s.jobMinted)
    ensures Enabled(s, Push(0, ids)) && TxsAfter(s, Push(0, ids)) == s.txs[0 := PushJobs(s.txs[0], ids)]
  {
  }

  /** What the transaction of this dispatch has written. */
  lemma PushedTx(ty: string, h: string) returns (tx: Tx)
    ensures tx == PushJobs(InsertEvent(EmptyTx(0), 0, Event(ty, "", 0), [h]), map[0 := h])
    ensures tx.deliveries == {DeliveryKey(0, h)} && tx.jobs == map[0 := DeliveryKey(0, h)] && tx.keys == map[]
    ensures 0 in tx.events && tx.startedAt == 0 && tx.phase.Idle? && !tx.failed
  {
    tx := PushJobs(InsertEvent(EmptyTx(0), 0, Event(ty, "", 0), [h]), map[0 := h]);
    assert tx.deliveries == {DeliveryKey(0, h)};
    assert tx.jobs == map[0 := DeliveryKey(0, h)];
  }

  lemma CommitDelivers(s: System, tx: Tx, h: string)
    requires s.txs == map[0 := tx] && s.db == Tables(map[], map[], map[]) && s.jobs == map[] && s.invs == map[]
    requires s.cfg.maxAttempts >= 1
    requires tx.deliveries == {DeliveryKey(0, h)} && tx.jobs == map[0 := DeliveryKey(0, h)] && tx.keys == map[]
    requires 0 in tx.events && tx.startedAt == 0 && tx.phase.Idle? && !tx.failed
    ensures Enabled(s, Commit(0)) && Delivered(Apply(s, Commit(0)), h)
  {
    assert EffectOf(s, Commit(0)) == Fresh(tx.deliveries, 0);
    assert RowsAfter(s.db.deliveries, Fresh(tx.deliveries, 0)) == map[DeliveryKey(0, h) := QueuedRow(0)];
    assert JobsAfter(s, Commit(0)) == map[0 := Job(DeliveryKey(0, h), 1, s.cfg.maxAttempts, Ready)];
  }

  lemma AfterCommit(cfg: Cfg, ty: string, h: string) returns (s: System)
    requires OneHandler(cfg, ty, h)
    ensures Reachable(s) && Delivered(s, h) && s.cfg == cfg
  {
    var s1 := AfterPush(cfg, ty, h);
    var tx := PushedTx(ty, h);
    CommitDelivers(s1, tx, h);
    ReachableNext(s1, Commit(0));
    s := Apply(s1, Commit(0));
  }

  /** Invocation `t` has leased the job and not yet claimed the queued row. */
  ghost predicate Leasing(s: System, h: string, t: Token) {
    && 0 in s.db.events && s.db.deliveries == map[DeliveryKey(0, h) := QueuedRow(0)]
    && s.jobs == map[0 := Job(DeliveryKey(0, h), 1, s.cfg.maxAttempts, Leased(t))]
    && t in s.invs && s.invs[t] == Invocation(0, DeliveryKey(0, h), 1, s.cfg.maxAttempts, Fetching)
  }

  lemma LeaseOfReady(s: System, k: DeliveryKey, budget: U32, t: Token)
    requires t !in s.invs && s.jobs == map[0 := Job(k, 1, budget, Ready)]
    ensures Enabled(s, Lease(0, t))
    ensures JobsAfter(s, Lease(0, t)) == map[0 := Job(k, 1, budget, Leased(t))]
    ensures InvsAfter(s, Lease(0, t)) == s.invs[t := Invocation(0, k, 1, budget, Fetching)]
  {
  }

  lemma AfterLease(s: System, h: string, t: Token) returns (s': System)
    requires Reachable(s) && t !in s.invs && 0 in s.db.events
    requires s.db.deliveries == map[DeliveryKey(0, h) := QueuedRow(0)]
    requires s.jobs == map[0 := Job(DeliveryKey(0, h), 1, s.cfg.maxAttempts, Ready)]
    ensures Reachable(s') && Leasing(s', h, t) && s'.cfg == s.cfg && s'.invs == s.invs[t := s'.invs[t]]
  {
    LeaseOfReady(s, DeliveryKey(0, h), s.cfg.maxAttempts, t);
    ReachableNext(s, Lease(0, t));
    s' := Apply(s, Lease(0, t));
  }

  lemma AfterClaim1(s: System, h: string, t: Token) returns (s': System)
    requires Reachable(s) && Leasing(s, h, t)
    ensures Reachable(s') && HoldsLease(s', t) && s'.cfg == s.cfg
    ensures s'.invs == s.invs[t := s.invs[t].(pc := Handling(0))]
    ensures Fence(s'.db, s'.invs[t].env, t)
    ensures Claimable(s'.db, DeliveryKey(0, h)) && s'.db.deliveries[DeliveryKey(0, h)].firstAttemptedAt == Some(0)
    ensures s'.db.deliveries[DeliveryKey(0, h)].lastAttemptedAt == Some(0) && s'.jobs == s.jobs
  {
    var k := DeliveryKey(0, h);
    assert Claimable(s.db, k) && RowChecks(s.db.deliveries[k]);
    ClaimFitsIff(s.db, k, 1, t, 0);
    ClaimEffect(s, t, 0);
    ReachableNext(s, ClaimRow(t, Done, 0));
    s' := Apply(s, ClaimRow(t, Done, 0));
  }

  /** A reachable state in which the queue has killed the job of a delivery that was sent. */
  lemma KilledAlthoughSent(cfg: Cfg, ty: string, h: string) returns (s: System)
    requires OneHandler(cfg, ty, h) && cfg.maxAttempts == 1
    ensures Reachable(s) && 0 in s.jobs && s.jobs[0].phase == Killed
    ensures DeliveryKey(0, h) in s.db.deliveries && s.db.deliveries[DeliveryKey(0, h)].status == Sent
  {
    var s0 := AfterCommit(cfg, ty, h);
    var s1 := AfterLease(s0, h, 0);
    var s2 := AfterClaim1(s1, h, 0);
    s := MarkedLast(s2, h);
  }

  lemma MarkedLast(s: System, h: string) returns (s': System)
    requires Reachable(s) && HoldsLease(s, 0) && s.invs[0].pc == Handling(0)
    requires s.invs[0].attempt >= s.invs[0].maxAttempts
    requires s.invs[0].job == 0 && s.invs[0].env == DeliveryKey(0, h) && Fence(s.db, DeliveryKey(0, h), 0)
    ensures Reachable(s') && 0 in s'.jobs && s'.jobs[0].phase == Killed
    ensures DeliveryKey(0, h) in s'.db.deliveries && s'.db.deliveries[DeliveryKey(0, h)].status == Sent
  {
    ReachableMatches(s);
    Fencing.MarksBreakNoConstraint(s, 0, Returned(None), 0);
    ReachableMarkAndReport(s, 0, Returned(None), Failed(true, false), 0);
    LostReplyKillsSentJob(s, 0, 0);
    s' := MarkAndReport(s, 0, Returned(None), Failed(true, false), 0);
  }

  lemma AfterReap(s: System, k: DeliveryKey, budget: U32) returns (s': System)
    requires Reachable(s) && s.jobs == map[0 := Job(k, 1, budget, Leased(0))]
    ensures Reachable(s') && s'.db == s.db && s'.jobs == map[0 := Job(k, 1, budget, Ready)]
    ensures s'.invs == s.invs && s'.cfg == s.cfg
  {
    ReachableNext(s, Reap(0, 1));
    s' := Apply(s, Reap(0, 1));
  }

  /** Invocation 1 is in its handler; invocation 0 lost its lease before it claimed. */
  ghost predicate Overtaken(s: System, h: string) {
    && HoldsLease(s, 1) && s.invs[1].pc == Handling(0) && s.invs[1].job == 0
    && 0 in s.invs && s.invs[0].pc == Fetching && !HoldsLease(s, 0)
    && s.invs[0].env == s.invs[1].env == DeliveryKey(0, h) && Fence(s.db, DeliveryKey(0, h), 1)
    && s.db.deliveries[DeliveryKey(0, h)].firstAttemptedAt == Some(0)
  }

  lemma AfterOvertaking(cfg: Cfg, ty: string, h: string) returns (s: System)
    requires OneHandler(cfg, ty, h)
    ensures Reachable(s) && Overtaken(s, h) && s.invs[1].attempt == 1 && s.invs[1].maxAttempts == cfg.maxAttempts
  {
    var s0 := AfterCommit(cfg, ty, h);
    var s1 := AfterLease(s0, h, 0);
    var s2 := AfterReap(s1, DeliveryKey(0, h), cfg.maxAttempts);
    var s3 := AfterLease(s2, h, 1);
    s := AfterClaim1(s3, h, 1);
  }

  /** A reachable state in which the queue has finished a job whose row is still running. */
  lemma FinishedWhileRunning(cfg: Cfg, ty: string, h: string) returns (s: System)
    requires OneHandler(cfg, ty, h)
    ensures Reachable(s) && 0 in s.jobs && s.jobs[0].phase == Finished
    ensures DeliveryKey(0, h) in s.db.deliveries && s.db.deliveries[DeliveryKey(0, h)].status == Running
  {
    var s1 := AfterOvertaking(cfg, ty, h);
    s := OvertakenByLate(s1, h);
  }

  lemma OvertakenByLate(s: System, h: string) returns (s': System)
    requires Reachable(s) && Overtaken(s, h)
    ensures Reachable(s') && 0 in s'.jobs && s'.jobs[0].phase == Finished
    ensures DeliveryKey(0, h) in s'.db.deliveries && s'.db.deliveries[DeliveryKey(0, h)].status == Running
  {
    ReachableMatches(s);
    ClaimFitsIff(s.db, DeliveryKey(0, h), s.invs[0].attempt, 0, 0);
    LateClaimBreaksLockstep(s, 0, 1, 0);
    ReachableNext(s, ClaimRow(0, Done, 0));
    ReachableMarkAndReport(Apply(s, ClaimRow(0, Done, 0)), 1, Returned(None), Done, 0);
    s' := MarkAndReport(Apply(s, ClaimRow(0, Done, 0)), 1, Returned(None), Done, 0);
  }

  // ---- the other ways to drift ---------------------------------------------

  /** The lease of invocation 0 runs out, and invocation 1 leases the job. */
  lemma LeasedAgain(s: System, k: DeliveryKey) returns (s': System)
    requires Reachable(s) && s.jobs == map[0 := Job(k, 1, 1, Leased(0))] && 1 !in s.invs
    ensures Reachable(s') && s'.db == s.db && s'.jobs == map[0 := Job(k, 1, 1, Leased(1))]
    ensures s'.invs == s.invs[1 := Invocation(0, k, 1, 1, Fetching)]
  {
    var s1 := AfterReap(s, k, 1);
    s' := AfterSecondLease(s1, k);
  }

  lemma AfterSecondLease(s: System, k: DeliveryKey) returns (s': System)
    requires Reachable(s) && s.jobs == map[0 := Job(k, 1, 1, Ready)] && 1 !in s.invs
    ensures Reachable(s') && s'.db == s.db && s'.jobs == map[0 := Job(k, 1, 1, Leased(1))]
    ensures s'.invs == s.invs[1 := Invocation(0, k, 1, 1, Fetching)]
  {
    ReachableNext(s, Lease(0, 1));
    s' := Apply(s, Lease(0, 1));
  }

  lemma ClaimFails(s: System, k: DeliveryKey) returns (s': System)
    requires Reachable(s) && 1 in s.invs && s.invs[1] == Invocation(0, k, 1, 1, Fetching) && ClaimFits(s.db, k, 1, 1, 0)
    ensures Reachable(s') && s'.db == s.db && s'.jobs == s.jobs
    ensures s'.invs == s.invs[1 := Invocation(0, k, 1, 1, Reporting(MapSql(false, "fetch delivery")))]
  {
    ReachableNext(s, ClaimRow(1, Failed(false, false), 0));
    s' := Apply(s, ClaimRow(1, Failed(false, false), 0));
  }

  /** Its claim fails, unapplied, with a transient error, on the last attempt: the queue kills the job. */
  lemma KilledByFailedClaim(s: System, k: DeliveryKey) returns (s': System)
    requires Reachable(s) && s.jobs == map[0 := Job(k, 1, 1, Leased(0))] && 0 in s.invs && 1 !in s.invs
    requires ClaimFits(s.db, k, 1, 1, 0)
    ensures Reachable(s') && s'.db == s.db && s'.jobs == map[0 := Job(k, 1, 1, Killed)]
    ensures 0 in s'.invs && s'.invs[0] == s.invs[0]
  {
    var s1 := LeasedAgain(s, k);
    var s2 := ClaimFails(s1, k);
    ReachableNext(s2, Report(1));
    s' := Apply(s2, Report(1));
  }

  /** One delivery of a job with a single attempt, claimed and in its handler. */
  lemma Claimed1(cfg: Cfg, ty: string, h: string) returns (s: System)
    requires OneHandler(cfg, ty, h) && cfg.maxAttempts == 1
    ensures var k := DeliveryKey(0, h);
            && Reachable(s) && s.jobs == map[0 := Job(k, 1, 1, Leased(0))]
            && s.invs == map[0 := Invocation(0, k, 1, 1, Handling(0))]
            && Fence(s.db, k, 0) && s.db.deliveries[k].firstAttemptedAt == s.db.deliveries[k].lastAttemptedAt == Some(0)
  {
    var s0 := AfterCommit(cfg, ty, h);
    var s1 := AfterLease(s0, h, 0);
    s := AfterClaim1(s1, h, 0);
  }

  lemma MarkedSent(s: System, k: DeliveryKey) returns (s': System)
    requires Reachable(s) && 0 in s.invs && s.invs[0] == Invocation(0, k, 1, 1, Handling(0))
    requires Fence(s.db, k, 0) && s.db.deliveries[k].lastAttemptedAt == Some(0)
    ensures Reachable(s') && SentIn(s'.db.deliveries, k) && s'.jobs == s.jobs && s'.invs.Keys == s.invs.Keys
  {
    ReachableMatches(s);
    MarkCanSettle(s, 0, 0);
    ReachableNext(s, MarkRow(0, Returned(None), Done, 0));
    s' := Apply(s, MarkRow(0, Returned(None), Done, 0));
  }

  /** Without any failing mark: the row is sent, the lease runs out before the report, and the claim
      of the next holder fails. */
  lemma FailedClaimKillsSent(cfg: Cfg, ty: string, h: string) returns (s: System)
    requires OneHandler(cfg, ty, h) && cfg.maxAttempts == 1
    ensures Reachable(s) && Drifted(s, 0) && s.jobs[0].env == DeliveryKey(0, h)
  {
    var s0 := Claimed1(cfg, ty, h);
    var s1 := MarkedSent(s0, DeliveryKey(0, h));
    s := KilledByFailedClaim(s1, DeliveryKey(0, h));
  }

  /** The job is killed first, and then the overtaken invocation marks its row sent. */
  lemma StaleMarkSendsKilled(cfg: Cfg, ty: string, h: string) returns (s: System)
    requires OneHandler(cfg, ty, h) && cfg.maxAttempts == 1
    ensures Reachable(s) && Drifted(s, 0) && s.jobs[0].env == DeliveryKey(0, h)
  {
    var s0 := Claimed1(cfg, ty, h);
    ReachableMatches(s0);
    ClaimFitsIff(s0.db, DeliveryKey(0, h), 1, 1, 0);
    var s1 := KilledByFailedClaim(s0, DeliveryKey(0, h));
    s := MarkedSent(s1, DeliveryKey(0, h));
  }

  // ---- a stranded row and its rescue ---------------------------------------

  lemma OthersKeptByMarkAndReport(s: System, t: Token, o: Observed, sql: Sql, now: Time, u: Token)
    requires Enabled(s, MarkRow(t, o, sql, now)) && u in s.invs && u != t
    ensures var s' := MarkAndReport(s, t, o, sql, now);
            u in s'.invs && s'.invs[u] == s.invs[u] && s'.db.events == s.db.events
  {
  }

  /** On the last attempt the mark fails, unapplied: the job is killed and the row left running. */
  lemma StrandedRow(cfg: Cfg, ty: string, h: string) returns (s: System)
    requires OneHandler(cfg, ty, h) && cfg.maxAttempts == 1
    ensures Reachable(s) && Abandoned(s, 0) && s.jobs[0].env == DeliveryKey(0, h)
    ensures DeliveryKey(0, h) in s.db.deliveries && s.db.deliveries[DeliveryKey(0, h)].status == Running
    ensures s.db.deliveries[DeliveryKey(0, h)].firstAttemptedAt == Some(0)
    ensures 0 in s.invs && s.invs[0].pc == Fetching && s.invs[0].env == DeliveryKey(0, h)
  {
    var s1 := AfterOvertaking(cfg, ty, h);
    s := MarkFailsLast(s1, h);
  }

  lemma MarkFailsLast(s: System, h: string) returns (s': System)
    requires Reachable(s) && Overtaken(s, h) && s.invs[1].attempt >= s.invs[1].maxAttempts
    ensures Reachable(s') && Abandoned(s', 0) && s'.jobs[0].env == DeliveryKey(0, h)
    ensures s'.db.deliveries == s.db.deliveries && 0 in s'.invs && s'.invs[0] == s.invs[0]
  {
    var sql := Failed(false, false);
    ReachableMatches(s);
    Fencing.MarksBreakNoConstraint(s, 1, TimedOut, 0);
    ReachableMarkAndReport(s, 1, TimedOut, sql, 0);
    StrandedIsAbandoned(s, 1, TimedOut, sql, 0);
    AfterMarkAndReport(s, 1, TimedOut, sql, 0);
    OthersKeptByMarkAndReport(s, 1, TimedOut, sql, 0, 0);
    s' := MarkAndReport(s, 1, TimedOut, sql, 0);
  }

  /** The worker that lost its lease then claims the stranded row, and its handler succeeds. */
  lemma StrandedRowIsRescued(cfg: Cfg, ty: string, h: string) returns (s: System, s': System)
    requires OneHandler(cfg, ty, h) && cfg.maxAttempts == 1
    ensures Reachable(s) && Abandoned(s, 0) && s.jobs[0].env == DeliveryKey(0, h)
    ensures DeliveryKey(0, h) in s.db.deliveries && s.db.deliveries[DeliveryKey(0, h)].status == Running
    ensures Enabled(s, ClaimRow(0, Done, 0))
    ensures Enabled(Apply(s, ClaimRow(0, Done, 0)), MarkRow(0, Returned(None), Done, 0))
    ensures s' == Apply(Apply(s, ClaimRow(0, Done, 0)), MarkRow(0, Returned(None), Done, 0))
    ensures Reachable(s') && SentIn(s'.db.deliveries, DeliveryKey(0, h))
  {
    s := StrandedRow(cfg, ty, h);
    s' := Rescued(s, h);
  }

  lemma Rescued(s: System, h: string) returns (s': System)
    requires Reachable(s) && Abandoned(s, 0) && s.jobs[0].env == DeliveryKey(0, h) && Claimable(s.db, DeliveryKey(0, h))
    requires s.db.deliveries[DeliveryKey(0, h)].firstAttemptedAt == Some(0)
    requires 0 in s.invs && s.invs[0].pc == Fetching && s.invs[0].env == DeliveryKey(0, h)
    ensures Enabled(s, ClaimRow(0, Done, 0))
    ensures Enabled(Apply(s, ClaimRow(0, Done, 0)), MarkRow(0, Returned(None), Done, 0))
    ensures s' == Apply(Apply(s, ClaimRow(0, Done, 0)), MarkRow(0, Returned(None), Done, 0))
    ensures Reachable(s') && SentIn(s'.db.deliveries, DeliveryKey(0, h))
  {
    ReachableMatches(s);
    ClaimFitsIff(s.db, DeliveryKey(0, h), s.invs[0].attempt, 0, 0);
    LateClaimRescues(s, 0, 0, 0);
    ReachableNext(s, ClaimRow(0, Done, 0));
    ReachableNext(Apply(s, ClaimRow(0, Done, 0)), MarkRow(0, Returned(None), Done, 0));
    s' := Apply(Apply(s, ClaimRow(0, Done, 0)), MarkRow(0, Returned(None), Done, 0));
  }
}
