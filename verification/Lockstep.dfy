/** The audit rows and the queue's jobs as two state machines in lockstep, in calm runs: no
    claim or mark statement fails, the queue never cancels an invocation from outside, and
    a claim statement runs only while its lease is current. Crashes, reaps, stale marks and
    purges still happen. */
module Lockstep {
  import opened Wrappers
  import opened Schema
  import opened Routing
  import opened Fenced
  import opened Ledger
  import opened World
  import opened Invariants

  predicate HoldsLease(s: System, t: Token) {
    t in s.invs && s.invs[t].job in s.jobs && s.jobs[s.invs[t].job].phase == Leased(t)
  }

  predicate Calm(s: System, st: Step) {
    && (st.ClaimRow? ==> st.sql.Done? && HoldsLease(s, st.t))
    && (st.MarkRow? ==> st.sql.Done?)
    && !st.Cancel?
  }

  /** The step purges no delivery row. */
  predicate Kept(st: Step) {
    !st.DropDelivery? && !st.DropEvent?
  }

  predicate OpenAt(h: History, t: Token) {
    h.entries != [] && h.entries[|h.entries| - 1].Claimed? && h.entries[|h.entries| - 1].token == t
  }

  predicate EndsUnsent(h: History) {
    h.entries != [] && h.entries[|h.entries| - 1].Marked? && h.entries[|h.entries| - 1].mark != MarkSent
  }

  /** The simulation relation, for one job and the history of its delivery. `kept` says that the
      row is still there; then the job was not killed over a delivery that was sent. */
  ghost predicate InStep(job: Job, h: History, invs: map<Token, Invocation>, kept: bool) {
    match job.phase
    case Ready => true
    case Finished => Settled(h)
    case Killed => Settled(h) && (kept ==> EndsUnsent(h))
    case Leased(t) => t in invs ==> HolderInStep(job, h, t, invs[t].pc, kept)
  }

  predicate HolderInStep(job: Job, h: History, t: Token, pc: Pc, kept: bool) {
    match pc
    case Handling(_) => OpenAt(h, t)
    case Reporting(r) =>
      && (!Requeues(r, job.attempt, job.maxAttempts) ==> Settled(h))
      && (kept && !r.JobOk? ==> EndsUnsent(h))
    case _ => true
  }

  ghost predicate Simulates(jobs: map<JobId, Job>, log: map<DeliveryKey, History>, invs: map<Token, Invocation>,
                            rows: map<DeliveryKey, Delivery>) {
    forall j :: j in jobs && jobs[j].env in log ==> InStep(jobs[j], log[jobs[j].env], invs, jobs[j].env in rows)
  }

  /** The part of the invariant the simulation rests on. */
  ghost predicate Sound(s: System) {
    RowsMatch(s.db.deliveries, s.log) && LeasesMatch(s.jobs, s.invs) && JobEnvs(s.jobs, s.log) && KeysResolve(s.db)
  }

  /** A mark of an invocation that does not hold the lease keeps the job in step. */
  lemma StaleMarkInStep(job: Job, h: History, invs: map<Token, Invocation>, t: Token, m: Mark, now: Time, kept: bool)
    requires InStep(job, h, invs, kept) && OpenAt(h, t) && job.phase != Leased(t)
    ensures InStep(job, Extend(h, Marked(t, m, now)), invs, kept)
  {
  }

  /** A row that passes the fence is open in its history, and the other way round. */
  lemma FenceIffOpen(db: Tables, log: map<DeliveryKey, History>, k: DeliveryKey, t: Token)
    requires RowsMatch(db.deliveries, log) && k in log
    ensures Fence(db, k, t) <==> OpenAt(log[k], t)
  {
    RunningIffLastEntryClaims(log[k], t);
  }

  /** What a successful mark that passes the fence writes. */
  lemma MarkEffect(s: System, t: Token, o: Observed, now: Time)
    requires t in s.invs && Fence(s.db, s.invs[t].env, t)
    ensures var st := MarkRow(t, o, Done, now); var (m, r) := RouteOf(s, t, o);
            EffectOf(s, st) == Write(s.invs[t].env, Marked(t, m, now)) && PcAfter(s, st) == Reporting(r)
  {
  }

  /** Only the lease holder of its job claims a delivery in a calm run; so what another
      invocation writes on it is a mark that passes the fence. */
  lemma OtherEntryIsMark(s: System, st: Step, j: JobId)
    requires LeasesMatch(s.jobs, s.invs) && JobEnvs(s.jobs, s.log) && Enabled(s, st) && Calm(s, st)
    requires j in s.jobs && (InvocationStep(st) ==> s.jobs[j].phase != Leased(st.t))
    requires EffectOf(s, st).Write? && EffectOf(s, st).k == s.jobs[j].env
    ensures st.MarkRow? && st.sql == Done && st.t in s.invs && s.invs[st.t].env == s.jobs[j].env
    ensures Fence(s.db, s.jobs[j].env, st.t)
  {
    assert st.t in s.invs && s.jobs[s.invs[st.t].job].env == s.jobs[j].env;
  }

  /** The step writes on the delivery of `job` at most a mark of an invocation without its lease. */
  predicate AtMostStaleMark(s: System, st: Step, job: Job) {
    EffectOf(s, st).Write? && EffectOf(s, st).k == job.env ==>
      && st.MarkRow? && st.sql == Done && st.t in s.invs && s.invs[st.t].env == job.env && job.phase != Leased(st.t)
      && Fence(s.db, job.env, st.t) && job.env in s.log && OpenAt(s.log[job.env], st.t)
  }

  lemma OthersMarkAtMost(s: System, st: Step, j: JobId)
    requires RowsMatch(s.db.deliveries, s.log) && LeasesMatch(s.jobs, s.invs) && JobEnvs(s.jobs, s.log)
    requires Enabled(s, st) && Calm(s, st)
    requires j in s.jobs && (InvocationStep(st) ==> s.jobs[j].phase != Leased(st.t))
    ensures AtMostStaleMark(s, st, s.jobs[j])
  {
    if EffectOf(s, st).Write? && EffectOf(s, st).k == s.jobs[j].env {
      OtherEntryIsMark(s, st, j);
      FenceIffOpen(s.db, s.log, s.jobs[j].env, st.t);
    }
  }

  /** An entry that another invocation writes on a delivery keeps its job in step. */
  lemma OtherEntryKeepsInStep(s: System, st: Step, job: Job, kept: bool)
    requires AtMostStaleMark(s, st, job) && !st.Commit? && job.env in s.log && InStep(job, s.log[job.env], s.invs, kept)
    ensures job.env in LogAfter(s.log, EffectOf(s, st))
    ensures InStep(job, LogAfter(s.log, EffectOf(s, st))[job.env], s.invs, kept)
  {
    var eff := EffectOf(s, st);
    if eff.Write? && eff.k == job.env {
      assert st == MarkRow(st.t, st.o, Done, st.now);
      StaleMarkKeepsInStep(s, st.t, st.o, st.now, job, kept);
    } else {
      EntriesElsewhere(s.log, eff, job.env);
    }
  }

  lemma StaleMarkKeepsInStep(s: System, t: Token, o: Observed, now: Time, job: Job, kept: bool)
    requires t in s.invs && Fence(s.db, s.invs[t].env, t) && s.invs[t].env in s.log && OpenAt(s.log[s.invs[t].env], t)
    requires job.phase != Leased(t) && InStep(job, s.log[s.invs[t].env], s.invs, kept)
    ensures var log' := LogAfter(s.log, EffectOf(s, MarkRow(t, o, Done, now)));
            s.invs[t].env in log' && InStep(job, log'[s.invs[t].env], s.invs, kept)
  {
    MarkEffect(s, t, o, now);
    StaleMarkInStep(job, s.log[s.invs[t].env], s.invs, t, RouteOf(s, t, o).0, now, kept);
  }

  lemma EntriesElsewhere(log: map<DeliveryKey, History>, eff: Effect, k: DeliveryKey)
    requires k in log && !eff.Fresh? && !(eff.Write? && eff.k == k)
    ensures k in LogAfter(log, eff) && LogAfter(log, eff)[k] == log[k]
  {
  }

  /** Without a claimable row the claim query proves the delivery settled, and the result is
      not a retry. */
  lemma UnclaimableIsSettled(s: System, k: DeliveryKey)
    requires RowsMatch(s.db.deliveries, s.log) && KeysResolve(s.db) && k in s.log && !Claimable(s.db, k)
    ensures Settled(s.log[k])
    ensures AfterClaim(Reply(s.db, k)).Some?
    ensures k in s.db.deliveries ==> AfterClaim(Reply(s.db, k)) == Some(JobOk)
  {
    SettledIffTerminal(s.log[k]);
  }

  /** What a successful claim writes, if the row can be claimed, and where it leads. */
  lemma ClaimEffect(s: System, t: Token, now: Time)
    requires t in s.invs && (Claimable(s.db, s.invs[t].env) ==> s.invs[t].env.event in s.db.events)
    ensures var st := ClaimRow(t, Done, now); var k := s.invs[t].env;
            if Claimable(s.db, k) then
              EffectOf(s, st) == Write(k, Claimed(t, Clamp(s.invs[t].attempt), now)) && PcAfter(s, st) == Handling(now)
            else
              && EffectOf(s, st) == Nothing
              && (var r := AfterClaim(Reply(s.db, k)); r.Some? ==> PcAfter(s, st) == Reporting(r.value))
  {
  }

  lemma ClaimKeepsInStep(s: System, t: Token, now: Time, kept: bool)
    requires RowsMatch(s.db.deliveries, s.log) && KeysResolve(s.db) && HoldsLease(s, t) && s.invs[t].env in s.log
    requires kept ==> s.invs[t].env in s.db.deliveries
    ensures var k := s.invs[t].env; var log' := LogAfter(s.log, EffectOf(s, ClaimRow(t, Done, now)));
            k in log' && HolderInStep(s.jobs[s.invs[t].job], log'[k], t, PcAfter(s, ClaimRow(t, Done, now)), kept)
  {
    var k := s.invs[t].env;
    ClaimEffect(s, t, now);
    if !Claimable(s.db, k) {
      UnclaimableIsSettled(s, k);
    }
  }

  lemma MarkedInStep(job: Job, h: History, t: Token, m: Mark, r: JobResult, now: Time, kept: bool)
    requires Terminal(NewStatus(m)) <==> !Requeues(r, job.attempt, job.maxAttempts)
    requires NewStatus(m) == Sent <==> r == JobOk
    ensures HolderInStep(job, Extend(h, Marked(t, m, now)), t, Reporting(r), kept)
  {
  }

  lemma MarkKeepsInStep(s: System, t: Token, o: Observed, now: Time, kept: bool)
    requires RowsMatch(s.db.deliveries, s.log) && HoldsLease(s, t)
    requires s.invs[t].env in s.log && OpenAt(s.log[s.invs[t].env], t)
    requires s.invs[t].attempt == s.jobs[s.invs[t].job].attempt
    requires s.invs[t].maxAttempts == s.jobs[s.invs[t].job].maxAttempts
    ensures var k := s.invs[t].env; var log' := LogAfter(s.log, EffectOf(s, MarkRow(t, o, Done, now)));
            Fence(s.db, k, t) && k in log'
            && HolderInStep(s.jobs[s.invs[t].job], log'[k], t, PcAfter(s, MarkRow(t, o, Done, now)), kept)
  {
    FenceIffOpen(s.db, s.log, s.invs[t].env, t);
    MarkEffect(s, t, o, now);
    RouteAgreesWithQueue(s.cfg.policy, s.invs[t].attempt, s.invs[t].maxAttempts, o);
    MarkedInStep(s.jobs[s.invs[t].job], s.log[s.invs[t].env], t, RouteOf(s, t, o).0, RouteOf(s, t, o).1, now, kept);
  }

  lemma ReportKeepsInStep(job: Job, h: History, invs: map<Token, Invocation>, t: Token, invs': map<Token, Invocation>,
                          kept: bool)
    requires job.phase == Leased(t) && t in invs && invs[t].pc.Reporting? && InStep(job, h, invs, kept)
    ensures InStep(Settle(job, invs[t].pc.result), h, invs', kept)
  {
  }

  /** A step that does not concern the lease holder of `j` changes neither it nor its job,
      unless it leases or reaps `j`. */
  lemma OtherStepsLeaveJob(s: System, st: Step, j: JobId)
    requires LeasesMatch(s.jobs, s.invs) && Enabled(s, st) && j in s.jobs && !st.Commit?
    requires InvocationStep(st) ==> s.jobs[j].phase != Leased(st.t)
    ensures j in JobsAfter(s, st)
    ensures JobsAfter(s, st)[j] == s.jobs[j] || ((st.Lease? || st.Reap?) && st.j == j)
    ensures s.jobs[j].phase.Leased? ==> var t := s.jobs[j].phase.token;
                                        t in InvsAfter(s, st) && InvsAfter(s, st)[t] == s.invs[t]
  {
    OtherStepsLeavePhase(s, st, j);
    if s.jobs[j].phase.Leased? {
      OtherStepsLeaveHolder(s, st, s.jobs[j].phase.token);
    }
  }

  lemma OtherStepsLeavePhase(s: System, st: Step, j: JobId)
    requires j in s.jobs && !st.Commit? && (InvocationStep(st) ==> s.jobs[j].phase != Leased(st.t))
    ensures j in JobsAfter(s, st)
    ensures JobsAfter(s, st)[j] == s.jobs[j] || ((st.Lease? || st.Reap?) && st.j == j)
  {
  }

  lemma OtherStepsLeaveHolder(s: System, st: Step, t: Token)
    requires Enabled(s, st) && t in s.invs && (InvocationStep(st) ==> st.t != t)
    ensures t in InvsAfter(s, st) && InvsAfter(s, st)[t] == s.invs[t]
  {
  }

  lemma OthersKeepInStep(s: System, st: Step, j: JobId, kept: bool)
    requires Sound(s) && Enabled(s, st) && Calm(s, st) && Allowed(s.db.deliveries, s.log, EffectOf(s, st))
    requires !st.Commit?
    requires j in s.jobs && InStep(s.jobs[j], s.log[s.jobs[j].env], s.invs, kept)
    requires InvocationStep(st) ==> s.jobs[j].phase != Leased(st.t)
    ensures j in JobsAfter(s, st) && s.jobs[j].env in LogAfter(s.log, EffectOf(s, st))
    ensures InStep(JobsAfter(s, st)[j], LogAfter(s.log, EffectOf(s, st))[s.jobs[j].env], InvsAfter(s, st), kept)
  {
    OthersMarkAtMost(s, st, j);
    OtherEntryKeepsInStep(s, st, s.jobs[j], kept);
    OtherStepsLeaveJob(s, st, j);
    SameJobInStep(s, st, j, LogAfter(s.log, EffectOf(s, st))[s.jobs[j].env], kept);
  }

  lemma SameJobInStep(s: System, st: Step, j: JobId, h: History, kept: bool)
    requires LeasesMatch(s.jobs, s.invs) && Enabled(s, st) && j in s.jobs && j in JobsAfter(s, st)
    requires InStep(s.jobs[j], h, s.invs, kept)
    requires JobsAfter(s, st)[j] == s.jobs[j] || ((st.Lease? || st.Reap?) && st.j == j)
    requires s.jobs[j].phase.Leased? ==> var t := s.jobs[j].phase.token;
                                         t in InvsAfter(s, st) && InvsAfter(s, st)[t] == s.invs[t]
    ensures InStep(JobsAfter(s, st)[j], h, InvsAfter(s, st), kept)
  {
  }

  /** A worker step other than a report moves its own invocation and no job. */
  lemma WorkMovesOnlyItself(s: System, st: Step)
    requires InvocationStep(st) && !st.Report? && st.t in s.invs
    ensures JobsAfter(s, st) == s.jobs && InvsAfter(s, st) == s.invs[st.t := s.invs[st.t].(pc := PcAfter(s, st))]
  {
  }

  lemma HolderMoves(job: Job, h: History, invs: map<Token, Invocation>, t: Token, inv: Invocation, kept: bool)
    requires job.phase == Leased(t) && HolderInStep(job, h, t, inv.pc, kept)
    ensures InStep(job, h, invs[t := inv], kept)
  {
  }

  lemma HolderKeepsInStep(s: System, st: Step, j: JobId, kept: bool)
    requires Sound(s) && Enabled(s, st) && Calm(s, st) && InvocationStep(st)
    requires j in s.jobs && (kept ==> s.jobs[j].env in s.db.deliveries)
    requires s.jobs[j].phase == Leased(st.t) && InStep(s.jobs[j], s.log[s.jobs[j].env], s.invs, kept)
    ensures j in JobsAfter(s, st) && s.jobs[j].env in LogAfter(s.log, EffectOf(s, st))
    ensures InStep(JobsAfter(s, st)[j], LogAfter(s.log, EffectOf(s, st))[s.jobs[j].env], InvsAfter(s, st), kept)
  {
    if st.Report? {
      ReportKeepsInStep(s.jobs[j], s.log[s.jobs[j].env], s.invs, st.t, InvsAfter(s, st), kept);
    } else {
      HolderWorksInStep(s, st, j, kept);
      WorkMovesOnlyItself(s, st);
      HolderMoves(s.jobs[j], LogAfter(s.log, EffectOf(s, st))[s.jobs[j].env], s.invs, st.t,
        s.invs[st.t].(pc := PcAfter(s, st)), kept);
    }
  }

  /** The lease holder and its job agree. */
  lemma HolderFacts(s: System, j: JobId)
    requires LeasesMatch(s.jobs, s.invs) && j in s.jobs && s.jobs[j].phase.Leased?
    ensures var t := s.jobs[j].phase.token;
            && HoldsLease(s, t) && s.invs[t].job == j && s.invs[t].env == s.jobs[j].env
            && s.invs[t].attempt == s.jobs[j].attempt && s.invs[t].maxAttempts == s.jobs[j].maxAttempts
  {
  }

  lemma HolderWorksInStep(s: System, st: Step, j: JobId, kept: bool)
    requires RowsMatch(s.db.deliveries, s.log) && KeysResolve(s.db) && LeasesMatch(s.jobs, s.invs) && Enabled(s, st)
    requires Calm(s, st)
    requires InvocationStep(st) && !st.Report? && j in s.jobs && s.jobs[j].phase == Leased(st.t)
    requires s.jobs[j].env in s.log
    requires kept ==> s.jobs[j].env in s.db.deliveries
    requires InStep(s.jobs[j], s.log[s.jobs[j].env], s.invs, kept)
    ensures s.jobs[j].env in LogAfter(s.log, EffectOf(s, st))
    ensures HolderInStep(s.jobs[j], LogAfter(s.log, EffectOf(s, st))[s.jobs[j].env], st.t, PcAfter(s, st), kept)
  {
    HolderFacts(s, j);
    if st.ClaimRow? {
      assert st == ClaimRow(st.t, Done, st.now);
      ClaimKeepsInStep(s, st.t, st.now, kept);
    } else if st.MarkRow? {
      assert st == MarkRow(st.t, st.o, Done, st.now);
      HolderIsOpen(s.jobs[j], s.log[s.jobs[j].env], s.invs, st.t, kept);
      MarkKeepsInStep(s, st.t, st.o, st.now, kept);
    } else {
      assert st.Crash?;
      CrashedInStep(s, st, j, kept);
    }
  }

  lemma HolderIsOpen(job: Job, h: History, invs: map<Token, Invocation>, t: Token, kept: bool)
    requires InStep(job, h, invs, kept) && job.phase == Leased(t) && t in invs && invs[t].pc.Handling?
    ensures OpenAt(h, t)
  {
  }

  lemma CrashedInStep(s: System, st: Step, j: JobId, kept: bool)
    requires st.Crash? && st.t in s.invs && j in s.jobs && s.jobs[j].env in s.log
    ensures s.jobs[j].env in LogAfter(s.log, EffectOf(s, st))
    ensures HolderInStep(s.jobs[j], LogAfter(s.log, EffectOf(s, st))[s.jobs[j].env], st.t, PcAfter(s, st), kept)
  {
  }

  lemma StepKeepsInStep(s: System, st: Step, j: JobId, kept: bool)
    requires Sound(s) && Enabled(s, st) && Calm(s, st) && Allowed(s.db.deliveries, s.log, EffectOf(s, st))
    requires !st.Commit? && j in s.jobs && (kept ==> s.jobs[j].env in s.db.deliveries)
    requires InStep(s.jobs[j], s.log[s.jobs[j].env], s.invs, kept)
    ensures j in JobsAfter(s, st) && s.jobs[j].env in LogAfter(s.log, EffectOf(s, st))
    ensures InStep(JobsAfter(s, st)[j], LogAfter(s.log, EffectOf(s, st))[s.jobs[j].env], InvsAfter(s, st), kept)
  {
    if InvocationStep(st) {
      if s.jobs[j].phase == Leased(st.t) {
        HolderKeepsInStep(s, st, j, kept);
      } else {
        OthersKeepInStep(s, st, j, kept);
      }
    } else {
      OthersKeepInStep(s, st, j, kept);
    }
  }

  /** What holds while the row is there holds all the more when it is gone. */
  lemma KeptWeakens(job: Job, h: History, invs: map<Token, Invocation>, kept: bool, kept': bool)
    requires InStep(job, h, invs, kept) && (kept' ==> kept)
    ensures InStep(job, h, invs, kept')
  {
  }

  /** A delivery whose row is gone does not get one again. */
  lemma RowsDoNotReturn(rows: map<DeliveryKey, Delivery>, log: map<DeliveryKey, History>, eff: Effect, k: DeliveryKey)
    requires Allowed(rows, log, eff) && k in log && k in RowsAfter(rows, eff)
    ensures k in rows
  {
  }

  /** Commits push jobs that are ready and leave the others alone. */
  lemma CommitKeepsSimulation(s: System, x: TxId)
    requires Sound(s) && Simulates(s.jobs, s.log, s.invs, s.db.deliveries) && x in s.txs
    requires s.jobs.Keys !! s.txs[x].jobs.Keys && forall k :: k in s.txs[x].deliveries ==> k !in s.log
    ensures var eff := EffectOf(s, Commit(x));
            Simulates(JobsAfter(s, Commit(x)), LogAfter(s.log, eff), s.invs, RowsAfter(s.db.deliveries, eff))
  {
    var eff, jobs' := EffectOf(s, Commit(x)), JobsAfter(s, Commit(x));
    var log', rows' := LogAfter(s.log, eff), RowsAfter(s.db.deliveries, eff);
    forall j | j in jobs' && jobs'[j].env in log'
      ensures InStep(jobs'[j], log'[jobs'[j].env], s.invs, jobs'[j].env in rows')
    {
      if j in s.jobs {
        assert jobs'[j] == s.jobs[j] && log'[s.jobs[j].env] == s.log[s.jobs[j].env];
        assert s.jobs[j].env in rows' <==> s.jobs[j].env in s.db.deliveries;
      }
    }
  }

  lemma StepKeepsInStepNow(s: System, st: Step, j: JobId)
    requires Sound(s) && Enabled(s, st) && Calm(s, st) && Allowed(s.db.deliveries, s.log, EffectOf(s, st))
    requires !st.Commit? && j in s.jobs
    requires InStep(s.jobs[j], s.log[s.jobs[j].env], s.invs, s.jobs[j].env in s.db.deliveries)
    ensures j in JobsAfter(s, st) && s.jobs[j].env in LogAfter(s.log, EffectOf(s, st))
    ensures InStep(JobsAfter(s, st)[j], LogAfter(s.log, EffectOf(s, st))[s.jobs[j].env], InvsAfter(s, st),
                   s.jobs[j].env in RowsAfter(s.db.deliveries, EffectOf(s, st)))
  {
    var k, eff := s.jobs[j].env, EffectOf(s, st);
    StepKeepsInStep(s, st, j, k in s.db.deliveries);
    if k in RowsAfter(s.db.deliveries, eff) {
      RowsDoNotReturn(s.db.deliveries, s.log, eff, k);
    }
    KeptWeakens(JobsAfter(s, st)[j], LogAfter(s.log, eff)[k], InvsAfter(s, st), k in s.db.deliveries,
                k in RowsAfter(s.db.deliveries, eff));
  }

  lemma StepKeepsInStepAll(s: System, st: Step)
    requires Sound(s) && Simulates(s.jobs, s.log, s.invs, s.db.deliveries) && Enabled(s, st) && Calm(s, st)
    requires Allowed(s.db.deliveries, s.log, EffectOf(s, st)) && !st.Commit?
    ensures var eff := EffectOf(s, st);
            Simulates(JobsAfter(s, st), LogAfter(s.log, eff), InvsAfter(s, st), RowsAfter(s.db.deliveries, eff))
  {
    var eff, jobs', invs' := EffectOf(s, st), JobsAfter(s, st), InvsAfter(s, st);
    var log', rows' := LogAfter(s.log, eff), RowsAfter(s.db.deliveries, eff);
    SameEnvs(s, st);
    forall j | j in s.jobs
      ensures s.jobs[j].env in log' && InStep(jobs'[j], log'[s.jobs[j].env], invs', s.jobs[j].env in rows')
    {
      StepKeepsInStepNow(s, st, j);
    }
    EachInStep(s.jobs, jobs', log', invs', rows');
  }

  lemma EachInStep(jobs: map<JobId, Job>, jobs': map<JobId, Job>, log: map<DeliveryKey, History>,
                   invs: map<Token, Invocation>, rows: map<DeliveryKey, Delivery>)
    requires jobs'.Keys == jobs.Keys && forall j :: j in jobs ==> jobs'[j].env == jobs[j].env
    requires forall j :: j in jobs ==>
               jobs[j].env in log && InStep(jobs'[j], log[jobs[j].env], invs, jobs[j].env in rows)
    ensures Simulates(jobs', log, invs, rows)
  {
  }

  lemma StepKeepsSimulation(s: System, st: Step)
    requires Sound(s) && CommitReady(s, st) && Allowed(s.db.deliveries, s.log, EffectOf(s, st))
    requires Simulates(s.jobs, s.log, s.invs, s.db.deliveries) && Enabled(s, st) && Calm(s, st)
    ensures var eff := EffectOf(s, st);
            Simulates(JobsAfter(s, st), LogAfter(s.log, eff), InvsAfter(s, st), RowsAfter(s.db.deliveries, eff))
  {
    if st.Commit? {
      assert st == Commit(st.x) && InvsAfter(s, st) == s.invs;
      CommitKeepsSimulation(s, st.x);
    } else {
      StepKeepsInStepAll(s, st);
    }
  }

  /** Every state of a run offers what these proofs rest on. */
  lemma RunIsSound(states: seq<System>, steps: seq<Step>, i: nat)
    requires IsRun(states, steps) && i < |steps|
    ensures Sound(states[i]) && CommitReady(states[i], steps[i])
    ensures Enabled(states[i], steps[i]) && states[i + 1] == Apply(states[i], steps[i])
    ensures Allowed(states[i].db.deliveries, states[i].log, EffectOf(states[i], steps[i]))
  {
    RunIsGood(states, steps, i);
    assert Linked(states, steps, i);
    GoodIsReady(states[i], steps[i]);
    EffectAllowed(states[i], steps[i]);
  }

  lemma KeptRowsStay(s: System, st: Step)
    requires Kept(st) && Enabled(s, st) && s.log.Keys <= s.db.deliveries.Keys
    ensures LogAfter(s.log, EffectOf(s, st)).Keys <= RowsAfter(s.db.deliveries, EffectOf(s, st)).Keys
  {
  }

  /** What the main results need of a reachable state. */
  lemma RunMatches(states: seq<System>, steps: seq<Step>, i: nat)
    requires IsRun(states, steps) && i < |states|
    ensures var s := states[i];
            && RowsMatch(s.db.deliveries, s.log) && TokensMatch(s.log, s.invs)
            && LeasesMatch(s.jobs, s.invs) && JobEnvs(s.jobs, s.log) && KeysResolve(s.db)
  {
    RunIsGood(states, steps, i);
  }

  ghost predicate CalmRun(states: seq<System>, steps: seq<Step>) {
    IsRun(states, steps) && forall n :: 0 <= n < |steps| ==> Calm(states[n], steps[n])
  }

  lemma SimulatesNext(states: seq<System>, steps: seq<Step>, i: nat)
    requires CalmRun(states, steps) && i < |steps|
    requires Simulates(states[i].jobs, states[i].log, states[i].invs, states[i].db.deliveries)
    ensures Simulates(states[i + 1].jobs, states[i + 1].log, states[i + 1].invs, states[i + 1].db.deliveries)
  {
    var s, st := states[i], steps[i];
    RunIsSound(states, steps, i);
    StepKeepsSimulation(s, st);
    assert states[i + 1].jobs == JobsAfter(s, st) && states[i + 1].invs == InvsAfter(s, st)
           && states[i + 1].log == LogAfter(s.log, EffectOf(s, st))
           && states[i + 1].db.deliveries == RowsAfter(s.db.deliveries, EffectOf(s, st));
  }

  lemma {:induction false} CalmRunSimulates(states: seq<System>, steps: seq<Step>, i: nat)
    requires CalmRun(states, steps) && i < |states|
    ensures Simulates(states[i].jobs, states[i].log, states[i].invs, states[i].db.deliveries)
  {
    if i > 0 {
      CalmRunSimulates(states, steps, i - 1);
      SimulatesNext(states, steps, i - 1);
    }
  }

  /** In every calm run a job that the queue has finished or killed has a recorded verdict;
      its audit row, unless purged since, is terminal. */
  lemma FinishedJobHasVerdict(states: seq<System>, steps: seq<Step>, i: nat, j: JobId)
    requires CalmRun(states, steps) && i < |states|
    requires j in states[i].jobs && (states[i].jobs[j].phase.Finished? || states[i].jobs[j].phase.Killed?)
    ensures var k := states[i].jobs[j].env;
            && k in states[i].log && Settled(states[i].log[k])
            && (k in states[i].db.deliveries ==> Terminal(states[i].db.deliveries[k].status))
  {
    CalmRunSimulates(states, steps, i);
    RunMatches(states, steps, i);
    SettledIffTerminal(states[i].log[states[i].jobs[j].env]);
  }

  /** In every calm run, whatever is purged, the row of a killed job is dead or skipped if it is still
      there. */
  lemma KilledRowIsUnsent(states: seq<System>, steps: seq<Step>, i: nat, j: JobId)
    requires CalmRun(states, steps) && i < |states|
    requires j in states[i].jobs && states[i].jobs[j].phase.Killed?
    ensures var k := states[i].jobs[j].env;
            k in states[i].db.deliveries ==> states[i].db.deliveries[k].status in {Dead, Skipped}
  {
    CalmRunSimulates(states, steps, i);
    RunMatches(states, steps, i);
    var k := states[i].jobs[j].env;
    assert InStep(states[i].jobs[j], states[i].log[k], states[i].invs, k in states[i].db.deliveries);
    SettledIffTerminal(states[i].log[k]);
  }

  lemma {:induction false} KeptRunKeepsRows(states: seq<System>, steps: seq<Step>, i: nat)
    requires IsRun(states, steps) && (forall n :: 0 <= n < |steps| ==> Kept(steps[n])) && i < |states|
    ensures states[i].log.Keys <= states[i].db.deliveries.Keys
  {
    if i > 0 {
      KeptRunKeepsRows(states, steps, i - 1);
      assert Linked(states, steps, i - 1);
      KeptRowsStay(states[i - 1], steps[i - 1]);
    }
  }

  /** In particular, in a calm run that purges no delivery row a killed job has its row, unsent. */
  lemma KilledJobWasNotSent(states: seq<System>, steps: seq<Step>, i: nat, j: JobId)
    requires CalmRun(states, steps) && (forall n :: 0 <= n < |steps| ==> Kept(steps[n])) && i < |states|
    requires j in states[i].jobs && states[i].jobs[j].phase.Killed?
    ensures var k := states[i].jobs[j].env;
            k in states[i].db.deliveries && states[i].db.deliveries[k].status in {Dead, Skipped}
  {
    KilledRowIsUnsent(states, steps, i, j);
    KeptRunKeepsRows(states, steps, i);
    RunMatches(states, steps, i);
  }

  // ---- what a failing mark does --------------------------------------------

  predicate Over(job: Job) {
    job.phase.Finished? || job.phase.Killed?
  }

  /** The lease holder marks with statement outcome `sql` and reports. */
  ghost function MarkAndReport(s: System, t: Token, o: Observed, sql: Sql, now: Time): System
    requires Enabled(s, MarkRow(t, o, sql, now))
  {
    Apply(Apply(s, MarkRow(t, o, sql, now)), Report(t))
  }

  lemma AfterMarkOnly(s: System, t: Token, o: Observed, sql: Sql, now: Time)
    requires Enabled(s, MarkRow(t, o, sql, now)) && Fence(s.db, s.invs[t].env, t) && s.invs[t].env in s.log
    ensures var s1 := Apply(s, MarkRow(t, o, sql, now)); var (m, r) := RouteOf(s, t, o); var k := s.invs[t].env;
            && s1.jobs == s.jobs && t in s1.invs
            && s1.invs[t] == s.invs[t].(pc := Reporting(if sql.Done? then r else MapSql(sql.deterministic, "mark")))
            && s1.log == (if TookEffect(sql) then s.log[k := Extend(s.log[k], Marked(t, m, now))] else s.log)
            && s1.db.deliveries ==
               (if TookEffect(sql) then s.db.deliveries[k := MarkedRow(s.db.deliveries[k], m, now)]
                else s.db.deliveries)
  {
  }

  lemma AfterMarkAndReport(s: System, t: Token, o: Observed, sql: Sql, now: Time)
    requires LeasesMatch(s.jobs, s.invs) && Enabled(s, MarkRow(t, o, sql, now)) && HoldsLease(s, t)
    requires Fence(s.db, s.invs[t].env, t) && s.invs[t].env in s.log
    ensures var s' := MarkAndReport(s, t, o, sql, now); var (m, r) := RouteOf(s, t, o);
            var k := s.invs[t].env; var j := s.invs[t].job;
            && j in s'.jobs
            && s'.jobs[j] == Settle(s.jobs[j], if sql.Done? then r else MapSql(sql.deterministic, "mark"))
            && s'.log == (if TookEffect(sql) then s.log[k := Extend(s.log[k], Marked(t, m, now))] else s.log)
            && s'.db.deliveries ==
               (if TookEffect(sql) then s.db.deliveries[k := MarkedRow(s.db.deliveries[k], m, now)]
                else s.db.deliveries)
  {
    AfterMarkOnly(s, t, o, sql, now);
    var s1 := Apply(s, MarkRow(t, o, sql, now));
    assert JobsAfter(s1, Report(t)) == s1.jobs[s1.invs[t].job := Settle(s1.jobs[s1.invs[t].job], s1.invs[t].pc.result)];
  }

  lemma JobOverRowOpenIff(job: Job, h: History, t: Token, m: Mark, r: JobResult, sql: Sql, now: Time)
    requires OpenAt(h, t) && (Terminal(NewStatus(m)) <==> !Requeues(r, job.attempt, job.maxAttempts))
    ensures var result := if sql.Done? then r else MapSql(sql.deterministic, "mark");
            var h' := if TookEffect(sql) then Extend(h, Marked(t, m, now)) else h;
            Over(Settle(job, result)) && !Settled(h') <==>
            sql.Failed? && !Requeues(MapSql(sql.deterministic, "mark"), job.attempt, job.maxAttempts)
            && !(sql.applied && Terminal(NewStatus(m)))
  {
  }

  /** Exactly when a mark and report end the job and leave the audit row open: the statement failed
      with no delivery left, and did not make the row terminal all the same. */
  lemma StrandedIff(s: System, t: Token, o: Observed, sql: Sql, now: Time)
    requires RowsMatch(s.db.deliveries, s.log) && LeasesMatch(s.jobs, s.invs)
    requires Enabled(s, MarkRow(t, o, sql, now)) && HoldsLease(s, t) && Fence(s.db, s.invs[t].env, t)
    ensures var s' := MarkAndReport(s, t, o, sql, now); var k := s.invs[t].env; var inv := s.invs[t];
            && inv.job in s'.jobs && k in s'.log
            && (Over(s'.jobs[inv.job]) && !Settled(s'.log[k]) <==>
                sql.Failed? && !Requeues(MapSql(sql.deterministic, "mark"), inv.attempt, inv.maxAttempts)
                && !(sql.applied && Terminal(NewStatus(RouteOf(s, t, o).0))))
  {
    var inv := s.invs[t];
    AfterMarkAndReport(s, t, o, sql, now);
    FenceIffOpen(s.db, s.log, inv.env, t);
    RouteAgreesWithQueue(s.cfg.policy, inv.attempt, inv.maxAttempts, o);
    var (m, r) := RouteOf(s, t, o);
    JobOverRowOpenIff(s.jobs[inv.job], s.log[inv.env], t, m, r, sql, now);
  }

  lemma JobKilledRowSentIff(job: Job, d: Delivery, m: Mark, r: JobResult, sql: Sql, now: Time)
    requires d.status == Running && (NewStatus(m) == Sent <==> r == JobOk)
    ensures var result := if sql.Done? then r else MapSql(sql.deterministic, "mark");
            var d' := if TookEffect(sql) then MarkedRow(d, m, now) else d;
            Settle(job, result).phase.Killed? && d'.status == Sent <==>
            m == MarkSent && sql.Failed? && sql.applied
            && !Requeues(MapSql(sql.deterministic, "mark"), job.attempt, job.maxAttempts)
  {
  }

  /** Exactly when the queue kills the job of a delivery this mark makes `sent`: the mark
      applied but its reply was lost, with no delivery left. Fencing does not prevent it. */
  lemma SentButKilledIff(s: System, t: Token, o: Observed, sql: Sql, now: Time)
    requires RowsMatch(s.db.deliveries, s.log) && LeasesMatch(s.jobs, s.invs)
    requires Enabled(s, MarkRow(t, o, sql, now)) && HoldsLease(s, t) && Fence(s.db, s.invs[t].env, t)
    ensures var s' := MarkAndReport(s, t, o, sql, now); var k := s.invs[t].env; var inv := s.invs[t];
            && inv.job in s'.jobs && k in s'.db.deliveries
            && (s'.jobs[inv.job].phase.Killed? && s'.db.deliveries[k].status == Sent <==>
                RouteOf(s, t, o).0 == MarkSent && sql.Failed? && sql.applied
                && !Requeues(MapSql(sql.deterministic, "mark"), inv.attempt, inv.maxAttempts))
  {
    AfterMarkAndReport(s, t, o, sql, now);
    RouteAgreesWithQueue(s.cfg.policy, s.invs[t].attempt, s.invs[t].maxAttempts, o);
    var (m, r) := RouteOf(s, t, o);
    JobKilledRowSentIff(s.jobs[s.invs[t].job], s.db.deliveries[s.invs[t].env], m, r, sql, now);
  }

  /** The case itself: on the last attempt the handler succeeds and the mark commits, but its
      reply is lost to a transient error. */
  lemma LostReplyKillsSentJob(s: System, t: Token, now: Time)
    requires RowsMatch(s.db.deliveries, s.log) && LeasesMatch(s.jobs, s.invs) && HoldsLease(s, t)
    requires Fence(s.db, s.invs[t].env, t)
    requires Enabled(s, MarkRow(t, Returned(None), Failed(true, false), now))
    requires s.invs[t].attempt >= s.invs[t].maxAttempts
    ensures var s' := MarkAndReport(s, t, Returned(None), Failed(true, false), now); var inv := s.invs[t];
            && inv.job in s'.jobs && s'.jobs[inv.job].phase.Killed?
            && inv.env in s'.db.deliveries && s'.db.deliveries[inv.env].status == Sent
  {
    SentButKilledIff(s, t, Returned(None), Failed(true, false), now);
  }

  // ---- why claims need the current lease -----------------------------------

  /** The claim statement does not compare tokens: a late claim takes a running row over. */
  lemma LateClaimRestamps(s: System, t: Token, now: Time)
    requires t in s.invs && s.invs[t].pc == Fetching && Claimable(s.db, s.invs[t].env)
    requires ClaimFits(s.db, s.invs[t].env, s.invs[t].attempt, t, now)
    ensures var st := ClaimRow(t, Done, now); var k := s.invs[t].env;
            && Enabled(s, st)
            && Fence(Apply(s, st).db, k, t)
            && Apply(s, st).jobs == s.jobs && Apply(s, st).cfg == s.cfg
            && forall u :: u != t && u in s.invs ==> u in Apply(s, st).invs && Apply(s, st).invs[u] == s.invs[u]
  {
  }

  /** A fenced-out mark changes no row and its result still settles the job. */
  lemma AfterFencedOutMark(s: System, t: Token, o: Observed, now: Time)
    requires Enabled(s, MarkRow(t, o, Done, now)) && HoldsLease(s, t) && !Fence(s.db, s.invs[t].env, t)
    ensures var s' := MarkAndReport(s, t, o, Done, now); var j := s.invs[t].job;
            && s'.db.deliveries == s.db.deliveries
            && j in s'.jobs && s'.jobs[j] == Settle(s.jobs[j], RouteOf(s, t, o).1)
  {
  }

  /** The hypothesis of a calm run is needed: let an expired lease holder `t` claim late, while
      the current one `u` is in its handler. The handler of `u` succeeds, the queue finishes the
      job, and the audit row is still running, in the hands of a worker no one waits for. */
  lemma LateClaimBreaksLockstep(s: System, t: Token, u: Token, now: Time)
    requires t in s.invs && s.invs[t].pc == Fetching && !HoldsLease(s, t)
    requires HoldsLease(s, u) && s.invs[u].pc.Handling? && s.invs[u].pc.claimedAt <= now
    requires s.invs[t].env == s.invs[u].env && Fence(s.db, s.invs[u].env, u)
    requires ClaimFits(s.db, s.invs[t].env, s.invs[t].attempt, t, now)
    ensures Enabled(s, ClaimRow(t, Done, now))
    ensures Enabled(Apply(s, ClaimRow(t, Done, now)), MarkRow(u, Returned(None), Done, now))
    ensures var s' := MarkAndReport(Apply(s, ClaimRow(t, Done, now)), u, Returned(None), Done, now);
            && s.invs[u].job in s'.jobs && s'.jobs[s.invs[u].job].phase.Finished?
            && s.invs[u].env in s'.db.deliveries && s'.db.deliveries[s.invs[u].env].status == Running
  {
    LateClaimRestamps(s, t, now);
    var s1 := Apply(s, ClaimRow(t, Done, now));
    assert s1.invs[u] == s.invs[u] && HoldsLease(s1, u) && !Fence(s1.db, s1.invs[u].env, u);
    AfterFencedOutMark(s1, u, Returned(None), now);
  }
}
