/** Termination: in smooth runs (calm, without crashes and reaps) every delivery reaches its
    verdict within `max_attempts` claims, whatever the handler does on each attempt. */
module Progress {
  import opened Schema
  import opened Routing
  import opened Fenced
  import opened Ledger
  import opened World
  import opened Invariants
  import opened Lockstep
  import Fencing

  predicate Smooth(s: System, st: Step) {
    Calm(s, st) && !st.Crash? && !st.Reap?
  }

  /** A job's counters, phase and history all tell the same story. */
  ghost predicate OnCourse(job: Job, h: History, invs: map<Token, Invocation>) {
    && 1 <= job.attempt <= job.maxAttempts
    && match job.phase
       case Ready => Claims(h.entries) == job.attempt - 1 && !Settled(h)
       case Leased(t) => t in invs && HolderOnCourse(job, h, t, invs[t].pc)
       case _ => Claims(h.entries) <= job.maxAttempts && Settled(h)
  }

  ghost predicate HolderOnCourse(job: Job, h: History, t: Token, pc: Pc) {
    match pc
    case Fetching => Claims(h.entries) == job.attempt - 1 && !Settled(h)
    case Handling(_) => Claims(h.entries) == job.attempt && OpenAt(h, t)
    case Reporting(r) =>
      Claims(h.entries) == job.attempt && (Settled(h) <==> !Requeues(r, job.attempt, job.maxAttempts))
    case Gone => false
  }

  /** No lease is ever lost: an invocation that is not gone holds its own. */
  ghost predicate NoneStale(jobs: map<JobId, Job>, invs: map<Token, Invocation>) {
    forall t :: t in invs && !invs[t].pc.Gone? ==> invs[t].job in jobs && jobs[invs[t].job].phase == Leased(t)
  }

  ghost predicate AllOnCourse(jobs: map<JobId, Job>, log: map<DeliveryKey, History>, invs: map<Token, Invocation>) {
    && NoneStale(jobs, invs)
    && forall j :: j in jobs ==> jobs[j].env in log && OnCourse(jobs[j], log[jobs[j].env], invs)
  }

  lemma ClaimsExtend(h: History, en: Entry)
    ensures Claims(Extend(h, en).entries) == Claims(h.entries) + if en.Claimed? then 1 else 0
  {
    assert Extend(h, en).entries[..|h.entries|] == h.entries;
  }

  lemma ClaimStaysOnCourse(s: System, t: Token, now: Time)
    requires RowsMatch(s.db.deliveries, s.log) && KeysResolve(s.db) && HoldsLease(s, t) && s.invs[t].env in s.log
    requires HolderOnCourse(s.jobs[s.invs[t].job], s.log[s.invs[t].env], t, Fetching)
    ensures var st := ClaimRow(t, Done, now); var k := s.invs[t].env; var log' := LogAfter(s.log, EffectOf(s, st));
            k in log' && HolderOnCourse(s.jobs[s.invs[t].job], log'[k], t, PcAfter(s, st))
  {
    var k := s.invs[t].env;
    SettledIffTerminal(s.log[k]);
    ClaimEffect(s, t, now);
    ClaimsExtend(s.log[k], Claimed(t, Clamp(s.invs[t].attempt), now));
  }

  lemma MarkedOnCourse(job: Job, h: History, t: Token, policy: Policy, o: Observed, now: Time)
    requires HolderOnCourse(job, h, t, Handling(now))
    ensures var (m, r) := Route(policy, job.attempt, job.maxAttempts, o);
            HolderOnCourse(job, Extend(h, Marked(t, m, now)), t, Reporting(r))
  {
    var (m, r) := Route(policy, job.attempt, job.maxAttempts, o);
    RouteAgreesWithQueue(policy, job.attempt, job.maxAttempts, o);
    ClaimsExtend(h, Marked(t, m, now));
  }

  lemma MarkStaysOnCourse(s: System, t: Token, o: Observed, now: Time)
    requires RowsMatch(s.db.deliveries, s.log) && HoldsLease(s, t) && s.invs[t].env in s.log
    requires s.invs[t].attempt == s.jobs[s.invs[t].job].attempt
    requires s.invs[t].maxAttempts == s.jobs[s.invs[t].job].maxAttempts
    requires HolderOnCourse(s.jobs[s.invs[t].job], s.log[s.invs[t].env], t, Handling(now))
    ensures var st := MarkRow(t, o, Done, now); var k := s.invs[t].env; var log' := LogAfter(s.log, EffectOf(s, st));
            k in log' && HolderOnCourse(s.jobs[s.invs[t].job], log'[k], t, PcAfter(s, st))
  {
    var k := s.invs[t].env;
    FenceIffOpen(s.db, s.log, k, t);
    MarkEffect(s, t, o, now);
    MarkedOnCourse(s.jobs[s.invs[t].job], s.log[k], t, s.cfg.policy, o, now);
    assert LogAfter(s.log, EffectOf(s, MarkRow(t, o, Done, now)))[k] ==
      Extend(s.log[k], Marked(t, RouteOf(s, t, o).0, now));
  }

  lemma ReportStaysOnCourse(job: Job, h: History, invs: map<Token, Invocation>, t: Token, invs': map<Token, Invocation>)
    requires job.phase == Leased(t) && t in invs && invs[t].pc.Reporting? && OnCourse(job, h, invs)
    ensures OnCourse(Settle(job, invs[t].pc.result), h, invs')
  {
  }

  /** Whoever writes a delivery's history holds the lease of its job. */
  lemma WriterHoldsLease(s: System, st: Step)
    requires LeasesMatch(s.jobs, s.invs) && NoneStale(s.jobs, s.invs) && Enabled(s, st) && EffectOf(s, st).Write?
    ensures InvocationStep(st) && HoldsLease(s, st.t) && s.jobs[s.invs[st.t].job].env == EffectOf(s, st).k
  {
  }

  /** Only the lease holder of its job writes a delivery's history. */
  lemma OnlyHolderWrites(s: System, st: Step, j: JobId)
    requires LeasesMatch(s.jobs, s.invs) && JobEnvs(s.jobs, s.log) && NoneStale(s.jobs, s.invs) && Enabled(s, st)
    requires !st.Commit?
    requires j in s.jobs && (InvocationStep(st) ==> s.jobs[j].phase != Leased(st.t))
    ensures s.jobs[j].env in LogAfter(s.log, EffectOf(s, st))
    ensures LogAfter(s.log, EffectOf(s, st))[s.jobs[j].env] == s.log[s.jobs[j].env]
  {
    if EffectOf(s, st).Write? {
      WriterHoldsLease(s, st);
    }
    EntriesElsewhere(s.log, EffectOf(s, st), s.jobs[j].env);
  }

  lemma HolderStaysOnCourse(s: System, st: Step, j: JobId)
    requires RowsMatch(s.db.deliveries, s.log) && LeasesMatch(s.jobs, s.invs) && KeysResolve(s.db) && Enabled(s, st)
    requires Smooth(s, st)
    requires InvocationStep(st) && j in s.jobs && s.jobs[j].phase == Leased(st.t)
    requires s.jobs[j].env in s.log && OnCourse(s.jobs[j], s.log[s.jobs[j].env], s.invs)
    ensures j in JobsAfter(s, st) && s.jobs[j].env in LogAfter(s.log, EffectOf(s, st))
    ensures OnCourse(JobsAfter(s, st)[j], LogAfter(s.log, EffectOf(s, st))[s.jobs[j].env], InvsAfter(s, st))
  {
    if st.Report? {
      ReportStaysOnCourse(s.jobs[j], s.log[s.jobs[j].env], s.invs, st.t, InvsAfter(s, st));
    } else {
      HolderWorksOnCourse(s, st, j);
      WorkMovesOnlyItself(s, st);
    }
  }

  lemma HolderWorksOnCourse(s: System, st: Step, j: JobId)
    requires RowsMatch(s.db.deliveries, s.log) && LeasesMatch(s.jobs, s.invs) && KeysResolve(s.db) && Enabled(s, st)
    requires Smooth(s, st)
    requires InvocationStep(st) && !st.Report? && j in s.jobs && s.jobs[j].phase == Leased(st.t)
    requires s.jobs[j].env in s.log && OnCourse(s.jobs[j], s.log[s.jobs[j].env], s.invs)
    ensures s.jobs[j].env in LogAfter(s.log, EffectOf(s, st))
    ensures HolderOnCourse(s.jobs[j], LogAfter(s.log, EffectOf(s, st))[s.jobs[j].env], st.t, PcAfter(s, st))
  {
    if st.ClaimRow? {
      assert st == ClaimRow(st.t, Done, st.now);
      ClaimStaysOnCourse(s, st.t, st.now);
    } else {
      assert st == MarkRow(st.t, st.o, Done, st.now);
      MarkStaysOnCourse(s, st.t, st.o, st.now);
    }
  }

  lemma SameJobOnCourse(s: System, st: Step, j: JobId)
    requires Enabled(s, st) && Smooth(s, st) && j in s.jobs && j in JobsAfter(s, st) && s.jobs[j].env in s.log
    requires JobsAfter(s, st)[j] == s.jobs[j] || ((st.Lease? || st.Reap?) && st.j == j)
    requires s.jobs[j].phase.Leased? ==> var t := s.jobs[j].phase.token;
                                         t in s.invs && t in InvsAfter(s, st) && InvsAfter(s, st)[t] == s.invs[t]
    requires OnCourse(s.jobs[j], s.log[s.jobs[j].env], s.invs)
    ensures OnCourse(JobsAfter(s, st)[j], s.log[s.jobs[j].env], InvsAfter(s, st))
  {
  }

  lemma StepStaysOnCourse(s: System, st: Step, j: JobId)
    requires RowsMatch(s.db.deliveries, s.log) && LeasesMatch(s.jobs, s.invs) && JobEnvs(s.jobs, s.log)
    requires KeysResolve(s.db)
    requires NoneStale(s.jobs, s.invs) && Enabled(s, st) && Smooth(s, st) && !st.Commit?
    requires j in s.jobs && OnCourse(s.jobs[j], s.log[s.jobs[j].env], s.invs)
    ensures j in JobsAfter(s, st) && s.jobs[j].env in LogAfter(s.log, EffectOf(s, st))
    ensures OnCourse(JobsAfter(s, st)[j], LogAfter(s.log, EffectOf(s, st))[s.jobs[j].env], InvsAfter(s, st))
  {
    if InvocationStep(st) && s.jobs[j].phase == Leased(st.t) {
      HolderStaysOnCourse(s, st, j);
    } else {
      OnlyHolderWrites(s, st, j);
      OtherStepsLeaveJob(s, st, j);
      SameJobOnCourse(s, st, j);
    }
  }

  lemma StepKeepsNoneStale(s: System, st: Step)
    requires NoneStale(s.jobs, s.invs) && LeasesMatch(s.jobs, s.invs) && Enabled(s, st) && Smooth(s, st)
    requires st.Commit? ==> s.jobs.Keys !! s.txs[st.x].jobs.Keys
    ensures NoneStale(JobsAfter(s, st), InvsAfter(s, st))
  {
    var jobs', invs' := JobsAfter(s, st), InvsAfter(s, st);
    forall t | t in invs' && !invs'[t].pc.Gone?
      ensures invs'[t].job in jobs' && jobs'[invs'[t].job].phase == Leased(t)
    {
      if t in s.invs {
        assert !s.invs[t].pc.Gone?;
      }
    }
  }

  lemma CommitStaysOnCourse(s: System, x: TxId)
    requires AllOnCourse(s.jobs, s.log, s.invs) && x in s.txs && s.jobs.Keys !! s.txs[x].jobs.Keys
    requires s.cfg.maxAttempts >= 1
    requires forall k :: k in s.txs[x].deliveries ==> k !in s.log
    requires TxJobs(s.txs[x], x, s.jobMinted)
    ensures var jobs' := JobsAfter(s, Commit(x)); var log' := LogAfter(s.log, EffectOf(s, Commit(x)));
            AllOnCourse(jobs', log', s.invs)
  {
    var jobs', log' := JobsAfter(s, Commit(x)), LogAfter(s.log, EffectOf(s, Commit(x)));
    forall j | j in jobs' ensures jobs'[j].env in log' && OnCourse(jobs'[j], log'[jobs'[j].env], s.invs) {
      if j in s.jobs {
        assert jobs'[j] == s.jobs[j] && log'[s.jobs[j].env] == s.log[s.jobs[j].env];
      } else {
        assert log'[jobs'[j].env].entries == [];
      }
    }
  }

  lemma WorkStaysAllOnCourse(s: System, st: Step)
    requires Sound(s) && AllOnCourse(s.jobs, s.log, s.invs) && Enabled(s, st) && Smooth(s, st) && !st.Commit?
    ensures AllOnCourse(JobsAfter(s, st), LogAfter(s.log, EffectOf(s, st)), InvsAfter(s, st))
  {
    SameEnvs(s, st);
    forall j | j in s.jobs
      ensures s.jobs[j].env in LogAfter(s.log, EffectOf(s, st))
      ensures OnCourse(JobsAfter(s, st)[j], LogAfter(s.log, EffectOf(s, st))[s.jobs[j].env], InvsAfter(s, st))
    {
      StepStaysOnCourse(s, st, j);
    }
    StepKeepsNoneStale(s, st);
  }

  lemma StepKeepsAllOnCourse(s: System, st: Step)
    requires Sound(s) && CommitReady(s, st) && AllOnCourse(s.jobs, s.log, s.invs) && Enabled(s, st)
    requires Smooth(s, st)
    ensures AllOnCourse(JobsAfter(s, st), LogAfter(s.log, EffectOf(s, st)), InvsAfter(s, st))
  {
    if st.Commit? {
      assert st == Commit(st.x) && InvsAfter(s, st) == s.invs;
      CommitStaysOnCourse(s, st.x);
    } else {
      WorkStaysAllOnCourse(s, st);
    }
  }

  ghost predicate SmoothRun(states: seq<System>, steps: seq<Step>) {
    IsRun(states, steps) && forall n :: 0 <= n < |steps| ==> Smooth(states[n], steps[n])
  }

  lemma OnCourseNext(states: seq<System>, steps: seq<Step>, i: nat)
    requires SmoothRun(states, steps) && i < |steps| && AllOnCourse(states[i].jobs, states[i].log, states[i].invs)
    ensures AllOnCourse(states[i + 1].jobs, states[i + 1].log, states[i + 1].invs)
  {
    var s, st := states[i], steps[i];
    RunIsSound(states, steps, i);
    StepKeepsAllOnCourse(s, st);
    assert states[i + 1].jobs == JobsAfter(s, st) && states[i + 1].invs == InvsAfter(s, st)
           && states[i + 1].log == LogAfter(s.log, EffectOf(s, st));
  }

  lemma {:induction false} SmoothRunOnCourse(states: seq<System>, steps: seq<Step>, i: nat)
    requires SmoothRun(states, steps) && i < |states|
    ensures AllOnCourse(states[i].jobs, states[i].log, states[i].invs)
  {
    if i > 0 {
      SmoothRunOnCourse(states, steps, i - 1);
      OnCourseNext(states, steps, i - 1);
    }
  }

  // ---- the measure ---------------------------------------------------------

  function LeftForHolder(pc: Pc): int {
    match pc
    case Fetching => 3
    case Handling(_) => 2
    case Reporting(_) => 1
    case Gone => 0
  }

  /** What is left to do for a job: four steps per remaining attempt. */
  function ToDo(job: Job, invs: map<Token, Invocation>): int {
    match job.phase
    case Ready => 4 * (job.maxAttempts - job.attempt) + 4
    case Leased(t) =>
      4 * (job.maxAttempts - job.attempt) + (if t in invs then LeftForHolder(invs[t].pc) else 0)
    case _ => 0
  }

  /** The step advances job `j`: it leases it, or is made by the holder of its lease. */
  predicate WorksOn(s: System, st: Step, j: JobId) {
    (st.Lease? && st.j == j) || (InvocationStep(st) && HoldsLease(s, st.t) && s.invs[st.t].job == j)
  }

  lemma HolderUsesUpToDo(s: System, st: Step, t: Token)
    requires LeasesMatch(s.jobs, s.invs) && Enabled(s, st) && Smooth(s, st) && InvocationStep(st) && st.t == t
    requires HoldsLease(s, t)
    requires s.jobs[s.invs[t].job].attempt <= s.jobs[s.invs[t].job].maxAttempts
    ensures var j := s.invs[t].job;
            j in JobsAfter(s, st) && ToDo(JobsAfter(s, st)[j], InvsAfter(s, st)) < ToDo(s.jobs[j], s.invs)
  {
    if st.Report? {
      assert JobsAfter(s, st)[s.invs[t].job] == Settle(s.jobs[s.invs[t].job], s.invs[t].pc.result);
    } else {
      WorkMovesOnlyItself(s, st);
    }
  }

  /** Every step that works on a job uses up some of what is left to do; no other step changes it. */
  lemma WorkUsesUpToDo(s: System, st: Step, j: JobId)
    requires LeasesMatch(s.jobs, s.invs) && Enabled(s, st) && Smooth(s, st)
    requires j in s.jobs && s.jobs[j].attempt <= s.jobs[j].maxAttempts
    requires (st.Commit? ==> s.jobs.Keys !! s.txs[st.x].jobs.Keys)
    ensures j in JobsAfter(s, st) && ToDo(s.jobs[j], s.invs) >= 0
    ensures ToDo(JobsAfter(s, st)[j], InvsAfter(s, st)) <= ToDo(s.jobs[j], s.invs) - if WorksOn(s, st, j) then 1 else 0
  {
    if st.Commit? {
    } else if InvocationStep(st) && HoldsLease(s, st.t) && s.invs[st.t].job == j {
      HolderUsesUpToDo(s, st, st.t);
    } else {
      OtherStepsLeaveJob(s, st, j);
    }
  }

  lemma RunUsesUpToDo(states: seq<System>, steps: seq<Step>, j: JobId, i: nat)
    requires SmoothRun(states, steps) && i < |steps| && j in states[i].jobs
    ensures j in states[i + 1].jobs
    ensures ToDo(states[i + 1].jobs[j], states[i + 1].invs) <=
            ToDo(states[i].jobs[j], states[i].invs) - if WorksOn(states[i], steps[i], j) then 1 else 0
  {
    var s, st := states[i], steps[i];
    RunIsSound(states, steps, i);
    SmoothRunOnCourse(states, steps, i);
    assert OnCourse(s.jobs[j], s.log[s.jobs[j].env], s.invs);
    WorkUsesUpToDo(s, st, j);
  }

  /** How many of the steps from `a` to `b` work on job `j`. */
  function WorkOn(states: seq<System>, steps: seq<Step>, j: JobId, a: nat, b: nat): nat
    requires |states| == |steps| + 1 && a <= b <= |steps|
    decreases b
  {
    if a == b then 0 else WorkOn(states, steps, j, a, b - 1) + if WorksOn(states[b - 1], steps[b - 1], j) then 1 else 0
  }

  lemma ToDoIsBounded(states: seq<System>, steps: seq<Step>, j: JobId, i: nat)
    requires SmoothRun(states, steps) && i < |states| && j in states[i].jobs
    ensures 0 <= ToDo(states[i].jobs[j], states[i].invs) <= 4 * states[i].jobs[j].maxAttempts
  {
    SmoothRunOnCourse(states, steps, i);
    assert OnCourse(states[i].jobs[j], states[i].log[states[i].jobs[j].env], states[i].invs);
  }

  /** Over any stretch of a smooth run, the steps spent on a job and what is left of it never
      exceed what was left at the start; in all, a job takes at most 4 * max_attempts steps. */
  lemma {:induction false} JobStepsBounded(states: seq<System>, steps: seq<Step>, j: JobId, a: nat, b: nat)
    requires SmoothRun(states, steps) && a <= b <= |steps| && j in states[a].jobs
    ensures j in states[b].jobs && ToDo(states[b].jobs[j], states[b].invs) >= 0
    ensures WorkOn(states, steps, j, a, b) + ToDo(states[b].jobs[j], states[b].invs)
            <= ToDo(states[a].jobs[j], states[a].invs) <= 4 * states[a].jobs[j].maxAttempts
    decreases b
  {
    if a < b {
      JobStepsBounded(states, steps, j, a, b - 1);
      RunUsesUpToDo(states, steps, j, b - 1);
    }
    ToDoIsBounded(states, steps, j, a);
    ToDoIsBounded(states, steps, j, b);
  }

  /** A job is finished or killed, with its delivery settled, exactly when nothing is left to
      do; until then some smooth step that works on it is enabled. Claims never exceed the
      budget, and a row in awaiting_retry has attempts left. */
  lemma VerdictWithinBudget(states: seq<System>, steps: seq<Step>, i: nat, j: JobId)
    requires SmoothRun(states, steps) && i < |states| && j in states[i].jobs
    ensures var s := states[i]; var job := s.jobs[j]; var k := job.env;
            && k in s.log && Claims(s.log[k].entries) <= job.maxAttempts
            && (ToDo(job, s.invs) == 0 <==> Over(job))
            && (Over(job) ==> Settled(s.log[k]))
            && (!Over(job) ==> exists st :: Enabled(s, st) && Smooth(s, st) && WorksOn(s, st, j))
            && (k in s.db.deliveries && s.db.deliveries[k].status == AwaitingRetry ==>
                  Claims(s.log[k].entries) < job.maxAttempts)
  {
    var s := states[i];
    RunMatches(states, steps, i);
    SmoothRunOnCourse(states, steps, i);
    if !Over(s.jobs[j]) {
      NotStuck(s, j);
    }
    AwaitingHasBudget(s, j);
  }

  lemma AwaitingHasBudget(s: System, j: JobId)
    requires RowsMatch(s.db.deliveries, s.log) && j in s.jobs && s.jobs[j].env in s.log
    requires OnCourse(s.jobs[j], s.log[s.jobs[j].env], s.invs)
    ensures var k := s.jobs[j].env;
            k in s.db.deliveries && s.db.deliveries[k].status == AwaitingRetry ==>
              Claims(s.log[k].entries) < s.jobs[j].maxAttempts
  {
    SettledIffTerminal(s.log[s.jobs[j].env]);
  }

  lemma ClaimCanRun(s: System, t: Token) returns (st: Step)
    requires RowsMatch(s.db.deliveries, s.log) && HoldsLease(s, t) && s.invs[t].pc.Fetching?
    ensures Enabled(s, st) && Smooth(s, st) && WorksOn(s, st, s.invs[t].job)
  {
    var k := s.invs[t].env;
    var now := if k !in s.db.deliveries then 0
               else Coalesce(s.db.deliveries[k].firstAttemptedAt, s.db.deliveries[k].createdAt);
    if Claimable(s.db, k) { ClaimFitsIff(s.db, k, s.invs[t].attempt, t, now); }
    st := ClaimRow(t, Done, now);
  }

  lemma MarkCanRun(s: System, t: Token, o: Observed) returns (st: Step)
    requires RowsMatch(s.db.deliveries, s.log) && TokensMatch(s.log, s.invs) && HoldsLease(s, t)
    requires s.invs[t].pc.Handling?
    ensures Enabled(s, st) && Smooth(s, st) && WorksOn(s, st, s.invs[t].job)
  {
    var at := s.invs[t].pc.claimedAt;
    Fencing.MarksBreakNoConstraint(s, t, o, at);
    st := MarkRow(t, o, Done, at);
  }

  lemma LeaseCanRun(s: System, j: JobId) returns (st: Step)
    requires j in s.jobs && s.jobs[j].phase == Ready
    ensures Enabled(s, st) && Smooth(s, st) && WorksOn(s, st, j)
  {
    var t := FreshToken(s.invs.Keys);
    st := Lease(j, t);
  }

  lemma ReportCanRun(s: System, t: Token) returns (st: Step)
    requires HoldsLease(s, t) && s.invs[t].pc.Reporting?
    ensures Enabled(s, st) && Smooth(s, st) && WorksOn(s, st, s.invs[t].job)
  {
    st := Report(t);
  }

  lemma NotStuck(s: System, j: JobId)
    requires RowsMatch(s.db.deliveries, s.log) && TokensMatch(s.log, s.invs) && LeasesMatch(s.jobs, s.invs)
    requires AllOnCourse(s.jobs, s.log, s.invs) && j in s.jobs && !Over(s.jobs[j])
    ensures exists st :: Enabled(s, st) && Smooth(s, st) && WorksOn(s, st, j)
  {
    var job := s.jobs[j];
    assert OnCourse(job, s.log[job.env], s.invs);
    if job.phase.Ready? {
      var st := LeaseCanRun(s, j);
    } else {
      var t := job.phase.token;
      assert HoldsLease(s, t) && s.invs[t].job == j;
      if s.invs[t].pc.Fetching? {
        var st := ClaimCanRun(s, t);
      } else if s.invs[t].pc.Handling? {
        var st := MarkCanRun(s, t, TimedOut);
      } else {
        var st := ReportCanRun(s, t);
      }
    }
  }

  /** Fresh tokens never run out. */
  lemma {:induction false} FreshToken(used: set<Token>) returns (t: Token)
    ensures t !in used
    ensures forall u :: u in used ==> u < t
  {
    if used == {} {
      t := 0;
    } else {
      var u :| u in used;
      t := FreshToken(used - {u});
      assert forall v :: v in used ==> v == u || v in used - {u};
      if t <= u { t := u + 1; }
    }
  }
}
