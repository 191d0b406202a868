/** Where the queue and the audit rows part for good, over every step of every run: a job that was
    killed although its delivery was sent, and a job that is over while its delivery stays open. */
module Drift {
  import opened Wrappers
  import opened Schema
  import opened Routing
  import opened Fenced
  import opened Ledger
  import opened World
  import opened Invariants
  import opened Lockstep
  import Fencing

  // ---- killed although sent ------------------------------------------------

  predicate SentIn(rows: map<DeliveryKey, Delivery>, k: DeliveryKey) {
    k in rows && rows[k].status == Sent
  }

  predicate KilledAndSent(jobs: map<JobId, Job>, rows: map<DeliveryKey, Delivery>, j: JobId) {
    j in jobs && jobs[j].phase == Killed && SentIn(rows, jobs[j].env)
  }

  predicate Drifted(s: System, j: JobId) {
    KilledAndSent(s.jobs, s.db.deliveries, j)
  }

  /** The lease holder reports a failure, with no delivery left, over a row that is sent already. */
  predicate KillsSent(s: System, st: Step, j: JobId) {
    && st.Report? && j in s.jobs && s.jobs[j].phase == Leased(st.t) && st.t in s.invs && s.invs[st.t].pc.Reporting?
    && !s.invs[st.t].pc.result.JobOk? && !Requeues(s.invs[st.t].pc.result, s.jobs[j].attempt, s.jobs[j].maxAttempts)
    && SentIn(s.db.deliveries, s.jobs[j].env)
  }

  /** An invocation that still passes the fence marks the row sent after the job was killed. */
  predicate SendsKilled(s: System, st: Step, j: JobId) {
    && st.MarkRow? && j in s.jobs && s.jobs[j].phase == Killed && st.t in s.invs && s.invs[st.t].env == s.jobs[j].env
    && TookEffect(st.sql) && Fence(s.db, s.jobs[j].env, st.t) && RouteOf(s, st.t, st.o).0 == MarkSent
  }

  /** A row becomes sent only by a mark that passes the fence. */
  lemma BecomesSentIff(s: System, st: Step, k: DeliveryKey)
    requires !SentIn(s.db.deliveries, k)
    ensures SentIn(RowsAfter(s.db.deliveries, EffectOf(s, st)), k) <==>
            st.MarkRow? && st.t in s.invs && s.invs[st.t].env == k && TookEffect(st.sql) && Fence(s.db, k, st.t)
            && RouteOf(s, st.t, st.o).0 == MarkSent
  {
  }

  /** A job becomes killed only by a report of its lease holder. */
  lemma BecomesKilledIff(s: System, st: Step, j: JobId)
    requires LeasesMatch(s.jobs, s.invs) && (j in s.jobs ==> s.jobs[j].phase != Killed)
    ensures (j in JobsAfter(s, st) && JobsAfter(s, st)[j].phase == Killed) <==>
            && st.Report? && j in s.jobs && s.jobs[j].phase == Leased(st.t)
            && st.t in s.invs && s.invs[st.t].pc.Reporting? && !s.invs[st.t].pc.result.JobOk?
            && !Requeues(s.invs[st.t].pc.result, s.jobs[j].attempt, s.jobs[j].maxAttempts)
  {
  }

  /** A job keeps its delivery. */
  lemma JobKeepsEnv(s: System, st: Step, j: JobId)
    requires Enabled(s, st) && LeasesMatch(s.jobs, s.invs) && CommitReady(s, st) && j in s.jobs
    ensures j in JobsAfter(s, st) && JobsAfter(s, st)[j].env == s.jobs[j].env
    ensures s.jobs[j].phase == Killed ==> JobsAfter(s, st)[j].phase == Killed
  {
    if !Committing(s, st) {
      SameEnvs(s, st);
    }
  }

  lemma KilledJobDriftsIff(s: System, st: Step, j: JobId)
    requires Enabled(s, st) && LeasesMatch(s.jobs, s.invs) && CommitReady(s, st)
    requires j in s.jobs && s.jobs[j].phase == Killed && !Drifted(s, j)
    ensures KilledAndSent(JobsAfter(s, st), RowsAfter(s.db.deliveries, EffectOf(s, st)), j) <==> SendsKilled(s, st, j)
  {
    JobKeepsEnv(s, st, j);
    BecomesSentIff(s, st, s.jobs[j].env);
  }

  lemma LiveJobDriftsIff(s: System, st: Step, j: JobId)
    requires LeasesMatch(s.jobs, s.invs) && (j in s.jobs ==> s.jobs[j].phase != Killed)
    ensures KilledAndSent(JobsAfter(s, st), RowsAfter(s.db.deliveries, EffectOf(s, st)), j) <==> KillsSent(s, st, j)
  {
    BecomesKilledIff(s, st, j);
    if st.Report? {
      assert EffectOf(s, st) == Nothing;
      assert j in s.jobs && j in JobsAfter(s, st) ==> JobsAfter(s, st)[j].env == s.jobs[j].env;
    }
  }

  /** Exactly when a step brings about the drift: the two ways, and no other step of any kind. */
  lemma DriftArisesIff(s: System, st: Step, j: JobId)
    requires LeasesMatch(s.jobs, s.invs) && CommitReady(s, st) && Enabled(s, st) && !Drifted(s, j)
    ensures Drifted(Apply(s, st), j) <==> KillsSent(s, st, j) || SendsKilled(s, st, j)
  {
    DriftAfterStep(s, st, j);
    if j in s.jobs && s.jobs[j].phase == Killed {
      KilledJobDriftsIff(s, st, j);
    } else {
      LiveJobDriftsIff(s, st, j);
    }
  }

  lemma DriftAfterStep(s: System, st: Step, j: JobId)
    requires Enabled(s, st)
    ensures Drifted(Apply(s, st), j) <==>
            KilledAndSent(JobsAfter(s, st), RowsAfter(s.db.deliveries, EffectOf(s, st)), j)
  {
  }

  lemma DriftNext(states: seq<System>, steps: seq<Step>, i: nat, j: JobId)
    requires IsRun(states, steps) && i < |steps| && !Drifted(states[i], j)
    ensures Drifted(states[i + 1], j) <==> KillsSent(states[i], steps[i], j) || SendsKilled(states[i], steps[i], j)
  {
    RunIsSound(states, steps, i);
    DriftArisesIff(states[i], steps[i], j);
  }

  lemma {:induction false} DriftHasCause(states: seq<System>, steps: seq<Step>, i: nat, j: JobId)
    requires IsRun(states, steps) && i < |states| && Drifted(states[i], j)
    ensures exists n :: 0 <= n < i && (KillsSent(states[n], steps[n], j) || SendsKilled(states[n], steps[n], j))
  {
    if i > 0 {
      if Drifted(states[i - 1], j) {
        DriftHasCause(states, steps, i - 1, j);
      } else {
        DriftNext(states, steps, i - 1, j);
      }
    }
  }

  /** A run drifts for a job exactly when it takes one of the two steps. */
  lemma RunDriftsIff(states: seq<System>, steps: seq<Step>, j: JobId)
    requires IsRun(states, steps)
    ensures (exists i :: 0 <= i < |states| && Drifted(states[i], j)) <==>
            (exists n :: 0 <= n < |steps| && (KillsSent(states[n], steps[n], j) || SendsKilled(states[n], steps[n], j)))
  {
    if i :| 0 <= i < |states| && Drifted(states[i], j) {
      DriftHasCause(states, steps, i, j);
    }
    if n :| 0 <= n < |steps| && (KillsSent(states[n], steps[n], j) || SendsKilled(states[n], steps[n], j)) {
      DriftNext(states, steps, n, j);
      assert Drifted(states[n + 1], j);
    }
  }

  // ---- over although open --------------------------------------------------

  /** The job is over, its delivery is not settled, and whoever claimed it last is past its mark. */
  predicate Abandoned(s: System, j: JobId) {
    AbandonedIn(s.jobs, s.log, s.invs, j)
  }

  predicate AbandonedIn(jobs: map<JobId, Job>, log: map<DeliveryKey, History>, invs: map<Token, Invocation>, j: JobId) {
    j in jobs && Over(jobs[j]) && jobs[j].env in log && LeftOpen(log[jobs[j].env], invs)
  }

  predicate LeftOpen(h: History, invs: map<Token, Invocation>) {
    && !Settled(h)
    && var t := LastClaimer(h.entries); t.Some? ==> t.value in invs && !invs[t.value].pc.Handling?
  }

  /** The delivery is open in the hands of its last claimer. */
  predicate InHand(s: System, k: DeliveryKey, t: Token) {
    && k in s.log && !Settled(s.log[k]) && LastClaimer(s.log[k].entries) == Some(t)
    && t in s.invs && s.invs[t].pc.Handling?
  }

  /** A claim of delivery `k` takes effect. */
  predicate TakesUp(s: System, st: Step, k: DeliveryKey) {
    st.ClaimRow? && st.t in s.invs && s.invs[st.t].env == k && TookEffect(st.sql) && Claimable(s.db, k)
  }

  /** The lease holder's report ends the job over a delivery that no one has in hand and that is not
      settled: its last claim or mark failed, or it was cancelled. */
  predicate ReportsOpen(s: System, st: Step, j: JobId) {
    && st.Report? && j in s.jobs && s.jobs[j].phase == Leased(st.t) && st.t in s.invs && s.invs[st.t].pc.Reporting?
    && !Requeues(s.invs[st.t].pc.result, s.jobs[j].attempt, s.jobs[j].maxAttempts)
    && s.jobs[j].env in s.log && LeftOpen(s.log[s.jobs[j].env], s.invs)
  }

  /** Whoever has the delivery in hand lets go of it without settling it. */
  predicate LetsGo(s: System, st: Step, k: DeliveryKey) {
    && InvocationStep(st) && InHand(s, k, st.t)
    && (st.MarkRow? ==> !(TookEffect(st.sql) && Terminal(NewStatus(RouteOf(s, st.t, st.o).0))))
  }

  /** A late claim takes the delivery out of someone's hands, but loses its reply. */
  ghost predicate TakesUpBlind(s: System, st: Step, k: DeliveryKey) {
    TakesUp(s, st, k) && st.sql.Failed? && exists t :: InHand(s, k, t)
  }

  ghost predicate Abandons(s: System, st: Step, j: JobId) {
    || ReportsOpen(s, st, j)
    || (j in s.jobs && Over(s.jobs[j]) && (LetsGo(s, st, s.jobs[j].env) || TakesUpBlind(s, st, s.jobs[j].env)))
  }

  /** A claim of delivery `k` runs only under the current lease. */
  predicate ClaimsUnderLease(s: System, st: Step, k: DeliveryKey) {
    st.ClaimRow? && st.t in s.invs && s.invs[st.t].env == k ==> HoldsLease(s, st.t)
  }

  // how a delivery comes to be abandoned

  lemma BecomesOverIff(s: System, st: Step, j: JobId)
    requires LeasesMatch(s.jobs, s.invs) && (j in s.jobs ==> !Over(s.jobs[j]))
    ensures (j in JobsAfter(s, st) && Over(JobsAfter(s, st)[j])) <==>
            && st.Report? && j in s.jobs && s.jobs[j].phase == Leased(st.t)
            && st.t in s.invs && s.invs[st.t].pc.Reporting?
            && !Requeues(s.invs[st.t].pc.result, s.jobs[j].attempt, s.jobs[j].maxAttempts)
  {
  }

  lemma ReportKeepsLeftOpen(s: System, st: Step, h: History)
    requires st.Report? && st.t in s.invs && s.invs[st.t].pc.Reporting?
    ensures LeftOpen(h, InvsAfter(s, st)) <==> LeftOpen(h, s.invs)
  {
  }

  lemma LiveJobAbandonedIff(s: System, st: Step, j: JobId)
    requires LeasesMatch(s.jobs, s.invs) && (j in s.jobs ==> !Over(s.jobs[j]))
    ensures AbandonedIn(JobsAfter(s, st), LogAfter(s.log, EffectOf(s, st)), InvsAfter(s, st), j) <==>
            ReportsOpen(s, st, j)
  {
    BecomesOverIff(s, st, j);
    if st.Report? && st.t in s.invs && s.invs[st.t].pc.Reporting? && j in s.jobs && s.jobs[j].env in s.log {
      ReportKeepsLeftOpen(s, st, s.log[s.jobs[j].env]);
      assert EffectOf(s, st) == Nothing;
      assert j in JobsAfter(s, st) ==> JobsAfter(s, st)[j].env == s.jobs[j].env;
    }
  }

  lemma ClaimedIsLeftOpenIff(h: History, en: Entry, invs: map<Token, Invocation>)
    requires en.Claimed?
    ensures LeftOpen(Extend(h, en), invs) <==> en.token in invs && !invs[en.token].pc.Handling?
  {
  }

  lemma MarkedIsLeftOpenIff(h: History, en: Entry, invs: map<Token, Invocation>)
    requires en.Marked? && LastClaimer(h.entries) == Some(en.token)
    ensures LeftOpen(Extend(h, en), invs) <==>
            !Terminal(NewStatus(en.mark)) && en.token in invs && !invs[en.token].pc.Handling?
  {
    MarkerStaysLastClaimer(h, en);
  }

  /** Whoever has the delivery in hand passes the fence. */
  lemma InHandPasses(s: System, k: DeliveryKey, t: Token)
    requires RowsMatch(s.db.deliveries, s.log) && TokensMatch(s.log, s.invs) && InHand(s, k, t)
    ensures Fence(s.db, k, t) && s.invs[t].env == k
  {
    var es := s.log[k].entries;
    LastEntryIsLastClaimers(s.log[k]);
    assert EntryMatches(es[|es| - 1], k, s.invs);
    FenceIffOpen(s.db, s.log, k, t);
  }

  /** A delivery that is neither settled nor left open is in hand. */
  lemma OpenIsInHand(s: System, k: DeliveryKey) returns (t: Token)
    requires TokensMatch(s.log, s.invs) && k in s.log && Legal(s.log[k])
    requires !Settled(s.log[k]) && !LeftOpen(s.log[k], s.invs)
    ensures InHand(s, k, t)
  {
    LastClaimerIsPastClaim(s, k);
    t := LastClaimer(s.log[k].entries).value;
  }

  /** A late claim that takes effect. */
  lemma TakenUpIsLeftOpenIff(s: System, st: Step, k: DeliveryKey)
    requires KeysResolve(s.db) && k in s.log && TakesUp(s, st, k)
    ensures k in LogAfter(s.log, EffectOf(s, st))
    ensures LeftOpen(LogAfter(s.log, EffectOf(s, st))[k], InvsAfter(s, st)) <==> st.sql.Failed?
  {
    ClaimedIsLeftOpenIff(s.log[k], EffectOf(s, st).en, InvsAfter(s, st));
    WorkMovesOnlyItself(s, st);
  }

  lemma MarkLetsGoIff(s: System, st: Step, k: DeliveryKey)
    requires st.MarkRow? && InHand(s, k, st.t) && s.invs[st.t].env == k && Fence(s.db, k, st.t)
    ensures k in LogAfter(s.log, EffectOf(s, st))
    ensures LeftOpen(LogAfter(s.log, EffectOf(s, st))[k], InvsAfter(s, st)) <==> LetsGo(s, st, k)
  {
    WorkMovesOnlyItself(s, st);
    if TookEffect(st.sql) {
      MarkedIsLeftOpenIff(s.log[k], EffectOf(s, st).en, InvsAfter(s, st));
    }
  }

  /** A step of the invocation that has the delivery in hand. */
  lemma HandlerLetsGoIff(s: System, st: Step, k: DeliveryKey)
    requires RowsMatch(s.db.deliveries, s.log) && TokensMatch(s.log, s.invs)
    requires Enabled(s, st) && InvocationStep(st) && InHand(s, k, st.t)
    ensures k in LogAfter(s.log, EffectOf(s, st))
    ensures LeftOpen(LogAfter(s.log, EffectOf(s, st))[k], InvsAfter(s, st)) <==> LetsGo(s, st, k)
  {
    if st.MarkRow? {
      InHandPasses(s, k, st.t);
      MarkLetsGoIff(s, st, k);
    } else {
      GoneIsLeftOpen(s, st, k);
    }
  }

  /** A crash or a cancellation. */
  lemma GoneIsLeftOpen(s: System, st: Step, k: DeliveryKey)
    requires Enabled(s, st) && InvocationStep(st) && !st.MarkRow? && InHand(s, k, st.t)
    ensures k in LogAfter(s.log, EffectOf(s, st)) && LeftOpen(LogAfter(s.log, EffectOf(s, st))[k], InvsAfter(s, st))
  {
    assert EffectOf(s, st) == Nothing;
    WorkMovesOnlyItself(s, st);
  }

  /** A step of anyone else that does not take the delivery up. */
  lemma OthersLeaveInHand(s: System, st: Step, k: DeliveryKey, t: Token)
    requires RowsMatch(s.db.deliveries, s.log) && TokensMatch(s.log, s.invs) && InHand(s, k, t) && Enabled(s, st)
    requires Allowed(s.db.deliveries, s.log, EffectOf(s, st)) && !TakesUp(s, st, k)
    requires InvocationStep(st) ==> st.t != t
    ensures k in LogAfter(s.log, EffectOf(s, st)) && !LeftOpen(LogAfter(s.log, EffectOf(s, st))[k], InvsAfter(s, st))
  {
    InHandPasses(s, k, t);
    WritesAreClaimsOrMarks(s, st, k);
    SameEntries(s.log, s.db.deliveries, EffectOf(s, st), k);
    OtherStepsLeaveHolder(s, st, t);
  }

  lemma WritesAreClaimsOrMarks(s: System, st: Step, k: DeliveryKey)
    ensures EffectOf(s, st).Write? && EffectOf(s, st).k == k ==>
              TakesUp(s, st, k) || (st.MarkRow? && st.t in s.invs && Fence(s.db, k, st.t))
  {
  }

  lemma SameEntries(log: map<DeliveryKey, History>, rows: map<DeliveryKey, Delivery>, eff: Effect, k: DeliveryKey)
    requires k in log && Allowed(rows, log, eff) && !(eff.Write? && eff.k == k)
    ensures k in LogAfter(log, eff) && LogAfter(log, eff)[k] == log[k]
  {
  }

  /** A step while the delivery is in hand. */
  lemma InHandLeftOpenIff(s: System, st: Step, k: DeliveryKey, t: Token)
    requires RowsMatch(s.db.deliveries, s.log) && TokensMatch(s.log, s.invs) && KeysResolve(s.db)
    requires Enabled(s, st) && Allowed(s.db.deliveries, s.log, EffectOf(s, st)) && InHand(s, k, t)
    ensures k in LogAfter(s.log, EffectOf(s, st))
    ensures LeftOpen(LogAfter(s.log, EffectOf(s, st))[k], InvsAfter(s, st)) <==>
            LetsGo(s, st, k) || TakesUpBlind(s, st, k)
  {
    if InvocationStep(st) && st.t == t {
      HandlerTakesNoneUp(s, st, k);
      HandlerLetsGoIff(s, st, k);
    } else {
      OthersDoNotLetGo(s, st, k, t);
      OthersLeftOpenIff(s, st, k, t);
    }
  }

  lemma HandlerTakesNoneUp(s: System, st: Step, k: DeliveryKey)
    requires Enabled(s, st) && InvocationStep(st) && InHand(s, k, st.t)
    ensures !TakesUp(s, st, k)
  {
  }

  lemma OthersDoNotLetGo(s: System, st: Step, k: DeliveryKey, t: Token)
    requires InHand(s, k, t) && (InvocationStep(st) ==> st.t != t)
    ensures !LetsGo(s, st, k)
  {
  }

  lemma OthersLeftOpenIff(s: System, st: Step, k: DeliveryKey, t: Token)
    requires RowsMatch(s.db.deliveries, s.log) && TokensMatch(s.log, s.invs) && KeysResolve(s.db) && InHand(s, k, t)
    requires Enabled(s, st) && Allowed(s.db.deliveries, s.log, EffectOf(s, st)) && (InvocationStep(st) ==> st.t != t)
    ensures k in LogAfter(s.log, EffectOf(s, st))
    ensures LeftOpen(LogAfter(s.log, EffectOf(s, st))[k], InvsAfter(s, st)) <==> TakesUpBlind(s, st, k)
  {
    if TakesUp(s, st, k) {
      TakenUpIsLeftOpenIff(s, st, k);
    } else {
      OthersLeaveInHand(s, st, k, t);
    }
  }

  lemma OpenLeftOpenIff(s: System, st: Step, k: DeliveryKey)
    requires RowsMatch(s.db.deliveries, s.log) && TokensMatch(s.log, s.invs) && KeysResolve(s.db)
    requires Enabled(s, st) && Allowed(s.db.deliveries, s.log, EffectOf(s, st))
    requires k in s.log && !LeftOpen(s.log[k], s.invs)
    ensures k in LogAfter(s.log, EffectOf(s, st))
    ensures LeftOpen(LogAfter(s.log, EffectOf(s, st))[k], InvsAfter(s, st)) <==>
            LetsGo(s, st, k) || TakesUpBlind(s, st, k)
  {
    if Settled(s.log[k]) {
      SettledStays(s, st, k);
    } else {
      var t := OpenIsInHand(s, k);
      InHandLeftOpenIff(s, st, k, t);
    }
  }

  lemma OverJobAbandonedIff(s: System, st: Step, j: JobId)
    requires Sound(s) && TokensMatch(s.log, s.invs) && CommitReady(s, st)
    requires Enabled(s, st) && Allowed(s.db.deliveries, s.log, EffectOf(s, st))
    requires j in s.jobs && Over(s.jobs[j]) && !Abandoned(s, j)
    ensures AbandonedIn(JobsAfter(s, st), LogAfter(s.log, EffectOf(s, st)), InvsAfter(s, st), j) <==> Abandons(s, st, j)
  {
    OverStays(s, st, j);
    OpenLeftOpenIff(s, st, s.jobs[j].env);
  }

  lemma SettledStays(s: System, st: Step, k: DeliveryKey)
    requires RowsMatch(s.db.deliveries, s.log) && Allowed(s.db.deliveries, s.log, EffectOf(s, st))
    requires k in s.log && Settled(s.log[k])
    ensures k in LogAfter(s.log, EffectOf(s, st)) && LogAfter(s.log, EffectOf(s, st))[k] == s.log[k]
  {
    SettledIffTerminal(s.log[k]);
    SameEntries(s.log, s.db.deliveries, EffectOf(s, st), k);
  }

  /** Exactly when a step abandons a delivery: the three ways, and no other step of any kind. */
  lemma AbandonmentArisesIff(s: System, st: Step, j: JobId)
    requires Sound(s) && TokensMatch(s.log, s.invs) && CommitReady(s, st)
    requires Enabled(s, st) && Allowed(s.db.deliveries, s.log, EffectOf(s, st)) && !Abandoned(s, j)
    ensures Abandoned(Apply(s, st), j) <==> Abandons(s, st, j)
  {
    AbandonedAfterStep(s, st, j);
    if j in s.jobs && Over(s.jobs[j]) {
      OverJobAbandonedIff(s, st, j);
    } else {
      LiveJobAbandonedIff(s, st, j);
    }
  }

  lemma AbandonedAfterStep(s: System, st: Step, j: JobId)
    requires Enabled(s, st)
    ensures Abandoned(Apply(s, st), j) <==>
            AbandonedIn(JobsAfter(s, st), LogAfter(s.log, EffectOf(s, st)), InvsAfter(s, st), j)
  {
  }

  lemma AbandonmentNext(states: seq<System>, steps: seq<Step>, i: nat, j: JobId)
    requires IsRun(states, steps) && i < |steps| && !Abandoned(states[i], j)
    ensures Abandoned(states[i + 1], j) <==> Abandons(states[i], steps[i], j)
  {
    RunIsSound(states, steps, i);
    RunMatches(states, steps, i);
    AbandonmentArisesIff(states[i], steps[i], j);
  }

  lemma {:induction false} AbandonmentHasCause(states: seq<System>, steps: seq<Step>, i: nat, j: JobId)
    requires IsRun(states, steps) && i < |states| && Abandoned(states[i], j)
    ensures exists n :: 0 <= n < i && Abandons(states[n], steps[n], j)
  {
    if i > 0 {
      if Abandoned(states[i - 1], j) {
        AbandonmentHasCause(states, steps, i - 1, j);
      } else {
        AbandonmentNext(states, steps, i - 1, j);
      }
    }
  }

  /** None of the three can happen to a delivery that is abandoned already. */
  lemma AbandonsOnlyOnce(s: System, st: Step, j: JobId)
    requires Abandons(s, st, j)
    ensures !Abandoned(s, j)
  {
  }

  /** A run abandons the delivery of a job exactly when it takes one of the three steps. */
  lemma RunAbandonsIff(states: seq<System>, steps: seq<Step>, j: JobId)
    requires IsRun(states, steps)
    ensures (exists i :: 0 <= i < |states| && Abandoned(states[i], j)) <==>
            (exists n :: 0 <= n < |steps| && Abandons(states[n], steps[n], j))
  {
    if i :| 0 <= i < |states| && Abandoned(states[i], j) {
      AbandonmentHasCause(states, steps, i, j);
    }
    if n :| 0 <= n < |steps| && Abandons(states[n], steps[n], j) {
      AbandonsOnlyOnce(states[n], steps[n], j);
      AbandonmentNext(states, steps, n, j);
      assert Abandoned(states[n + 1], j);
    }
  }

  // how long it stays abandoned

  lemma OverStays(s: System, st: Step, j: JobId)
    requires Enabled(s, st) && LeasesMatch(s.jobs, s.invs) && CommitReady(s, st) && j in s.jobs && Over(s.jobs[j])
    ensures j in JobsAfter(s, st) && JobsAfter(s, st)[j] == s.jobs[j]
  {
  }

  /** A claim under the current lease does not take up the delivery of a job that is over. */
  lemma LeaseTakesNoneUp(s: System, st: Step, j: JobId)
    requires LeasesMatch(s.jobs, s.invs) && JobEnvs(s.jobs, s.log) && j in s.jobs && Over(s.jobs[j])
    requires ClaimsUnderLease(s, st, s.jobs[j].env)
    ensures !TakesUp(s, st, s.jobs[j].env)
  {
  }

  lemma NoMarkOnAbandoned(s: System, st: Step, k: DeliveryKey)
    requires RowsMatch(s.db.deliveries, s.log) && k in s.log && LeftOpen(s.log[k], s.invs)
    requires st.MarkRow? && st.t in s.invs && s.invs[st.t].pc.Handling?
    ensures !Fence(s.db, k, st.t)
  {
    FenceIffOpen(s.db, s.log, k, st.t);
    if s.log[k].entries != [] {
      LastEntryIsLastClaimers(s.log[k]);
    }
  }

  /** No one but a claimer writes the history of an abandoned delivery. */
  lemma NoEntryOnAbandoned(s: System, st: Step, k: DeliveryKey)
    requires RowsMatch(s.db.deliveries, s.log) && k in s.log && LeftOpen(s.log[k], s.invs)
    requires Enabled(s, st) && !TakesUp(s, st, k)
    ensures !(EffectOf(s, st).Write? && EffectOf(s, st).k == k)
  {
    WritesAreClaimsOrMarks(s, st, k);
    if st.MarkRow? {
      NoMarkOnAbandoned(s, st, k);
    }
  }

  lemma AbandonedRowStays(s: System, st: Step, k: DeliveryKey)
    requires RowsMatch(s.db.deliveries, s.log) && Allowed(s.db.deliveries, s.log, EffectOf(s, st))
    requires k in s.log && !Settled(s.log[k]) && !(EffectOf(s, st).Write? && EffectOf(s, st).k == k)
    ensures k in s.db.deliveries && !Terminal(s.db.deliveries[k].status)
    ensures k in RowsAfter(s.db.deliveries, EffectOf(s, st))
            && RowsAfter(s.db.deliveries, EffectOf(s, st))[k] == s.db.deliveries[k]
    ensures k in LogAfter(s.log, EffectOf(s, st)) && LogAfter(s.log, EffectOf(s, st))[k] == s.log[k]
  {
    SettledIffTerminal(s.log[k]);
    RowStays(s.db.deliveries, s.log, EffectOf(s, st), k);
    SameEntries(s.log, s.db.deliveries, EffectOf(s, st), k);
  }

  lemma RowStays(rows: map<DeliveryKey, Delivery>, log: map<DeliveryKey, History>, eff: Effect, k: DeliveryKey)
    requires Allowed(rows, log, eff) && k in log && k in rows && !Terminal(rows[k].status)
    requires !(eff.Write? && eff.k == k)
    ensures k in RowsAfter(rows, eff) && RowsAfter(rows, eff)[k] == rows[k]
  {
  }

  /** An invocation past its claim never handles again. */
  lemma NeverHandlesAgain(s: System, st: Step, t: Token)
    requires Enabled(s, st) && t in s.invs && !s.invs[t].pc.Handling? && !s.invs[t].pc.Fetching?
    ensures t in InvsAfter(s, st) && !InvsAfter(s, st)[t].pc.Handling?
  {
  }

  lemma LastClaimerIsPastClaim(s: System, k: DeliveryKey)
    requires TokensMatch(s.log, s.invs) && k in s.log && Legal(s.log[k])
    ensures var t := LastClaimer(s.log[k].entries); t.Some? ==> t.value in s.invs && !s.invs[t.value].pc.Fetching?
  {
    var es := s.log[k].entries;
    if es != [] {
      LastEntryIsLastClaimers(s.log[k]);
      assert EntryMatches(es[|es| - 1], k, s.invs);
    }
  }

  lemma StepKeepsAbandoned(s: System, st: Step, j: JobId)
    requires RowsMatch(s.db.deliveries, s.log) && TokensMatch(s.log, s.invs) && LeasesMatch(s.jobs, s.invs)
    requires JobEnvs(s.jobs, s.log) && CommitReady(s, st) && Allowed(s.db.deliveries, s.log, EffectOf(s, st))
    requires Enabled(s, st) && Abandoned(s, j) && !TakesUp(s, st, s.jobs[j].env)
    ensures Abandoned(Apply(s, st), j) && Apply(s, st).jobs[j] == s.jobs[j]
    ensures var k := s.jobs[j].env; var s' := Apply(s, st);
            && k in s.db.deliveries && !Terminal(s.db.deliveries[k].status)
            && k in s'.db.deliveries && s'.db.deliveries[k] == s.db.deliveries[k]
            && s'.log[k] == s.log[k]
  {
    var k := s.jobs[j].env;
    OverStays(s, st, j);
    NoEntryOnAbandoned(s, st, k);
    AbandonedRowStays(s, st, k);
    StaysLeftOpen(s, st, k);
  }

  lemma StaysLeftOpen(s: System, st: Step, k: DeliveryKey)
    requires TokensMatch(s.log, s.invs) && k in s.log && Legal(s.log[k]) && Enabled(s, st) && LeftOpen(s.log[k], s.invs)
    ensures LeftOpen(s.log[k], InvsAfter(s, st))
  {
    LastClaimerIsPastClaim(s, k);
    if LastClaimer(s.log[k].entries).Some? {
      NeverHandlesAgain(s, st, LastClaimer(s.log[k].entries).value);
    }
  }

  lemma AbandonedNext(states: seq<System>, steps: seq<Step>, i: nat, j: JobId)
    requires IsRun(states, steps) && i < |steps| && Abandoned(states[i], j)
    requires !TakesUp(states[i], steps[i], states[i].jobs[j].env)
    ensures Abandoned(states[i + 1], j) && states[i + 1].jobs[j] == states[i].jobs[j]
    ensures var k := states[i].jobs[j].env;
            && k in states[i].db.deliveries && !Terminal(states[i].db.deliveries[k].status)
            && k in states[i + 1].db.deliveries && states[i + 1].db.deliveries[k] == states[i].db.deliveries[k]
            && states[i + 1].log[k] == states[i].log[k]
  {
    RunIsSound(states, steps, i);
    RunMatches(states, steps, i);
    StepKeepsAbandoned(states[i], steps[i], j);
  }

  lemma {:induction false} AbandonedStays(states: seq<System>, steps: seq<Step>, i: nat, m: nat, j: JobId)
    requires IsRun(states, steps) && i <= m < |states| && Abandoned(states[i], j)
    requires forall n :: i <= n < m ==> !TakesUp(states[n], steps[n], states[i].jobs[j].env)
    ensures Abandoned(states[m], j) && states[m].jobs[j] == states[i].jobs[j]
    ensures var k := states[i].jobs[j].env;
            && states[m].log[k] == states[i].log[k]
            && k in states[i].db.deliveries && !Terminal(states[i].db.deliveries[k].status)
            && k in states[m].db.deliveries && states[m].db.deliveries[k] == states[i].db.deliveries[k]
    decreases m
  {
    if i < m {
      AbandonedStays(states, steps, i, m - 1, j);
      AbandonedNext(states, steps, m - 1, j);
    } else {
      AbandonedIsOpen(states, steps, i, j);
    }
  }

  lemma TakenUpIsLonger(states: seq<System>, steps: seq<Step>, n: nat, k: DeliveryKey)
    requires IsRun(states, steps) && n < |steps| && k in states[n].log && TakesUp(states[n], steps[n], k)
    ensures k in states[n + 1].log && |states[n + 1].log[k].entries| == |states[n].log[k].entries| + 1
  {
    assert Linked(states, steps, n);
  }

  /** A claim that takes effect changes the history for good. */
  lemma TakenUpIsChanged(states: seq<System>, steps: seq<Step>, i: nat, n: nat, m: nat, k: DeliveryKey)
    requires IsRun(states, steps) && i <= n < m < |states| && k in states[i].log && TakesUp(states[n], steps[n], k)
    ensures k in states[m].log && states[m].log[k] != states[i].log[k]
  {
    Fencing.HistoryOnlyGrows(states, steps, i, n, k);
    TakenUpIsLonger(states, steps, n, k);
    Fencing.HistoryOnlyGrows(states, steps, n + 1, m, k);
  }

  /** Exactly how long an abandoned delivery stays as it is: as long as no claim of it takes effect.
      Until then it is open, unpurged, and its job over; no other step of any kind touches it. */
  lemma AbandonedForGood(states: seq<System>, steps: seq<Step>, i: nat, m: nat, j: JobId)
    requires IsRun(states, steps) && i <= m < |states| && Abandoned(states[i], j)
    ensures var k := states[i].jobs[j].env;
            && k in states[m].log
            && (states[m].log[k] == states[i].log[k] <==> forall n :: i <= n < m ==> !TakesUp(states[n], steps[n], k))
            && (states[m].log[k] == states[i].log[k] ==>
                  && Abandoned(states[m], j) && states[m].jobs[j] == states[i].jobs[j]
                  && k in states[i].db.deliveries && !Terminal(states[i].db.deliveries[k].status)
                  && k in states[m].db.deliveries && states[m].db.deliveries[k] == states[i].db.deliveries[k])
  {
    var k := states[i].jobs[j].env;
    if n :| i <= n < m && TakesUp(states[n], steps[n], k) {
      TakenUpIsChanged(states, steps, i, n, m, k);
    } else {
      AbandonedStays(states, steps, i, m, j);
    }
  }

  /** So it stays for good if claims of it run only under the current lease. */
  lemma AbandonedUnderLease(states: seq<System>, steps: seq<Step>, i: nat, m: nat, j: JobId)
    requires IsRun(states, steps) && i <= m < |states| && Abandoned(states[i], j)
    requires forall n :: i <= n < m ==> ClaimsUnderLease(states[n], steps[n], states[i].jobs[j].env)
    ensures Abandoned(states[m], j) && states[m].jobs[j] == states[i].jobs[j]
    ensures var k := states[i].jobs[j].env;
            && states[m].log[k] == states[i].log[k]
            && k in states[i].db.deliveries && !Terminal(states[i].db.deliveries[k].status)
            && k in states[m].db.deliveries && states[m].db.deliveries[k] == states[i].db.deliveries[k]
  {
    NoneTakenUp(states, steps, i, m, j);
    AbandonedStays(states, steps, i, m, j);
  }

  lemma {:induction false} NoneTakenUp(states: seq<System>, steps: seq<Step>, i: nat, m: nat, j: JobId)
    requires IsRun(states, steps) && i <= m < |states| && Abandoned(states[i], j)
    requires forall n :: i <= n < m ==> ClaimsUnderLease(states[n], steps[n], states[i].jobs[j].env)
    ensures forall n :: i <= n < m ==> !TakesUp(states[n], steps[n], states[i].jobs[j].env)
    decreases m
  {
    if i < m {
      NoneTakenUp(states, steps, i, m - 1, j);
      AbandonedStays(states, steps, i, m - 1, j);
      NotTakenUp(states, steps, m - 1, j);
    }
  }

  lemma NotTakenUp(states: seq<System>, steps: seq<Step>, n: nat, j: JobId)
    requires IsRun(states, steps) && n < |steps| && j in states[n].jobs && Over(states[n].jobs[j])
    requires ClaimsUnderLease(states[n], steps[n], states[n].jobs[j].env)
    ensures !TakesUp(states[n], steps[n], states[n].jobs[j].env)
  {
    RunMatches(states, steps, n);
    LeaseTakesNoneUp(states[n], steps[n], j);
  }

  lemma AbandonedIsOpen(states: seq<System>, steps: seq<Step>, i: nat, j: JobId)
    requires IsRun(states, steps) && i < |states| && Abandoned(states[i], j)
    ensures var k := states[i].jobs[j].env; k in states[i].db.deliveries && !Terminal(states[i].db.deliveries[k].status)
  {
    RunMatches(states, steps, i);
    SettledIffTerminal(states[i].log[states[i].jobs[j].env]);
  }

  /** A delivery that a mark and report leave open with the job over is abandoned: it stays so, by
      `AbandonedForGood`, until a claim of it takes effect. */
  lemma StrandedIsAbandoned(s: System, t: Token, o: Observed, sql: Sql, now: Time)
    requires RowsMatch(s.db.deliveries, s.log) && LeasesMatch(s.jobs, s.invs)
    requires Enabled(s, MarkRow(t, o, sql, now)) && HoldsLease(s, t) && Fence(s.db, s.invs[t].env, t)
    ensures var s' := MarkAndReport(s, t, o, sql, now); var inv := s.invs[t];
            Abandoned(s', inv.job) <==>
            && sql.Failed? && !Requeues(MapSql(sql.deterministic, "mark"), inv.attempt, inv.maxAttempts)
            && !(sql.applied && Terminal(NewStatus(RouteOf(s, t, o).0)))
  {
    var inv := s.invs[t];
    StrandedIff(s, t, o, sql, now);
    AfterMarkAndReport(s, t, o, sql, now);
    FenceIffOpen(s.db, s.log, inv.env, t);
    LastEntryIsLastClaimers(s.log[inv.env]);
    MarkerStaysLastClaimer(s.log[inv.env], Marked(t, RouteOf(s, t, o).0, now));
    ReporterIsGone(s, t, o, sql, now);
  }

  lemma MarkerStaysLastClaimer(h: History, en: Entry)
    requires en.Marked?
    ensures LastClaimer(Extend(h, en).entries) == LastClaimer(h.entries)
  {
    assert Extend(h, en).entries[..|h.entries|] == h.entries;
  }

  lemma ReporterIsGone(s: System, t: Token, o: Observed, sql: Sql, now: Time)
    requires Enabled(s, MarkRow(t, o, sql, now))
    ensures var s' := MarkAndReport(s, t, o, sql, now); t in s'.invs && s'.invs[t].pc == Gone
    ensures var s' := MarkAndReport(s, t, o, sql, now); s.invs[t].job in s.jobs ==> s.invs[t].job in s'.jobs
  {
  }

  lemma MarkCanSettle(s: System, t: Token, at: Time)
    requires t in s.invs && s.invs[t].pc == Handling(at) && Fence(s.db, s.invs[t].env, t) && s.invs[t].env in s.log
    requires var d := s.db.deliveries[s.invs[t].env]; RowChecks(d) && d.lastAttemptedAt == Some(at)
    ensures var st := MarkRow(t, Returned(None), Done, at); var k := s.invs[t].env;
            && Enabled(s, st) && SentIn(Apply(s, st).db.deliveries, k)
            && k in Apply(s, st).log && Settled(Apply(s, st).log[k])
  {
    MarkAlwaysFits(s.db, s.invs[t].env, t, MarkSent, at);
    MarkEffect(s, t, Returned(None), at);
  }

  lemma LateClaimHandles(s: System, t: Token, now: Time)
    requires t in s.invs && s.invs[t].pc == Fetching && Claimable(s.db, s.invs[t].env)
    requires s.invs[t].env.event in s.db.events && s.invs[t].env in s.log
    requires ClaimFits(s.db, s.invs[t].env, s.invs[t].attempt, t, now)
    ensures var st := ClaimRow(t, Done, now); var k := s.invs[t].env;
            && Enabled(s, st)
            && var s' := Apply(s, st);
               && s'.jobs == s.jobs && t in s'.invs && s'.invs[t] == s.invs[t].(pc := Handling(now))
               && Fence(s'.db, k, t) && k in s'.log
               && RowChecks(s'.db.deliveries[k]) && s'.db.deliveries[k].lastAttemptedAt == Some(now)
  {
    ClaimEffect(s, t, now);
  }

  /** A late claim does take an abandoned delivery up, and its handler can still settle it, with the
      job long over. */
  lemma LateClaimRescues(s: System, j: JobId, t: Token, now: Time)
    requires Abandoned(s, j) && Claimable(s.db, s.jobs[j].env) && s.jobs[j].env.event in s.db.events
    requires t in s.invs && s.invs[t].pc == Fetching && s.invs[t].env == s.jobs[j].env
    requires ClaimFits(s.db, s.jobs[j].env, s.invs[t].attempt, t, now)
    ensures Enabled(s, ClaimRow(t, Done, now))
    ensures Enabled(Apply(s, ClaimRow(t, Done, now)), MarkRow(t, Returned(None), Done, now))
    ensures var s' := Apply(Apply(s, ClaimRow(t, Done, now)), MarkRow(t, Returned(None), Done, now));
            var k := s.jobs[j].env;
            k in s'.log && Settled(s'.log[k]) && SentIn(s'.db.deliveries, k)
  {
    LateClaimHandles(s, t, now);
    MarkCanSettle(Apply(s, ClaimRow(t, Done, now)), t, now);
  }

  // ---- calm runs -----------------------------------------------------------

  /** In a calm run, whatever is purged, no job drifts and no delivery is abandoned. */
  lemma CalmRunsDoNotDrift(states: seq<System>, steps: seq<Step>, i: nat, j: JobId)
    requires CalmRun(states, steps) && i < |states|
    ensures !Drifted(states[i], j) && !Abandoned(states[i], j)
  {
    if Drifted(states[i], j) {
      KilledRowIsUnsent(states, steps, i, j);
    }
    if j in states[i].jobs && Over(states[i].jobs[j]) {
      FinishedJobHasVerdict(states, steps, i, j);
    }
  }
}
