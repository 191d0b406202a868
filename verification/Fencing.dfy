/** Safety of the fenced delivery protocol over every run: crashes, expired leases, stale
    workers that claim late, lost replies and purges included. */
module Fencing {
  import opened Wrappers
  import opened Schema
  import opened Routing
  import opened Fenced
  import opened Ledger
  import opened World
  import opened Invariants
  import Sets

  // ---- histories over time -------------------------------------------------

  /** How delivery `k` of a later state relates to an earlier one: its history has only grown
      (not at all if it was settled), attempts have not decreased, a missing row stays missing. */
  ghost predicate Since(rows: map<DeliveryKey, Delivery>, log: map<DeliveryKey, History>,
                        rows': map<DeliveryKey, Delivery>, log': map<DeliveryKey, History>, k: DeliveryKey)
    requires k in log
  {
    && k in log' && log'[k].created == log[k].created && log[k].entries <= log'[k].entries
    && (Settled(log[k]) ==> log'[k] == log[k])
    && Replay(log'[k]).attempts >= Replay(log[k]).attempts
    && (k in rows' ==> k in rows)
  }

  lemma EffectSince(rows: map<DeliveryKey, Delivery>, log: map<DeliveryKey, History>, eff: Effect, k: DeliveryKey)
    requires RowsMatch(rows, log) && Allowed(rows, log, eff) && k in log
    ensures Since(rows, log, RowsAfter(rows, eff), LogAfter(log, eff), k)
  {
    if eff.Write? && eff.k == k {
      SettledIffTerminal(log[k]);
      AttemptsNeverDecrease(log[k], eff.en);
    }
  }

  lemma SinceTransitive(s: System, s1: System, s2: System, k: DeliveryKey)
    requires k in s.log && Since(s.db.deliveries, s.log, s1.db.deliveries, s1.log, k)
    requires Since(s1.db.deliveries, s1.log, s2.db.deliveries, s2.log, k)
    ensures Since(s.db.deliveries, s.log, s2.db.deliveries, s2.log, k)
  {
  }

  lemma StepSince(states: seq<System>, steps: seq<Step>, i: nat, k: DeliveryKey)
    requires IsRun(states, steps) && i < |steps| && k in states[i].log
    ensures Since(states[i].db.deliveries, states[i].log, states[i + 1].db.deliveries, states[i + 1].log, k)
  {
    var s, st := states[i], steps[i];
    RunIsGood(states, steps, i);
    assert Linked(states, steps, i);
    EffectAllowed(s, st);
    EffectSince(s.db.deliveries, s.log, EffectOf(s, st), k);
  }

  /** Between any two states of any run. */
  lemma {:induction false} HistoryOnlyGrows(states: seq<System>, steps: seq<Step>, i: nat, j: nat, k: DeliveryKey)
    requires IsRun(states, steps) && i <= j < |states| && k in states[i].log
    ensures Since(states[i].db.deliveries, states[i].log, states[j].db.deliveries, states[j].log, k)
    decreases j
  {
    if i < j {
      HistoryOnlyGrows(states, steps, i, j - 1, k);
      StepSince(states, steps, j - 1, k);
      SinceTransitive(states[i], states[j - 1], states[j], k);
    }
  }

  /** Once a verdict is recorded for a delivery it is the only one ever, and from then on no
      claim succeeds, no mark applies, and every column of the row stays as it is until a
      purge removes it for good. */
  lemma VerdictIsFinal(states: seq<System>, steps: seq<Step>, i: nat, j: nat, k: DeliveryKey, n: nat)
    requires IsRun(states, steps) && i <= j < |states|
    requires k in states[i].log && n < |states[i].log[k].entries| && Verdict(states[i].log[k].entries[n])
    ensures k in states[j].log && states[j].log[k] == states[i].log[k]
    ensures forall m :: 0 <= m < |states[j].log[k].entries| && Verdict(states[j].log[k].entries[m]) ==> m == n
    ensures !Claimable(states[j].db, k) && forall t :: !Fence(states[j].db, k, t)
    ensures k in states[j].db.deliveries ==>
              k in states[i].db.deliveries && states[j].db.deliveries[k] == states[i].db.deliveries[k]
  {
    RunIsGood(states, steps, i);
    RunIsGood(states, steps, j);
    AtMostOneVerdict(states[i].log[k], n, n);
    HistoryOnlyGrows(states, steps, i, j, k);
    SettledIffTerminal(states[i].log[k]);
    forall m | 0 <= m < |states[j].log[k].entries| && Verdict(states[j].log[k].entries[m]) ensures m == n {
      AtMostOneVerdict(states[j].log[k], m, n);
    }
  }

  /** A terminal status in the table is a recorded verdict. */
  lemma TerminalRowHasVerdict(s: System, k: DeliveryKey)
    requires Good(s) && k in s.db.deliveries
    ensures Terminal(s.db.deliveries[k].status) <==> Settled(s.log[k])
  {
    SettledIffTerminal(s.log[k]);
  }

  /** The columns of every reachable row tell the same story as its status: a token exactly while it
      runs, a finishing time exactly once it is terminal, no attempt exactly while it is queued, and
      the times in their order. */
  lemma StatusSaysAll(s: System, k: DeliveryKey)
    requires Good(s) && k in s.db.deliveries
    ensures var d := s.db.deliveries[k];
            && (d.leaseToken.Some? <==> d.status == Running)
            && (d.finishedAt.Some? <==> d.status in {Sent, Dead, Skipped})
            && (d.attempts == 0 <==> d.status == Queued) && 0 <= d.attempts <= 0x7FFF_FFFF
            && (d.firstAttemptedAt.Some? <==> d.status != Queued)
            && (d.lastAttemptedAt.Some? <==> d.status != Queued)
            && (d.status != Queued ==> d.createdAt <= d.firstAttemptedAt.value <= d.lastAttemptedAt.value)
            && (d.finishedAt.Some? ==> d.lastAttemptedAt.value <= d.finishedAt.value)
            && d.createdAt <= d.updatedAt
  {
    assert RowChecks(s.db.deliveries[k]);
  }

  /** `v` is attempt number `n` as an i32 column holds it. */
  predicate Stored(n: U32, v: int) {
    v == n || (n > v && v == 0x7FFF_FFFF)
  }

  /** `v` is the maximum of 1 and the attempt numbers of the invocations that made the claims in
      `es`, as the column holds them. */
  ghost predicate IsPeakAttempt(v: int, es: seq<Entry>, invs: map<Token, Invocation>) {
    && 1 <= v <= 0x7FFF_FFFF
    && (forall i :: 0 <= i < |es| && es[i].Claimed? ==>
          es[i].token in invs && (invs[es[i].token].attempt <= v || v == 0x7FFF_FFFF))
    && (v == 1 ||
        exists i :: 0 <= i < |es| && es[i].Claimed? && es[i].token in invs && Stored(invs[es[i].token].attempt, v))
  }

  lemma PeakOfInvocations(v: int, es: seq<Entry>, k: DeliveryKey, invs: map<Token, Invocation>)
    requires IsPeak(v, es) && v <= 0x7FFF_FFFF && forall i :: 0 <= i < |es| ==> EntryMatches(es[i], k, invs)
    ensures IsPeakAttempt(v, es, invs)
  {
    if v != 1 {
      var i :| 0 <= i < |es| && es[i].Claimed? && es[i].attempt == v;
      assert EntryMatches(es[i], k, invs) && Stored(invs[es[i].token].attempt, v);
    }
  }

  /** The attempts column of a claimed row is the maximum of 1 and the attempt numbers of all
      invocations that ever claimed it, in whatever order they came. */
  lemma AttemptsColumn(s: System, k: DeliveryKey)
    requires Good(s) && k in s.db.deliveries
    ensures if Claims(s.log[k].entries) == 0 then s.db.deliveries[k].attempts == 0
            else IsPeakAttempt(s.db.deliveries[k].attempts, s.log[k].entries, s.invs)
  {
    AttemptsIsPeak(s.log[k]);
    if Claims(s.log[k].entries) > 0 {
      PeakOfInvocations(s.db.deliveries[k].attempts, s.log[k].entries, k, s.invs);
    }
  }

  // ---- who can change a row ------------------------------------------------

  /** A mark takes effect exactly when its invocation made the last successful claim of the
      row; it has not marked yet, since it still is in its handler. So of all invocations in
      their handlers for one row only that one can change it. */
  lemma MarkTakesEffectIff(s: System, t: Token)
    requires Good(s) && t in s.invs && s.invs[t].pc.Handling?
    ensures var k := s.invs[t].env;
            Fence(s.db, k, t) <==> k in s.log && LastClaimer(s.log[k].entries) == Some(t)
    ensures var k := s.invs[t].env;
            forall u :: u in s.invs && s.invs[u].pc.Handling? && s.invs[u].env == k && u != t
                        && k in s.log && LastClaimer(s.log[k].entries) == Some(t)
                        ==> !Fence(s.db, k, u)
  {
    var k := s.invs[t].env;
    if k in s.log {
      RunningIffLastEntryClaims(s.log[k], t);
      var es := s.log[k].entries;
      if es != [] {
        LastEntryIsLastClaimers(s.log[k]);
        assert EntryMatches(es[|es| - 1], k, s.invs);
      }
    }
  }

  /** A mark that does not take effect changes no table and reports its own outcome as if it had. */
  lemma FencedOutMarkIsNoOp(s: System, t: Token, o: Observed, now: Time)
    requires Enabled(s, MarkRow(t, o, Done, now)) && !Fence(s.db, s.invs[t].env, t)
    ensures var s' := Apply(s, MarkRow(t, o, Done, now));
            && s'.db == s.db && s'.log == s.log
            && s'.invs[t].pc == Reporting(RouteOf(s, t, o).1)
  {
  }

  // ---- constraints ---------------------------------------------------------

  /** No mark of any reachable state can break a constraint, whatever the handler did, if only
      each worker's own clock does not run backwards: a matching token proves that the
      row's `last_attempted_at` came from this worker's own claim. */
  lemma MarksBreakNoConstraint(s: System, t: Token, o: Observed, now: Time)
    requires RowsMatch(s.db.deliveries, s.log) && TokensMatch(s.log, s.invs) && t in s.invs && s.invs[t].pc.Handling?
    requires s.invs[t].pc.claimedAt <= now
    ensures MarkFits(s.db, s.invs[t].env, t, RouteOf(s, t, o).0, now)
    ensures Fence(s.db, s.invs[t].env, t) ==>
            s.db.deliveries[s.invs[t].env].lastAttemptedAt == Some(s.invs[t].pc.claimedAt)
  {
    var k := s.invs[t].env;
    if Fence(s.db, k, t) {
      var es := s.log[k].entries;
      RunningIffLastEntryClaims(s.log[k], t);
      assert EntryMatches(es[|es| - 1], k, s.invs);
    }
    BoundTextFits(s.cfg.policy, s.invs[t].attempt, s.invs[t].maxAttempts, o);
    MarkAlwaysFits(s.db, k, t, RouteOf(s, t, o).0, now);
  }

  /** No claim of any reachable state can break the status, error or attempts constraint; it
      breaks the temporal one exactly when its time lies before the row's first attempt
      (before its creation, for a fresh row). */
  lemma ClaimsBreakOnlyTime(s: System, t: Token, now: Time)
    requires Good(s) && t in s.invs && Claimable(s.db, s.invs[t].env)
    ensures var k := s.invs[t].env; var d := s.db.deliveries[k];
            var d' := ClaimedRow(d, Clamp(s.invs[t].attempt), t, now);
            && StatusCheck(d') && ErrorCheck(d') && AttemptsCheck(d')
            && (ClaimFits(s.db, k, s.invs[t].attempt, t, now) <==> now >= Coalesce(d.firstAttemptedAt, d.createdAt))
  {
    ClaimFitsIff(s.db, s.invs[t].env, s.invs[t].attempt, t, now);
  }

  /** Statement times never run backwards across the whole system. */
  ghost predicate OnTime(s: System, st: Step) {
    st.Begin? || st.ClaimRow? || st.MarkRow? ==> s.clock <= st.now
  }

  ghost predicate RowInPast(d: Delivery, clock: Time) {
    d.createdAt <= clock && Coalesce(d.firstAttemptedAt, d.createdAt) <= clock
  }

  /** Nothing in the tables or in open transactions lies in the future. */
  ghost predicate InPast(s: System) {
    && (forall k :: k in s.db.deliveries ==> RowInPast(s.db.deliveries[k], s.clock))
    && (forall x :: x in s.txs ==> s.txs[x].startedAt <= s.clock)
  }

  predicate EffectInPast(eff: Effect, clock: Time) {
    && (eff.Fresh? ==> eff.now <= clock)
    && (eff.Write? ==> eff.en.at <= clock)
  }

  lemma EffectKeepsRowInPast(rows: map<DeliveryKey, Delivery>, eff: Effect, k: DeliveryKey, before: Time, clock: Time)
    requires (k in rows ==> RowInPast(rows[k], before)) && before <= clock && EffectInPast(eff, clock)
    requires k in RowsAfter(rows, eff)
    ensures RowInPast(RowsAfter(rows, eff)[k], clock)
  {
  }

  lemma StepIsInPast(s: System, st: Step)
    requires InPast(s) && Enabled(s, st) && OnTime(s, st)
    ensures s.clock <= ClockAfter(s.clock, st) && EffectInPast(EffectOf(s, st), ClockAfter(s.clock, st))
  {
  }

  lemma TxsStayInPast(s: System, st: Step)
    requires (forall x :: x in s.txs ==> s.txs[x].startedAt <= s.clock) && Enabled(s, st) && OnTime(s, st)
    ensures forall x :: x in TxsAfter(s, st) ==> TxsAfter(s, st)[x].startedAt <= ClockAfter(s.clock, st)
  {
  }

  lemma StepKeepsInPast(s: System, st: Step)
    requires InPast(s) && Enabled(s, st) && OnTime(s, st)
    ensures InPast(Apply(s, st))
  {
    StepIsInPast(s, st);
    TxsStayInPast(s, st);
    forall k | k in RowsAfter(s.db.deliveries, EffectOf(s, st))
      ensures RowInPast(RowsAfter(s.db.deliveries, EffectOf(s, st))[k], ClockAfter(s.clock, st))
    {
      EffectKeepsRowInPast(s.db.deliveries, EffectOf(s, st), k, s.clock, ClockAfter(s.clock, st));
    }
  }

  lemma {:induction false} RunStaysInPast(states: seq<System>, steps: seq<Step>, i: nat)
    requires IsRun(states, steps) && i < |states| && forall j :: 0 <= j < |steps| ==> OnTime(states[j], steps[j])
    ensures InPast(states[i])
  {
    if i > 0 {
      RunStaysInPast(states, steps, i - 1);
      assert Linked(states, steps, i - 1);
      StepKeepsInPast(states[i - 1], steps[i - 1]);
    }
  }

  /** With a globally monotone clock no claim breaks any constraint either, so that over the
      whole run no claim or mark is ever rejected by the schema. */
  lemma NoConstraintBrokenOnTime(states: seq<System>, steps: seq<Step>, i: nat, t: Token, now: Time)
    requires IsRun(states, steps) && i < |states| && forall j :: 0 <= j < |steps| ==> OnTime(states[j], steps[j])
    requires t in states[i].invs && states[i].clock <= now
    ensures ClaimFits(states[i].db, states[i].invs[t].env, states[i].invs[t].attempt, t, now)
  {
    RunIsGood(states, steps, i);
    RunStaysInPast(states, steps, i);
    var s := states[i];
    if Claimable(s.db, s.invs[t].env) {
      ClaimsBreakOnlyTime(s, t, now);
      assert RowInPast(s.db.deliveries[s.invs[t].env], s.clock);
    }
  }

  // ---- the claim query -----------------------------------------------------

  /** A committed dispatch key never dangles and an event has at most one: the claim query
      returns exactly one row for an existing event. For a missing event the claim has
      touched nothing. */
  lemma ClaimQueryIsTotal(s: System, k: DeliveryKey, attempt: U32, t: Token, now: Time)
    requires Good(s)
    ensures |JoinedKeys(s.db, k.event)| <= 1
    ensures k.event !in s.db.events ==>
              JoinedKeys(s.db, k.event) == {} && k !in s.db.deliveries && Claim(s.db, k, attempt, t, now) == s.db
  {
    Sets.AtMostOne(JoinedKeys(s.db, k.event));
  }
}
