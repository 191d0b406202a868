/** Transactional fan-out: what the commits of a disciplined caller (one that rolls back after
    every Err) leave behind. */
module Fanout {
  import opened Schema
  import opened Ledger
  import opened World
  import opened Invariants
  import Idempotency

  /** The caller commits no transaction in which a dispatch returned Err. */
  predicate Disciplined(s: System, st: Step) {
    st.Commit? && st.x in s.txs ==> !s.txs[st.x].erred
  }

  ghost predicate DisciplinedRun(states: seq<System>, steps: seq<Step>) {
    IsRun(states, steps) && forall n :: 0 <= n < |steps| ==> Disciplined(states[n], steps[n])
  }

  ghost predicate Pushed(jobs: map<JobId, DeliveryKey>, k: DeliveryKey) {
    exists j :: j in jobs && jobs[j] == k
  }

  /** `ks` holds one delivery per event of `events` and handler registered for its type. */
  ghost predicate OnePerHandler(cfg: Cfg, events: map<EventId, Event>, ks: set<DeliveryKey>) {
    forall e, h :: e in events ==> (DeliveryKey(e, h) in ks <==> h in HandlersFor(cfg.handlersFor, events[e].eventType))
  }

  /** A transaction without error has fanned out every event it inserted, and pushed every
      delivery but those of the dispatch in progress. */
  ghost predicate TxFanned(cfg: Cfg, tx: Tx) {
    !tx.erred ==>
      && !tx.failed
      && OnePerHandler(cfg, tx.events, tx.deliveries)
      && (forall k :: k in tx.deliveries ==> Pushed(tx.jobs, k) || (tx.phase.Inserted? && k.event == tx.phase.event))
      && (tx.phase.Inserted? ==>
            && tx.phase.event in tx.events
            && tx.phase.handlers == HandlersFor(cfg.handlersFor, tx.events[tx.phase.event].eventType))
      && |tx.events| == |tx.keys| + tx.unkeyed - if tx.phase.Reserved? then 1 else 0
  }

  lemma ReserveFanned(cfg: Cfg, tx: Tx, committed: map<DispatchKey, KeyRow>, dk: DispatchKey, e: EventId, ty: string)
    requires TxFanned(cfg, tx) && tx.phase.Idle?
    ensures TxFanned(cfg, ReserveKey(tx, committed, dk, e, ty))
  {
  }

  lemma InsertFanned(cfg: Cfg, tx: Tx, e: EventId, ev: Event)
    requires TxFanned(cfg, tx) && !tx.phase.Inserted? && e !in tx.events
    requires forall k :: k in tx.deliveries ==> k.event in tx.events
    ensures TxFanned(cfg, InsertEvent(tx, e, ev, HandlersFor(cfg.handlersFor, ev.eventType)))
  {
    var tx' := InsertEvent(tx, e, ev, HandlersFor(cfg.handlersFor, ev.eventType));
    if !tx.erred {
      assert |tx'.events| == |tx.events| + 1;
      forall e', h | e' in tx'.events
        ensures DeliveryKey(e', h) in tx'.deliveries <==> h in HandlersFor(cfg.handlersFor, tx'.events[e'].eventType)
      {
        assert e' != e ==> (DeliveryKey(e', h) in tx'.deliveries <==> DeliveryKey(e', h) in tx.deliveries);
      }
    }
  }

  lemma PushedNow(tx: Tx, ids: map<JobId, string>, k: DeliveryKey, drawn: map<JobId, TxId>)
    requires tx.phase.Inserted? && k.event == tx.phase.event && k.handler in tx.phase.handlers
    requires OneJobEach(ids, tx.phase.handlers, drawn)
    ensures Pushed(PushJobs(tx, ids).jobs, k)
  {
    var j :| j in ids && ids[j] == k.handler;
    assert PushJobs(tx, ids).jobs[j] == k;
  }

  lemma StillPushed(tx: Tx, ids: map<JobId, string>, k: DeliveryKey, drawn: map<JobId, TxId>)
    requires tx.phase.Inserted? && Pushed(tx.jobs, k) && (forall j :: j in tx.jobs ==> j in drawn)
    requires (forall j :: j in ids ==> j !in drawn)
    ensures Pushed(PushJobs(tx, ids).jobs, k)
  {
    var j :| j in tx.jobs && tx.jobs[j] == k;
    assert PushJobs(tx, ids).jobs[j] == k;
  }

  lemma PushFanned(cfg: Cfg, tx: Tx, ids: map<JobId, string>, drawn: map<JobId, TxId>)
    requires TxFanned(cfg, tx) && tx.phase.Inserted? && OneJobEach(ids, tx.phase.handlers, drawn)
    requires forall j :: j in tx.jobs ==> j in drawn
    ensures TxFanned(cfg, PushJobs(tx, ids))
  {
    if !tx.erred {
      forall k | k in tx.deliveries ensures Pushed(PushJobs(tx, ids).jobs, k) {
        if k.event == tx.phase.event {
          assert DeliveryKey(k.event, k.handler) in tx.deliveries;
          PushedNow(tx, ids, k, drawn);
        } else {
          StillPushed(tx, ids, k, drawn);
        }
      }
    }
  }

  lemma StepKeepsTxFanned(s: System, st: Step, y: TxId)
    requires Enabled(s, st) && y in TxsAfter(s, st) && (y in s.txs ==> TxFanned(s.cfg, s.txs[y]))
    requires y in s.txs ==> TxOwns(s.txs[y], y, s.minted) && TxJobs(s.txs[y], y, s.jobMinted)
    ensures TxFanned(s.cfg, TxsAfter(s, st)[y])
  {
    if y in s.txs {
      var tx := s.txs[y];
      if st.Reserve? && st.x == y {
        ReserveFanned(s.cfg, tx, s.db.keys, st.dk, st.e, st.eventType);
      } else if st.Insert? && st.x == y {
        InsertFanned(s.cfg, tx, st.e, Event(st.eventType, st.tenant, tx.startedAt));
      } else if st.Push? && st.x == y {
        PushFanned(s.cfg, tx, st.ids, s.jobMinted);
      }
    }
  }

  /** Among everything ever committed: one delivery per event and registered handler, and a job
      for each. */
  ghost predicate CommittedFanned(cfg: Cfg, dispatched: map<EventId, Event>, log: map<DeliveryKey, History>,
                                  jobs: map<JobId, Job>) {
    && OnePerHandler(cfg, dispatched, log.Keys)
    && forall k :: k in log ==> HasJob(jobs, k)
  }

  ghost predicate HasJob(jobs: map<JobId, Job>, k: DeliveryKey) {
    exists j :: j in jobs && jobs[j].env == k
  }

  lemma CommitBrings(s: System, x: TxId)
    requires x in s.txs && Commits(s.db, s.txs[x])
    ensures var st := Commit(x); var tx := s.txs[x];
            && RowsAfter(s.db.deliveries, EffectOf(s, st)) ==
               s.db.deliveries + (map k | k in tx.deliveries :: QueuedRow(tx.startedAt))
            && JobsAfter(s, st) == s.jobs + (map j | j in tx.jobs :: Job(tx.jobs[j], 1, s.cfg.maxAttempts, Ready))
  {
  }

  /** A commit brings exactly the queued deliveries and ready jobs of its events. */
  lemma CommitGains(s: System, x: TxId, e: EventId, h: string)
    requires x in s.txs && Commits(s.db, s.txs[x]) && CommitReady(s, Commit(x)) && TxOwns(s.txs[x], x, s.minted)
    requires TxFanned(s.cfg, s.txs[x]) && !s.txs[x].erred && s.txs[x].phase.Idle? && e in s.txs[x].events
    ensures var st := Commit(x); var k := DeliveryKey(e, h); var rows' := RowsAfter(s.db.deliveries, EffectOf(s, st));
            if h in HandlersFor(s.cfg.handlersFor, s.txs[x].events[e].eventType) then
              && k in rows' && rows'[k] == QueuedRow(s.txs[x].startedAt) && k in LogAfter(s.log, EffectOf(s, st))
              && exists j :: j in JobsAfter(s, st) && JobsAfter(s, st)[j] == Job(k, 1, s.cfg.maxAttempts, Ready)
            else
              k !in s.txs[x].deliveries && !Pushed(s.txs[x].jobs, k)
  {
    var tx, k := s.txs[x], DeliveryKey(e, h);
    CommitBrings(s, x);
    if h in HandlersFor(s.cfg.handlersFor, tx.events[e].eventType) {
      assert k in tx.deliveries;
      var j :| j in tx.jobs && tx.jobs[j] == k;
      assert JobsAfter(s, Commit(x))[j] == Job(k, 1, s.cfg.maxAttempts, Ready);
    }
  }

  lemma CommitKeepsFanned(s: System, x: TxId)
    requires x in s.txs && Commits(s.db, s.txs[x]) && CommitReady(s, Commit(x)) && TxOwns(s.txs[x], x, s.minted)
    requires TxFanned(s.cfg, s.txs[x]) && !s.txs[x].erred && s.txs[x].phase.Idle?
    requires CommittedFanned(s.cfg, s.dispatched, s.log, s.jobs)
    requires forall e :: e in s.txs[x].events ==> e !in s.dispatched
    requires forall k :: k in s.log ==> k.event in s.dispatched
    ensures CommittedFanned(s.cfg, s.dispatched + s.txs[x].events, LogAfter(s.log, EffectOf(s, Commit(x))),
            JobsAfter(s, Commit(x)))
  {
    var tx, jobs', log' := s.txs[x], JobsAfter(s, Commit(x)), LogAfter(s.log, EffectOf(s, Commit(x)));
    forall k | k in log' ensures HasJob(jobs', k) {
      if k in tx.deliveries {
        CommitGains(s, x, k.event, k.handler);
        assert DeliveryKey(k.event, k.handler) in tx.deliveries;
      } else {
        var j :| j in s.jobs && s.jobs[j].env == k;
        assert jobs'[j].env == k;
      }
    }
    var all := s.dispatched + tx.events;
    forall e, h | e in all
      ensures DeliveryKey(e, h) in log' <==> h in HandlersFor(s.cfg.handlersFor, all[e].eventType)
    {
      if e in tx.events {
        assert DeliveryKey(e, h) in log' <==> DeliveryKey(e, h) in tx.deliveries;
      } else {
        assert DeliveryKey(e, h) in log' <==> DeliveryKey(e, h) in s.log;
      }
    }
  }

  lemma StepKeepsFanned(s: System, st: Step)
    requires CommittedFanned(s.cfg, s.dispatched, s.log, s.jobs) && Enabled(s, st) && Disciplined(s, st)
    requires LeasesMatch(s.jobs, s.invs)
    requires st.Commit? ==>
               && CommitReady(s, st) && TxOwns(s.txs[st.x], st.x, s.minted) && TxFanned(s.cfg, s.txs[st.x])
               && (forall e :: e in s.txs[st.x].events ==> e !in s.dispatched)
               && (forall k :: k in s.log ==> k.event in s.dispatched)
    ensures CommittedFanned(s.cfg, if Committing(s, st) then s.dispatched + s.txs[st.x].events else s.dispatched,
                            LogAfter(s.log, EffectOf(s, st)), JobsAfter(s, st))
  {
    if Committing(s, st) {
      assert st == Commit(st.x);
      CommitKeepsFanned(s, st.x);
    } else {
      QuietStepKeepsFanned(s, st);
    }
  }

  lemma QuietStepKeepsFanned(s: System, st: Step)
    requires CommittedFanned(s.cfg, s.dispatched, s.log, s.jobs) && Enabled(s, st) && !Committing(s, st)
    requires LeasesMatch(s.jobs, s.invs)
    ensures CommittedFanned(s.cfg, s.dispatched, LogAfter(s.log, EffectOf(s, st)), JobsAfter(s, st))
  {
    SameEnvs(s, st);
    LogKeysStay(s.log, EffectOf(s, st));
    forall k | k in s.log ensures HasJob(JobsAfter(s, st), k) {
      StillHasJob(s.jobs, JobsAfter(s, st), k);
    }
  }

  lemma LogKeysStay(log: map<DeliveryKey, History>, eff: Effect)
    requires !eff.Fresh?
    ensures LogAfter(log, eff).Keys == log.Keys
  {
  }

  lemma StillHasJob(jobs: map<JobId, Job>, jobs': map<JobId, Job>, k: DeliveryKey)
    requires HasJob(jobs, k) && jobs'.Keys == jobs.Keys && forall j :: j in jobs ==> jobs'[j].env == jobs[j].env
    ensures HasJob(jobs', k)
  {
    var j :| j in jobs && jobs[j].env == k;
    assert jobs'[j].env == k;
  }

  ghost predicate AllFanned(s: System) {
    CommittedFanned(s.cfg, s.dispatched, s.log, s.jobs) && forall x :: x in s.txs ==> TxFanned(s.cfg, s.txs[x])
  }

  lemma FannedNext(states: seq<System>, steps: seq<Step>, i: nat)
    requires DisciplinedRun(states, steps) && i < |steps| && AllFanned(states[i])
    ensures AllFanned(states[i + 1])
  {
    var s, st := states[i], steps[i];
    RunIsGood(states, steps, i);
    assert Linked(states, steps, i);
    GoodIsReady(s, st);
    if st.Commit? { CommitIsFresh(s, st.x); }
    StepKeepsFanned(s, st);
    forall y | y in TxsAfter(s, st) ensures TxFanned(s.cfg, TxsAfter(s, st)[y]) { StepKeepsTxFanned(s, st, y); }
  }

  lemma {:induction false} RunStaysFanned(states: seq<System>, steps: seq<Step>, i: nat)
    requires DisciplinedRun(states, steps) && i < |states|
    ensures AllFanned(states[i])
  {
    if i > 0 {
      RunStaysFanned(states, steps, i - 1);
      FannedNext(states, steps, i - 1);
    }
  }

  /** In every run of disciplined callers, a committed event has exactly one delivery and
      exactly one job for each handler registered for its type, and none for any other. */
  lemma ExactlyOneDeliveryAndJob(states: seq<System>, steps: seq<Step>, i: nat, e: EventId, h: string)
    requires DisciplinedRun(states, steps) && i < |states| && e in states[i].dispatched
    ensures var s := states[i]; var k := DeliveryKey(e, h);
            && (k in s.log <==> h in HandlersFor(s.cfg.handlersFor, s.dispatched[e].eventType))
            && (HasJob(s.jobs, k) <==> k in s.log)
            && (forall j, j' :: j in s.jobs && j' in s.jobs && s.jobs[j].env == k && s.jobs[j'].env == k ==> j == j')
  {
    RunStaysFanned(states, steps, i);
    RunIsGood(states, steps, i);
  }

  /** In every reachable state the fan-out statement of a dispatch meets the primary key of
      events and UNIQUE (event_id, handler_id), whether or not a key was reserved before it. */
  lemma FanOutNeverCollides(s: System, x: TxId, e: EventId, eventType: string)
    requires Ownership(s) && Configured(s) && x in s.txs
    requires (s.txs[x].phase.Reserved? && s.txs[x].phase.event == e) || e !in s.minted
    ensures InsertFits(s, x, e, HandlersFor(s.cfg.handlersFor, eventType))
  {
    assert TxOwns(s.txs[x], x, s.minted);
  }

  /** The rows and jobs after a caller commits although dispatch returned Err. */
  lemma AfterErrAndCommit(s: System, x: TxId)
    requires x in s.txs && Commits(s.db, s.txs[x])
    ensures Enabled(s, DispatchErr(x)) && Enabled(Apply(s, DispatchErr(x)), Commit(x))
    ensures var s' := Apply(Apply(s, DispatchErr(x)), Commit(x)); var tx := s.txs[x];
            && s'.db.deliveries == s.db.deliveries + (map k | k in tx.deliveries :: QueuedRow(tx.startedAt))
            && s'.jobs == s.jobs + (map j | j in tx.jobs :: Job(tx.jobs[j], 1, s.cfg.maxAttempts, Ready))
  {
    DispatchErrKeepsAll(s, x);
    CommitBrings(Apply(s, DispatchErr(x)), x);
  }

  lemma DispatchErrKeepsAll(s: System, x: TxId)
    requires x in s.txs
    ensures var s1 := Apply(s, DispatchErr(x));
            && x in s1.txs && s1.txs[x] == s.txs[x].(erred := true, phase := Idle)
            && s1.db == s.db && s1.jobs == s.jobs && s1.cfg == s.cfg
  {
  }

  lemma UnpushedHasNoJob(jobs: map<JobId, Job>, log: map<DeliveryKey, History>, tx: Tx, x: TxId,
                         drawn: map<JobId, TxId>, budget: U32, k: DeliveryKey)
    requires JobEnvs(jobs, log) && TxJobs(tx, x, drawn) && tx.phase.Inserted? && k.event == tx.phase.event && k !in log
    ensures !HasJob(jobs + (map j | j in tx.jobs :: Job(tx.jobs[j], 1, budget, Ready)), k)
  {
  }

  /** The discipline is needed: a caller that commits although dispatch returned Err between its
      fan-out and its push leaves queued deliveries that no job will ever serve. */
  lemma CommitAfterErrLeaks(s: System, x: TxId)
    requires JobEnvs(s.jobs, s.log) && CommitReady(s, Commit(x)) && x in s.txs && s.txs[x].phase.Inserted?
    requires s.txs[x].phase.handlers != []
    requires Commits(s.db, s.txs[x])
    ensures Enabled(s, DispatchErr(x)) && Enabled(Apply(s, DispatchErr(x)), Commit(x))
    ensures var s' := Apply(Apply(s, DispatchErr(x)), Commit(x));
            exists k :: k in s'.db.deliveries && s'.db.deliveries[k].status == Queued && !HasJob(s'.jobs, k)
  {
    AfterErrAndCommit(s, x);
    var tx := s.txs[x];
    var k := DeliveryKey(tx.phase.event, tx.phase.handlers[0]);
    assert tx.phase.handlers[0] in tx.phase.handlers;
    assert k in tx.deliveries && k !in s.log;
    UnpushedHasNoJob(s.jobs, s.log, tx, x, s.jobMinted, s.cfg.maxAttempts, k);
  }

  // ---- counting ------------------------------------------------------------

  /** The distinct keys ever named by committed dispatches. */
  function KeysNamed(log: seq<KeyEvent>): set<DispatchKey> {
    set i | 0 <= i < |log| && log[i].Named? :: log[i].key
  }

  predicate NoPurge(st: Step) {
    !st.DropKey? && !st.DropEvent?
  }

  ghost predicate Counted(s: System) {
    |s.db.events| == |s.db.keys| + s.unkeyed
  }

  lemma CommitCounts(s: System, x: TxId)
    requires x in s.txs && Commits(s.db, s.txs[x]) && TxFanned(s.cfg, s.txs[x]) && !s.txs[x].erred
    requires s.txs[x].phase.Idle?
    requires Counted(s) && (forall e :: e in s.txs[x].events ==> e !in s.db.events)
    requires (forall dk :: dk in s.txs[x].keys ==> dk !in s.db.keys)
    ensures |EventsAfter(s, Commit(x))| == |KeysAfter(s, Commit(x))| + s.unkeyed + s.txs[x].unkeyed
  {
    var tx := s.txs[x];
    var more := map dk | dk in tx.keys :: KeyRow(tx.keys[dk], tx.startedAt);
    DisjointUnion(s.db.events, tx.events);
    DisjointUnion(s.db.keys, more);
    assert more.Keys == tx.keys.Keys;
    assert |more| == |more.Keys| && |tx.keys| == |tx.keys.Keys|;
  }

  lemma DisjointUnion<K, V>(a: map<K, V>, b: map<K, V>)
    requires a.Keys !! b.Keys
    ensures |a + b| == |a| + |b|
  {
    assert (a + b).Keys == a.Keys + b.Keys;
    assert |(a + b).Keys| == |a.Keys| + |b.Keys|;
  }

  lemma CountedNext(states: seq<System>, steps: seq<Step>, i: nat)
    requires DisciplinedRun(states, steps) && i < |steps| && NoPurge(steps[i]) && Counted(states[i])
    ensures Counted(states[i + 1])
  {
    var s, st := states[i], steps[i];
    RunIsGood(states, steps, i);
    RunStaysFanned(states, steps, i);
    assert Linked(states, steps, i);
    if Committing(s, st) {
      assert st == Commit(st.x) && TxHolds(s.txs[st.x], s.db.keys);
      CommitIsFresh(s, st.x);
      CommitCounts(s, st.x);
    }
  }

  predicate AllNamed(log: seq<KeyEvent>) {
    forall n :: 0 <= n < |log| ==> log[n].Named?
  }

  lemma {:induction false} RunStaysCounted(states: seq<System>, steps: seq<Step>, i: nat)
    requires DisciplinedRun(states, steps) && i < |states| && forall n :: 0 <= n < |steps| ==> NoPurge(steps[n])
    ensures Counted(states[i])
    ensures AllNamed(states[i].keyLog)
  {
    if i > 0 {
      RunStaysCounted(states, steps, i - 1);
      CountedNext(states, steps, i - 1);
      NamesOnlyNext(states, steps, i - 1);
    }
  }

  lemma CommitNamesOnly(log: seq<KeyEvent>, tx: Tx, committed: map<DispatchKey, KeyRow>)
    requires AllNamed(log) && TxHolds(tx, committed)
    ensures AllNamed(log + tx.named)
  {
    forall n | 0 <= n < |tx.named| ensures tx.named[n].Named? { assert Backed(tx.named[n], tx.keys, committed); }
  }

  lemma NamesOnlyNext(states: seq<System>, steps: seq<Step>, i: nat)
    requires IsRun(states, steps) && i < |steps| && NoPurge(steps[i]) && AllNamed(states[i].keyLog)
    ensures AllNamed(states[i + 1].keyLog)
  {
    var s, st := states[i], steps[i];
    RunIsGood(states, steps, i);
    assert Linked(states, steps, i);
    if Committing(s, st) { CommitNamesOnly(s.keyLog, s.txs[st.x], s.db.keys); }
  }

  lemma {:induction false} AllNamedStay(log: seq<KeyEvent>, dk: DispatchKey)
    requires AllNamed(log)
    ensures Idempotency.Current(log, dk).Some? <==> dk in KeysNamed(log)
  {
    if log != [] {
      AllNamedStay(log[..|log| - 1], dk);
      var rest := log[..|log| - 1];
      assert dk in KeysNamed(rest) ==> dk in KeysNamed(log) by {
        if dk in KeysNamed(rest) {
          var i :| 0 <= i < |rest| && rest[i].key == dk;
          assert log[i].key == dk;
        }
      }
      if dk in KeysNamed(log) && log[|log| - 1].key != dk {
        var i :| 0 <= i < |log| && log[i].Named? && log[i].key == dk;
        assert rest[i].key == dk;
      }
    }
  }

  /** Without purges of keys or events, the committed events number the distinct keys of all
      committed dispatches plus the unkeyed ones. */
  lemma EventsNumberKeysAndUnkeyed(states: seq<System>, steps: seq<Step>, i: nat)
    requires DisciplinedRun(states, steps) && i < |states| && forall n :: 0 <= n < |steps| ==> NoPurge(steps[n])
    ensures |states[i].db.events| == |KeysNamed(states[i].keyLog)| + states[i].unkeyed
  {
    RunStaysCounted(states, steps, i);
    var s := states[i];
    forall dk ensures dk in s.db.keys <==> dk in KeysNamed(s.keyLog) {
      Idempotency.KeyTableIsCurrent(states, steps, i, dk);
      AllNamedStay(s.keyLog, dk);
    }
    assert s.db.keys.Keys == KeysNamed(s.keyLog);
  }
}
