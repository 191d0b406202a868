/** What every step of the system keeps. */
module Invariants {
  import opened Wrappers
  import opened Schema
  import opened Ledger
  import opened World

  /** Every row is what its history adds up to and satisfies the constraints; a delivery
      whose row is gone was settled first. */
  ghost predicate RowsMatch(rows: map<DeliveryKey, Delivery>, log: map<DeliveryKey, History>) {
    && (forall k :: k in rows ==> k in log && rows[k] == Replay(log[k]) && RowChecks(rows[k]))
    && (forall k :: k in log ==> Legal(log[k]) && (k !in rows ==> Settled(log[k])))
  }

  /** An entry was written by the invocation that holds its token: a claimer is past its
      claim statement, remembers its time and claimed with its own attempt number, cut to an i32;
      a marker is past its mark. */
  ghost predicate EntryMatches(en: Entry, k: DeliveryKey, invs: map<Token, Invocation>) {
    && en.token in invs && invs[en.token].env == k && !invs[en.token].pc.Fetching?
    && (en.Marked? ==> !invs[en.token].pc.Handling?)
    && (en.Claimed? && invs[en.token].pc.Handling? ==> invs[en.token].pc.claimedAt == en.at)
    && (en.Claimed? ==>
          en.attempt == if invs[en.token].attempt <= 0x7FFF_FFFF then invs[en.token].attempt else 0x7FFF_FFFF)
  }

  ghost predicate TokensMatch(log: map<DeliveryKey, History>, invs: map<Token, Invocation>) {
    forall k, i :: k in log && 0 <= i < |log[k].entries| ==> EntryMatches(log[k].entries[i], k, invs)
  }

  /** What an open transaction has written is keyed by ids it drew itself. */
  ghost predicate TxOwns(tx: Tx, x: TxId, minted: map<EventId, TxId>) {
    && (forall e :: e in tx.events ==> e in minted && minted[e] == x)
    && (forall dk :: dk in tx.keys ==> tx.keys[dk] in minted && minted[tx.keys[dk]] == x)
    && (forall dk, dk' :: dk in tx.keys && dk' in tx.keys && dk != dk' ==> tx.keys[dk] != tx.keys[dk'])
    && (forall k :: k in tx.deliveries ==> k.event in tx.events)
    && (tx.phase.Reserved? ==>
          tx.phase.key in tx.keys && tx.keys[tx.phase.key] == tx.phase.event && tx.phase.event !in tx.events)
    && (tx.phase.Inserted? ==> tx.phase.event in tx.events)
  }

  /** Ids belong to transactions that have begun; a dispatched event's one is closed. */
  ghost predicate IdsBegun(s: System) {
    && (forall x :: x in s.txs ==> x in s.begun)
    && (forall e :: e in s.minted ==> s.minted[e] in s.begun)
    && (forall e :: e in s.dispatched ==> e in s.minted && s.minted[e] !in s.txs)
  }

  /** Committed events and histories were dispatched, and an event row never changes. */
  ghost predicate EventsMatch(db: Tables, log: map<DeliveryKey, History>, dispatched: map<EventId, Event>) {
    && (forall e :: e in db.events ==> e in dispatched && db.events[e] == dispatched[e])
    && (forall k :: k in log ==> k.event in dispatched)
  }

  /** No foreign key dangles among committed rows, and an event has at most one key. */
  ghost predicate KeysResolve(db: Tables) {
    && (forall k :: k in db.deliveries ==> k.event in db.events)
    && (forall dk :: dk in db.keys ==> db.keys[dk].event in db.events)
    && (forall dk, dk' :: dk in db.keys && dk' in db.keys && dk != dk' ==> db.keys[dk].event != db.keys[dk'].event)
  }

  ghost predicate Ownership(s: System) {
    && IdsBegun(s) && EventsMatch(s.db, s.log, s.dispatched) && KeysResolve(s.db)
    && forall x :: x in s.txs ==> TxOwns(s.txs[x], x, s.minted)
  }

  /** A reservation is backed by the transaction's own insert or by a committed row, and
      stays so while the transaction is open, because it holds the row lock. */
  ghost predicate TxHolds(tx: Tx, committed: map<DispatchKey, KeyRow>) {
    && (forall dk :: dk in tx.keys ==> Locks(tx, dk) && dk !in committed)
    && (forall i :: 0 <= i < |tx.named| ==> Backed(tx.named[i], tx.keys, committed))
  }

  ghost predicate Backed(n: KeyEvent, own: map<DispatchKey, EventId>, committed: map<DispatchKey, KeyRow>) {
    n.Named? && if n.key in own then own[n.key] == n.event else n.key in committed && committed[n.key].event == n.event
  }

  ghost predicate LocksDisjoint(txs: map<TxId, Tx>) {
    forall x, y, dk :: x in txs && y in txs && Locks(txs[x], dk) && Locks(txs[y], dk) ==> x == y
  }

  ghost predicate KeyLocks(s: System) {
    LocksDisjoint(s.txs) && forall x :: x in s.txs ==> TxHolds(s.txs[x], s.db.keys)
  }

  /** One job per delivery, pushed with it. */
  ghost predicate TxJobs(tx: Tx, x: TxId, jobMinted: map<JobId, TxId>) {
    && (forall j :: j in tx.jobs ==>
          j in jobMinted && jobMinted[j] == x && tx.jobs[j] in tx.deliveries && tx.jobs[j].event in tx.events)
    && (forall j, j' :: j in tx.jobs && j' in tx.jobs && j != j' ==> tx.jobs[j] != tx.jobs[j'])
    && (tx.phase.Inserted? ==>
          && Distinct(tx.phase.handlers) && tx.phase.event in tx.events
          && (forall j :: j in tx.jobs ==> tx.jobs[j].event != tx.phase.event)
          && (forall h :: h in tx.phase.handlers ==> DeliveryKey(tx.phase.event, h) in tx.deliveries))
  }

  ghost predicate JobsDrawn(jobMinted: map<JobId, TxId>, begun: set<TxId>) {
    forall j :: j in jobMinted ==> jobMinted[j] in begun
  }

  ghost predicate JobsClosed(jobs: map<JobId, Job>, jobMinted: map<JobId, TxId>, txs: map<TxId, Tx>) {
    forall j :: j in jobs ==> j in jobMinted && jobMinted[j] !in txs
  }

  ghost predicate JobIds(s: System) {
    JobsDrawn(s.jobMinted, s.begun) && JobsClosed(s.jobs, s.jobMinted, s.txs)
  }

  ghost predicate JobEnvs(jobs: map<JobId, Job>, log: map<DeliveryKey, History>) {
    && (forall j :: j in jobs ==> jobs[j].env in log && jobs[j].maxAttempts >= 1)
    && (forall j, j' :: j in jobs && j' in jobs && j != j' ==> jobs[j].env != jobs[j'].env)
  }

  ghost predicate JobsMatch(s: System) {
    && s.cfg.maxAttempts >= 1 && JobIds(s) && JobEnvs(s.jobs, s.log)
    && forall x :: x in s.txs ==> TxJobs(s.txs[x], x, s.jobMinted)
  }

  /** An invocation works for its job; a lease names a live token with the job's counters. */
  ghost predicate LeasesMatch(jobs: map<JobId, Job>, invs: map<Token, Invocation>) {
    && (forall t :: t in invs ==> invs[t].job in jobs && jobs[invs[t].job].env == invs[t].env)
    && (forall j :: j in jobs && jobs[j].phase.Leased? ==>
          var t := jobs[j].phase.token;
          t in invs && invs[t].job == j && invs[t].attempt == jobs[j].attempt
            && invs[t].maxAttempts == jobs[j].maxAttempts)
  }

  /** An event selected for deletion keeps only terminal deliveries. */
  ghost predicate VictimsSafe(s: System) {
    forall e :: e in s.victims ==> e in s.dispatched && AllTerminal(s.db, e)
  }

  ghost predicate Configured(s: System) {
    forall t :: t in s.cfg.handlersFor ==> Distinct(s.cfg.handlersFor[t])
  }

  ghost predicate Good(s: System) {
    && Configured(s)
    && RowsMatch(s.db.deliveries, s.log)
    && TokensMatch(s.log, s.invs)
    && Ownership(s)
    && KeyLocks(s)
    && JobsMatch(s)
    && LeasesMatch(s.jobs, s.invs)
    && VictimsSafe(s)
  }

  // ---- rows and histories --------------------------------------------------

  /** The rules every effect obeys: rows are new, entries pass the fence and the constraints,
      and only terminal rows are dropped. */
  ghost predicate Allowed(rows: map<DeliveryKey, Delivery>, log: map<DeliveryKey, History>, eff: Effect) {
    match eff
    case Nothing => true
    case Fresh(ks, _) => forall k :: k in ks ==> k !in log
    case Write(k, en) =>
      && k in rows && k in log && !Terminal(rows[k].status) && RowChecks(Act(rows[k], en))
      && (en.Marked? ==> rows[k].status == Running && rows[k].leaseToken == Some(en.token))
      && (en.Claimed? ==> forall i :: 0 <= i < |log[k].entries| ==> log[k].entries[i].token != en.token)
    case Drop(ks) => forall k :: k in ks && k in rows ==> Terminal(rows[k].status)
  }

  /** Whatever an open transaction has drawn is new to the committed tables and histories. */
  lemma CommitIsFresh(s: System, x: TxId)
    requires Ownership(s) && x in s.txs
    ensures forall k :: k in s.txs[x].deliveries ==> k !in s.log && k.event !in s.dispatched
    ensures forall e :: e in s.txs[x].events ==> e !in s.dispatched && e !in s.db.events
  {
  }

  lemma ClaimerIsNew(log: map<DeliveryKey, History>, invs: map<Token, Invocation>, t: Token)
    requires TokensMatch(log, invs) && t in invs && invs[t].pc.Fetching?
    ensures forall k, i :: k in log && 0 <= i < |log[k].entries| ==> log[k].entries[i].token != t
  {
    forall k, i | k in log && 0 <= i < |log[k].entries| ensures log[k].entries[i].token != t {
      assert EntryMatches(log[k].entries[i], k, invs);
    }
  }

  lemma ClaimAllowed(s: System, st: Step)
    requires RowsMatch(s.db.deliveries, s.log) && TokensMatch(s.log, s.invs) && st.ClaimRow? && Enabled(s, st)
    ensures Allowed(s.db.deliveries, s.log, EffectOf(s, st))
  {
    ClaimerIsNew(s.log, s.invs, st.t);
  }

  lemma MarkAllowed(s: System, st: Step)
    requires RowsMatch(s.db.deliveries, s.log) && st.MarkRow? && Enabled(s, st)
    ensures Allowed(s.db.deliveries, s.log, EffectOf(s, st))
  {
  }

  lemma DropAllowed(s: System, st: Step)
    requires VictimsSafe(s) && (st.DropDelivery? || st.DropEvent?) && Enabled(s, st)
    ensures Allowed(s.db.deliveries, s.log, EffectOf(s, st))
  {
  }

  lemma EffectAllowed(s: System, st: Step)
    requires RowsMatch(s.db.deliveries, s.log) && TokensMatch(s.log, s.invs) && Ownership(s) && VictimsSafe(s)
    requires Enabled(s, st)
    ensures Allowed(s.db.deliveries, s.log, EffectOf(s, st))
  {
    if st.Commit? {
      CommitIsFresh(s, st.x);
    } else if st.ClaimRow? {
      ClaimAllowed(s, st);
    } else if st.MarkRow? {
      MarkAllowed(s, st);
    } else if st.DropDelivery? || st.DropEvent? {
      DropAllowed(s, st);
    } else {
      assert EffectOf(s, st) == Nothing;
    }
  }

  lemma {:induction false} WriteKeepsRow(d: Delivery, h: History, en: Entry)
    requires d == Replay(h) && Legal(h) && !Terminal(d.status)
    requires en.Marked? ==> d.status == Running && d.leaseToken == Some(en.token)
    requires en.Claimed? ==> forall i :: 0 <= i < |h.entries| ==> h.entries[i].token != en.token
    ensures Act(d, en) == Replay(Extend(h, en)) && Legal(Extend(h, en))
  {
    SettledIffTerminal(h);
    ReplayExtend(h, en);
    RunningIffLastEntryClaims(h, en.token);
    LegalExtend(h, en);
  }

  lemma FreshKeepsRows(rows: map<DeliveryKey, Delivery>, log: map<DeliveryKey, History>, ks: set<DeliveryKey>,
                       now: Time)
    requires RowsMatch(rows, log) && Allowed(rows, log, Fresh(ks, now))
    ensures RowsMatch(RowsAfter(rows, Fresh(ks, now)), LogAfter(log, Fresh(ks, now)))
  {
    var h := History(now, []);
    assert Legal(h) && Replay(h) == QueuedRow(now) && RowChecks(QueuedRow(now));
  }

  lemma DropKeepsRows(rows: map<DeliveryKey, Delivery>, log: map<DeliveryKey, History>, ks: set<DeliveryKey>)
    requires RowsMatch(rows, log) && Allowed(rows, log, Drop(ks))
    ensures RowsMatch(RowsAfter(rows, Drop(ks)), log)
  {
    forall k | k in ks && k in rows ensures Settled(log[k]) { SettledIffTerminal(log[k]); }
  }

  lemma AllowedKeepsRows(rows: map<DeliveryKey, Delivery>, log: map<DeliveryKey, History>, eff: Effect)
    requires RowsMatch(rows, log) && Allowed(rows, log, eff)
    ensures RowsMatch(RowsAfter(rows, eff), LogAfter(log, eff))
  {
    match eff
    case Nothing =>
    case Fresh(ks, now) => FreshKeepsRows(rows, log, ks, now);
    case Write(k, en) => WriteKeepsRow(rows[k], log[k], en);
    case Drop(ks) => DropKeepsRows(rows, log, ks);
  }

  // ---- tokens --------------------------------------------------------------

  lemma PcKeepsTokens(log: map<DeliveryKey, History>, invs: map<Token, Invocation>, t: Token, pc: Pc)
    requires TokensMatch(log, invs) && t in invs
    requires (pc.Gone? || pc.Reporting? || (invs[t].pc.Fetching? && pc.Handling?))
    ensures TokensMatch(log, invs[t := invs[t].(pc := pc)])
  {
    forall k, i | k in log && 0 <= i < |log[k].entries|
      ensures EntryMatches(log[k].entries[i], k, invs[t := invs[t].(pc := pc)])
    {
      assert EntryMatches(log[k].entries[i], k, invs);
    }
  }

  lemma EffectKeepsTokens(log: map<DeliveryKey, History>, invs: map<Token, Invocation>, eff: Effect)
    requires TokensMatch(log, invs) && (eff.Write? ==> EntryMatches(eff.en, eff.k, invs))
    ensures TokensMatch(LogAfter(log, eff), invs)
  {
    var log' := LogAfter(log, eff);
    forall k, i | k in log' && 0 <= i < |log'[k].entries| ensures EntryMatches(log'[k].entries[i], k, invs) {
      if k in log && i < |log[k].entries| {
        assert EntryMatches(log[k].entries[i], k, invs);
      }
    }
  }

  lemma LeaseKeepsTokens(log: map<DeliveryKey, History>, invs: map<Token, Invocation>, t: Token, inv: Invocation)
    requires TokensMatch(log, invs) && t !in invs
    ensures TokensMatch(log, invs[t := inv])
  {
    forall k, i | k in log && 0 <= i < |log[k].entries| ensures EntryMatches(log[k].entries[i], k, invs[t := inv]) {
      assert EntryMatches(log[k].entries[i], k, invs);
    }
  }

  lemma StepKeepsTokens(s: System, st: Step)
    requires TokensMatch(s.log, s.invs) && Enabled(s, st)
    ensures TokensMatch(LogAfter(s.log, EffectOf(s, st)), InvsAfter(s, st))
  {
    if st.Lease? {
      LeaseKeepsTokens(s.log, s.invs, st.t, InvsAfter(s, st)[st.t]);
    } else if InvocationStep(st) {
      PcKeepsTokens(s.log, s.invs, st.t, PcAfter(s, st));
    }
    EffectKeepsTokens(s.log, InvsAfter(s, st), EffectOf(s, st));
  }

  // ---- ownership -----------------------------------------------------------

  lemma OwnsMore(tx: Tx, x: TxId, minted: map<EventId, TxId>, minted': map<EventId, TxId>)
    requires TxOwns(tx, x, minted) && forall e :: e in minted ==> e in minted' && minted'[e] == minted[e]
    ensures TxOwns(tx, x, minted')
  {
  }

  lemma NewKeyOwned(tx: Tx, x: TxId, minted: map<EventId, TxId>, dk: DispatchKey, e: EventId, tx': Tx)
    requires TxOwns(tx, x, minted) && e !in minted && dk !in tx.keys
    requires tx'.keys == tx.keys[dk := e] && tx'.events == tx.events && tx'.deliveries == tx.deliveries
    requires tx'.phase.Reserved? && tx'.phase.key == dk && tx'.phase.event == e
    ensures TxOwns(tx', x, minted[e := x])
  {
  }

  lemma ReserveOwns(tx: Tx, x: TxId, minted: map<EventId, TxId>, committed: map<DispatchKey, KeyRow>, dk: DispatchKey,
                    e: EventId, ty: string)
    requires TxOwns(tx, x, minted) && tx.phase.Idle? && e !in minted
    ensures TxOwns(ReserveKey(tx, committed, dk, e, ty), x, minted[e := x])
  {
    if dk in tx.keys || dk in committed {
      OwnsMore(tx, x, minted, minted[e := x]);
    } else {
      NewKeyOwned(tx, x, minted, dk, e, ReserveKey(tx, committed, dk, e, ty));
    }
  }

  lemma InsertOwns(tx: Tx, x: TxId, minted: map<EventId, TxId>, e: EventId, ev: Event, hs: seq<string>)
    requires TxOwns(tx, x, minted) && ((tx.phase.Reserved? && tx.phase.event == e) || e !in minted)
    ensures TxOwns(InsertEvent(tx, e, ev, hs), x, minted[e := x])
  {
    OwnsMore(tx, x, minted, minted[e := x]);
  }

  lemma PushOwns(tx: Tx, x: TxId, minted: map<EventId, TxId>, ids: map<JobId, string>)
    requires TxOwns(tx, x, minted) && tx.phase.Inserted?
    ensures TxOwns(PushJobs(tx, ids), x, minted)
  {
  }

  ghost function MintedAfter(s: System, st: Step): map<EventId, TxId> {
    if st.Reserve? || st.Insert? then s.minted[st.e := st.x] else s.minted
  }

  lemma MintedGrows(s: System, st: Step)
    requires Ownership(s) && Enabled(s, st)
    ensures forall e :: e in s.minted ==> e in MintedAfter(s, st) && MintedAfter(s, st)[e] == s.minted[e]
  {
    if st.Insert? {
      assert TxOwns(s.txs[st.x], st.x, s.minted);
    }
  }

  lemma StepKeepsTxOwns(s: System, st: Step, y: TxId)
    requires Enabled(s, st) && y in TxsAfter(s, st) && (y in s.txs ==> TxOwns(s.txs[y], y, s.minted))
    requires forall e :: e in s.minted ==> e in MintedAfter(s, st) && MintedAfter(s, st)[e] == s.minted[e]
    ensures TxOwns(TxsAfter(s, st)[y], y, MintedAfter(s, st))
  {
    if y in s.txs {
      var tx := s.txs[y];
      OwnsMore(tx, y, s.minted, MintedAfter(s, st));
      if st.Reserve? && st.x == y {
        ReserveOwns(tx, y, s.minted, s.db.keys, st.dk, st.e, st.eventType);
      } else if st.Insert? && st.x == y {
        InsertOwns(tx, y, s.minted, st.e, Event(st.eventType, st.tenant, tx.startedAt),
          HandlersFor(s.cfg.handlersFor, st.eventType));
      } else if st.Push? && st.x == y {
        PushOwns(tx, y, s.minted, st.ids);
      }
    }
  }

  lemma StepKeepsIdsBegun(s: System, st: Step)
    requires IdsBegun(s) && Enabled(s, st) && (st.Commit? ==> TxOwns(s.txs[st.x], st.x, s.minted))
    requires forall e :: e in s.minted ==> e in MintedAfter(s, st) && MintedAfter(s, st)[e] == s.minted[e]
    ensures IdsBegun(Apply(s, st))
  {
  }

  lemma CommitKeepsEvents(s: System, x: TxId)
    requires Ownership(s) && x in s.txs && Commits(s.db, s.txs[x])
    ensures EventsMatch(TablesAfter(s, Commit(x)), LogAfter(s.log, EffectOf(s, Commit(x))),
            s.dispatched + s.txs[x].events)
  {
    CommitIsFresh(s, x);
    assert TxOwns(s.txs[x], x, s.minted);
  }

  /** Keys of two transactions that name different events join without sharing one. */
  lemma KeysJoin(keys: map<DispatchKey, KeyRow>, more: map<DispatchKey, KeyRow>)
    requires forall dk, dk' :: dk in keys && dk' in keys && dk != dk' ==> keys[dk].event != keys[dk'].event
    requires forall dk, dk' :: dk in more && dk' in more && dk != dk' ==> more[dk].event != more[dk'].event
    requires forall dk, dk' :: dk in keys && dk' in more ==> keys[dk].event != more[dk'].event
    ensures var all := keys + more;
            forall dk, dk' :: dk in all && dk' in all && dk != dk' ==> all[dk].event != all[dk'].event
  {
  }

  lemma CommitKeysDiffer(s: System, x: TxId)
    requires Ownership(s) && x in s.txs
    ensures forall dk, dk' :: dk in s.db.keys && dk' in s.txs[x].keys ==> s.db.keys[dk].event != s.txs[x].keys[dk']
  {
    assert TxOwns(s.txs[x], x, s.minted);
    forall dk, dk' | dk in s.db.keys && dk' in s.txs[x].keys ensures s.db.keys[dk].event != s.txs[x].keys[dk'] {
      assert s.db.keys[dk].event in s.dispatched;
    }
  }

  lemma CommitKeepsKeysResolved(s: System, x: TxId)
    requires KeysResolve(s.db) && x in s.txs && Commits(s.db, s.txs[x]) && TxOwns(s.txs[x], x, s.minted)
    requires forall dk, dk' :: dk in s.db.keys && dk' in s.txs[x].keys ==> s.db.keys[dk].event != s.txs[x].keys[dk']
    ensures KeysResolve(TablesAfter(s, Commit(x)))
  {
    var tx := s.txs[x];
    KeysJoin(s.db.keys, map dk | dk in tx.keys :: KeyRow(tx.keys[dk], tx.startedAt));
  }

  lemma StepKeepsKeysResolved(s: System, st: Step)
    requires Ownership(s) && Enabled(s, st)
    ensures KeysResolve(TablesAfter(s, st))
  {
    if Committing(s, st) {
      assert st == Commit(st.x);
      CommitKeysDiffer(s, st.x);
      CommitKeepsKeysResolved(s, st.x);
    } else if st.DropEvent? {
      assert st == DropEvent(st.e, st.cascade);
      DropEventKeepsKeysResolved(s, st.e, st.cascade);
    }
  }

  lemma StepKeepsEvents(s: System, st: Step)
    requires Ownership(s) && Enabled(s, st)
    ensures EventsMatch(TablesAfter(s, st), LogAfter(s.log, EffectOf(s, st)), DispatchedAfter(s, st))
  {
    if Committing(s, st) {
      assert st == Commit(st.x);
      CommitKeepsEvents(s, st.x);
    }
  }

  ghost function DispatchedAfter(s: System, st: Step): map<EventId, Event> {
    if Committing(s, st) then s.dispatched + s.txs[st.x].events else s.dispatched
  }

  lemma StepKeepsOwnership(s: System, st: Step)
    requires Ownership(s) && Enabled(s, st)
    ensures Ownership(Apply(s, st))
  {
    MintedGrows(s, st);
    StepKeepsIdsBegun(s, st);
    StepKeepsKeysResolved(s, st);
    StepKeepsEvents(s, st);
    forall y | y in TxsAfter(s, st) ensures TxOwns(TxsAfter(s, st)[y], y, MintedAfter(s, st)) {
      StepKeepsTxOwns(s, st, y);
    }
  }

  lemma DropEventKeepsKeysResolved(s: System, e: EventId, cascade: seq<DispatchKey>)
    requires KeysResolve(s.db) && Enabled(s, DropEvent(e, cascade))
    ensures KeysResolve(TablesAfter(s, DropEvent(e, cascade)))
  {
  }

  // ---- key locks -----------------------------------------------------------

  lemma ReserveLocks(tx: Tx, committed: map<DispatchKey, KeyRow>, dk: DispatchKey, e: EventId, ty: string)
    ensures var tx' := ReserveKey(tx, committed, dk, e, ty);
            forall d :: Locks(tx', d) <==> Locks(tx, d) || d == dk
  {
    var tx' := ReserveKey(tx, committed, dk, e, ty);
    forall d ensures Locks(tx', d) <==> Locks(tx, d) || d == dk {
      assert tx'.named[|tx.named|].key == dk;
      if Locks(tx, d) {
        var i :| 0 <= i < |tx.named| && tx.named[i].key == d;
        assert tx'.named[i].key == d;
      }
    }
  }

  lemma ReserveHolds(tx: Tx, committed: map<DispatchKey, KeyRow>, dk: DispatchKey, e: EventId, ty: string)
    requires TxHolds(tx, committed)
    ensures TxHolds(ReserveKey(tx, committed, dk, e, ty), committed)
  {
    ReserveLocks(tx, committed, dk, e, ty);
    ReserveBacks(tx, committed, dk, e, ty);
  }

  /** One more backed reservation, over the old insertions or one for a key that is new. */
  lemma BackedAppend(named: seq<KeyEvent>, n: KeyEvent, own: map<DispatchKey, EventId>, own': map<DispatchKey, EventId>,
                     committed: map<DispatchKey, KeyRow>)
    requires forall i :: 0 <= i < |named| ==> Backed(named[i], own, committed)
    requires n.Named? && (own' == own || (n.key !in own && n.key !in committed && own' == own[n.key := n.event]))
    requires Backed(n, own', committed)
    ensures forall i :: 0 <= i < |named + [n]| ==> Backed((named + [n])[i], own', committed)
  {
    forall i | 0 <= i < |named| ensures Backed(named[i], own', committed) {
      assert Backed(named[i], own, committed);
    }
  }

  lemma ReserveBacks(tx: Tx, committed: map<DispatchKey, KeyRow>, dk: DispatchKey, e: EventId, ty: string)
    requires forall i :: 0 <= i < |tx.named| ==> Backed(tx.named[i], tx.keys, committed)
    ensures var tx' := ReserveKey(tx, committed, dk, e, ty);
            forall i :: 0 <= i < |tx'.named| ==> Backed(tx'.named[i], tx'.keys, committed)
  {
    var event := if dk in tx.keys then tx.keys[dk] else if dk in committed then committed[dk].event else e;
    BackedAppend(tx.named, Named(dk, event), tx.keys, ReserveKey(tx, committed, dk, e, ty).keys, committed);
  }

  /** A transaction keeps what it holds while no key it locks enters or leaves the table. */
  lemma HoldsAcross(tx: Tx, keys: map<DispatchKey, KeyRow>, keys': map<DispatchKey, KeyRow>)
    requires TxHolds(tx, keys)
    requires forall dk :: Locks(tx, dk) ==> (dk in keys <==> dk in keys') && (dk in keys ==> keys[dk] == keys'[dk])
    ensures TxHolds(tx, keys')
  {
    forall i | 0 <= i < |tx.named| ensures Backed(tx.named[i], tx.keys, keys') {
      assert Backed(tx.named[i], tx.keys, keys) && Locks(tx, tx.named[i].key);
    }
  }

  lemma LocksAfter(s: System, st: Step, y: TxId, dk: DispatchKey)
    requires Enabled(s, st) && y in TxsAfter(s, st) && Locks(TxsAfter(s, st)[y], dk)
    ensures (y in s.txs && Locks(s.txs[y], dk)) || (st.Reserve? && st.x == y && st.dk == dk)
  {
    if st.Reserve? && st.x == y {
      ReserveLocks(s.txs[y], s.db.keys, st.dk, st.e, st.eventType);
    }
  }

  lemma StepKeepsLocksDisjoint(s: System, st: Step)
    requires LocksDisjoint(s.txs) && Enabled(s, st)
    ensures LocksDisjoint(TxsAfter(s, st))
  {
    var txs' := TxsAfter(s, st);
    forall x, y, dk | x in txs' && y in txs' && Locks(txs'[x], dk) && Locks(txs'[y], dk) ensures x == y {
      LocksAfter(s, st, x, dk);
      LocksAfter(s, st, y, dk);
    }
  }

  lemma OwnKeysAreLocked(tx: Tx, committed: map<DispatchKey, KeyRow>)
    requires TxHolds(tx, committed)
    ensures forall dk :: dk in tx.keys ==> Locks(tx, dk)
  {
  }

  /** No step moves a key that an open transaction other than the stepping one locks. */
  lemma LockedKeysStay(s: System, st: Step, y: TxId, dk: DispatchKey)
    requires KeyLocks(s) && Enabled(s, st) && y in TxsAfter(s, st) && y in s.txs && Locks(s.txs[y], dk)
    ensures var keys' := KeysAfter(s, st);
            (dk in s.db.keys <==> dk in keys') && (dk in s.db.keys ==> s.db.keys[dk] == keys'[dk])
  {
    if st.Commit? {
      OwnKeysAreLocked(s.txs[st.x], s.db.keys);
    } else if st.DropKey? {
      assert Unlocked(s, st.dk);
    } else if st.DropEvent? {
      assert dk in st.cascade ==> Unlocked(s, dk);
    }
  }

  lemma StepKeepsHolds(s: System, st: Step, y: TxId)
    requires KeyLocks(s) && IdsBegun(s) && Enabled(s, st) && y in TxsAfter(s, st)
    ensures TxHolds(TxsAfter(s, st)[y], KeysAfter(s, st))
  {
    if y in s.txs {
      var tx := s.txs[y];
      forall dk | Locks(tx, dk)
        ensures var keys' := KeysAfter(s, st);
                (dk in s.db.keys <==> dk in keys') && (dk in s.db.keys ==> s.db.keys[dk] == keys'[dk])
      {
        LockedKeysStay(s, st, y, dk);
      }
      HoldsAcross(tx, s.db.keys, KeysAfter(s, st));
      if st.Reserve? && st.x == y {
        ReserveHolds(tx, s.db.keys, st.dk, st.e, st.eventType);
      } else {
        SameNames(s, st, y);
      }
    }
  }

  lemma SameNames(s: System, st: Step, y: TxId)
    requires Enabled(s, st) && y in TxsAfter(s, st) && y in s.txs && y in s.begun && !(st.Reserve? && st.x == y)
    ensures TxsAfter(s, st)[y].keys == s.txs[y].keys && TxsAfter(s, st)[y].named == s.txs[y].named
    ensures forall dk :: Locks(TxsAfter(s, st)[y], dk) <==> Locks(s.txs[y], dk)
  {
  }

  lemma StepKeepsKeyLocks(s: System, st: Step)
    requires KeyLocks(s) && IdsBegun(s) && Enabled(s, st)
    ensures KeyLocks(Apply(s, st))
  {
    StepKeepsLocksDisjoint(s, st);
    forall y | y in TxsAfter(s, st) ensures TxHolds(TxsAfter(s, st)[y], KeysAfter(s, st)) { StepKeepsHolds(s, st, y); }
  }

  // ---- jobs and leases -----------------------------------------------------

  lemma PushKeepsTxJobs(tx: Tx, x: TxId, jobMinted: map<JobId, TxId>, ids: map<JobId, string>)
    requires TxJobs(tx, x, jobMinted) && tx.phase.Inserted? && OneJobEach(ids, tx.phase.handlers, jobMinted)
    ensures TxJobs(PushJobs(tx, ids), x, jobMinted + (map j | j in ids :: x))
  {
  }

  lemma InsertKeepsTxJobs(tx: Tx, x: TxId, jobMinted: map<JobId, TxId>, e: EventId, ev: Event, hs: seq<string>)
    requires TxJobs(tx, x, jobMinted) && e !in tx.events && Distinct(hs)
    ensures TxJobs(InsertEvent(tx, e, ev, hs), x, jobMinted)
  {
  }

  lemma JobsMintedMore(tx: Tx, x: TxId, jobMinted: map<JobId, TxId>, ids: map<JobId, string>, y: TxId)
    requires TxJobs(tx, x, jobMinted) && forall j :: j in ids ==> j !in jobMinted
    ensures TxJobs(tx, x, jobMinted + (map j | j in ids :: y))
  {
  }

  ghost function JobMintedAfter(s: System, st: Step): map<JobId, TxId> {
    if st.Push? then s.jobMinted + (map j | j in st.ids :: st.x) else s.jobMinted
  }

  lemma StepKeepsTxJobs(s: System, st: Step, y: TxId)
    requires Configured(s) && Enabled(s, st) && y in TxsAfter(s, st)
    requires (y in s.txs ==> TxJobs(s.txs[y], y, s.jobMinted))
    ensures TxJobs(TxsAfter(s, st)[y], y, JobMintedAfter(s, st))
  {
    if y in s.txs {
      var tx := s.txs[y];
      if st.Push? {
        if st.x == y {
          PushKeepsTxJobs(tx, y, s.jobMinted, st.ids);
        } else {
          JobsMintedMore(tx, y, s.jobMinted, st.ids, st.x);
        }
      } else if st.Insert? && st.x == y {
        InsertKeepsTxJobs(tx, y, s.jobMinted, st.e, Event(st.eventType, st.tenant, tx.startedAt),
          HandlersFor(s.cfg.handlersFor, st.eventType));
      }
    }
  }

  /** Two sets of jobs for disjoint sets of deliveries, each with one job per delivery. */
  lemma JobsJoin(jobs: map<JobId, Job>, more: map<JobId, Job>, log: map<DeliveryKey, History>)
    requires forall j :: j in jobs ==> jobs[j].env in log
    requires forall j :: j in more ==> more[j].env !in log
    requires forall j, j' :: j in jobs && j' in jobs && j != j' ==> jobs[j].env != jobs[j'].env
    requires forall j, j' :: j in more && j' in more && j != j' ==> more[j].env != more[j'].env
    ensures var all := jobs + more; forall j, j' :: j in all && j' in all && j != j' ==> all[j].env != all[j'].env
  {
  }

  lemma CommitKeepsJobEnvs(s: System, x: TxId)
    requires x in s.txs && Commits(s.db, s.txs[x]) && JobEnvs(s.jobs, s.log) && TxJobs(s.txs[x], x, s.jobMinted)
    requires s.cfg.maxAttempts >= 1 && forall k :: k in s.txs[x].deliveries ==> k !in s.log
    ensures JobEnvs(JobsAfter(s, Commit(x)), LogAfter(s.log, EffectOf(s, Commit(x))))
  {
    var tx := s.txs[x];
    JobsJoin(s.jobs, map j | j in tx.jobs :: Job(tx.jobs[j], 1, s.cfg.maxAttempts, Ready), s.log);
  }

  lemma LogKeepsKeys(log: map<DeliveryKey, History>, eff: Effect)
    ensures log.Keys <= LogAfter(log, eff).Keys
  {
  }

  lemma QuietStepKeepsJobEnvs(s: System, st: Step)
    requires JobEnvs(s.jobs, s.log) && LeasesMatch(s.jobs, s.invs) && Enabled(s, st) && !Committing(s, st)
    ensures JobEnvs(JobsAfter(s, st), LogAfter(s.log, EffectOf(s, st)))
  {
    SameEnvs(s, st);
    LogKeepsKeys(s.log, EffectOf(s, st));
  }

  lemma StepKeepsJobEnvs(s: System, st: Step)
    requires JobsMatch(s) && Ownership(s) && LeasesMatch(s.jobs, s.invs) && Enabled(s, st)
    ensures JobEnvs(JobsAfter(s, st), LogAfter(s.log, EffectOf(s, st)))
  {
    if Committing(s, st) {
      assert st == Commit(st.x);
      CommitIsFresh(s, st.x);
      CommitKeepsJobEnvs(s, st.x);
    } else {
      QuietStepKeepsJobEnvs(s, st);
    }
  }

  lemma CommitKeepsJobsClosed(s: System, x: TxId)
    requires JobsClosed(s.jobs, s.jobMinted, s.txs) && x in s.txs && TxJobs(s.txs[x], x, s.jobMinted)
    ensures JobsClosed(JobsAfter(s, Commit(x)), s.jobMinted, s.txs - {x})
  {
  }

  lemma StepKeepsJobsClosed(s: System, st: Step)
    requires JobIds(s) && Enabled(s, st) && !st.Commit? && LeasesMatch(s.jobs, s.invs)
    ensures JobsClosed(JobsAfter(s, st), JobMintedAfter(s, st), TxsAfter(s, st))
  {
    SameEnvs(s, st);
    assert TxsAfter(s, st).Keys <= s.txs.Keys || (st.Begin? && TxsAfter(s, st).Keys == s.txs.Keys + {st.x});
  }

  lemma StepKeepsJobIds(s: System, st: Step)
    requires JobIds(s) && Enabled(s, st) && LeasesMatch(s.jobs, s.invs) && (forall x :: x in s.txs ==> x in s.begun)
    requires st.Commit? ==> TxJobs(s.txs[st.x], st.x, s.jobMinted)
    ensures JobIds(Apply(s, st))
  {
    if st.Commit? {
      assert st == Commit(st.x);
      CommitKeepsJobsClosed(s, st.x);
    } else {
      StepKeepsJobsClosed(s, st);
    }
  }

  lemma SameEnvs(s: System, st: Step)
    requires Enabled(s, st) && !Committing(s, st) && LeasesMatch(s.jobs, s.invs)
    ensures JobsAfter(s, st).Keys == s.jobs.Keys
    ensures forall j :: j in s.jobs ==>
            JobsAfter(s, st)[j].env == s.jobs[j].env && JobsAfter(s, st)[j].maxAttempts == s.jobs[j].maxAttempts
  {
  }

  lemma StepKeepsJobs(s: System, st: Step)
    requires JobsMatch(s) && Ownership(s) && LeasesMatch(s.jobs, s.invs) && Configured(s) && Enabled(s, st)
    ensures JobsMatch(Apply(s, st))
  {
    StepKeepsJobEnvs(s, st);
    StepKeepsJobIds(s, st);
    forall y | y in TxsAfter(s, st) ensures TxJobs(TxsAfter(s, st)[y], y, JobMintedAfter(s, st)) {
      StepKeepsTxJobs(s, st, y);
    }
  }

  lemma CommitJobsAreNew(s: System, x: TxId)
    requires JobsMatch(s) && x in s.txs
    ensures s.jobs.Keys !! s.txs[x].jobs.Keys
  {
    assert TxJobs(s.txs[x], x, s.jobMinted);
  }

  /** What a commit brings to the queue and the histories is new there. */
  ghost predicate CommitReady(s: System, st: Step) {
    st.Commit? && st.x in s.txs ==>
      && s.cfg.maxAttempts >= 1
      && s.jobs.Keys !! s.txs[st.x].jobs.Keys
      && TxJobs(s.txs[st.x], st.x, s.jobMinted)
      && forall k :: k in s.txs[st.x].deliveries ==> k !in s.log
  }

  lemma GoodIsReady(s: System, st: Step)
    requires Good(s)
    ensures CommitReady(s, st)
  {
    if st.Commit? && st.x in s.txs {
      CommitIsFresh(s, st.x);
      CommitJobsAreNew(s, st.x);
    }
  }

  lemma CommitKeepsLeases(s: System, x: TxId)
    requires LeasesMatch(s.jobs, s.invs) && JobsMatch(s) && x in s.txs
    ensures LeasesMatch(JobsAfter(s, Commit(x)), s.invs)
  {
    CommitJobsAreNew(s, x);
  }

  lemma PcKeepsLeases(jobs: map<JobId, Job>, invs: map<Token, Invocation>, t: Token, pc: Pc)
    requires LeasesMatch(jobs, invs) && t in invs
    ensures LeasesMatch(jobs, invs[t := invs[t].(pc := pc)])
  {
  }

  lemma UnleaseKeepsLeases(jobs: map<JobId, Job>, invs: map<Token, Invocation>, j: JobId, job: Job)
    requires LeasesMatch(jobs, invs) && j in jobs && job.env == jobs[j].env && !job.phase.Leased?
    ensures LeasesMatch(jobs[j := job], invs)
  {
  }

  lemma LeaseKeepsLeases(jobs: map<JobId, Job>, invs: map<Token, Invocation>, j: JobId, t: Token)
    requires LeasesMatch(jobs, invs) && j in jobs && t !in invs
    ensures LeasesMatch(jobs[j := jobs[j].(phase := Leased(t))],
                        invs[t := Invocation(j, jobs[j].env, jobs[j].attempt, jobs[j].maxAttempts, Fetching)])
  {
  }

  lemma ReportKeepsLeases(s: System, st: Step)
    requires LeasesMatch(s.jobs, s.invs) && Enabled(s, st) && st.Report?
    ensures LeasesMatch(JobsAfter(s, st), InvsAfter(s, st))
  {
    PcKeepsLeases(s.jobs, s.invs, st.t, Gone);
    var j := s.invs[st.t].job;
    UnleaseKeepsLeases(s.jobs, InvsAfter(s, st), j, Settle(s.jobs[j], s.invs[st.t].pc.result));
  }

  lemma WorkKeepsLeases(s: System, st: Step)
    requires LeasesMatch(s.jobs, s.invs) && Enabled(s, st) && !st.Commit?
    ensures LeasesMatch(JobsAfter(s, st), InvsAfter(s, st))
  {
    if st.Lease? {
      LeaseKeepsLeases(s.jobs, s.invs, st.j, st.t);
    } else if st.Report? {
      ReportKeepsLeases(s, st);
    } else if InvocationStep(st) {
      PcKeepsLeases(s.jobs, s.invs, st.t, PcAfter(s, st));
    } else if st.Reap? {
      UnleaseKeepsLeases(s.jobs, s.invs, st.j, JobsAfter(s, st)[st.j]);
    }
  }

  lemma StepKeepsLeases(s: System, st: Step)
    requires LeasesMatch(s.jobs, s.invs) && JobsMatch(s) && Enabled(s, st)
    ensures LeasesMatch(JobsAfter(s, st), InvsAfter(s, st))
  {
    if st.Commit? { CommitKeepsLeases(s, st.x); } else { WorkKeepsLeases(s, st); }
  }

  // ---- victims -------------------------------------------------------------

  /** "All deliveries of e are terminal" is stable: once true of a dispatched event, no step
      of any kind makes it false again. */
  lemma AllTerminalIsStable(s: System, st: Step, e: EventId)
    requires Ownership(s) && Enabled(s, st) && e in s.dispatched && AllTerminal(s.db, e)
    ensures AllTerminal(Apply(s, st).db, e)
  {
    if st.Commit? {
      CommitIsFresh(s, st.x);
    }
    forall k | k in RowsAfter(s.db.deliveries, EffectOf(s, st)) && k.event == e
      ensures Terminal(RowsAfter(s.db.deliveries, EffectOf(s, st))[k].status)
    {
      SettledRowStays(s, st, k);
    }
  }

  lemma SettledRowStays(s: System, st: Step, k: DeliveryKey)
    requires k in RowsAfter(s.db.deliveries, EffectOf(s, st))
    requires (k in s.db.deliveries ==> Terminal(s.db.deliveries[k].status))
    requires st.Commit? && st.x in s.txs ==> k !in s.txs[st.x].deliveries
    ensures k in s.db.deliveries && RowsAfter(s.db.deliveries, EffectOf(s, st))[k] == s.db.deliveries[k]
  {
  }

  lemma StepKeepsVictims(s: System, st: Step)
    requires VictimsSafe(s) && Ownership(s) && Enabled(s, st)
    ensures VictimsSafe(Apply(s, st))
  {
    var s' := Apply(s, st);
    forall e | e in s'.victims ensures e in s'.dispatched && AllTerminal(s'.db, e) {
      AllTerminalIsStable(s, st, e);
    }
  }

  // ---- together ------------------------------------------------------------

  lemma InitIsGood(s: System)
    requires Init(s)
    ensures Good(s)
  {
  }

  /** Every step, whichever of the 19 kinds it is, keeps the whole invariant. */
  lemma StepKeepsGood(s: System, st: Step)
    requires Good(s) && Enabled(s, st)
    ensures Good(Apply(s, st))
  {
    EffectAllowed(s, st);
    AllowedKeepsRows(s.db.deliveries, s.log, EffectOf(s, st));
    StepKeepsTokens(s, st);
    StepKeepsOwnership(s, st);
    StepKeepsKeyLocks(s, st);
    StepKeepsJobs(s, st);
    StepKeepsLeases(s, st);
    StepKeepsVictims(s, st);
  }

  lemma RunStartsGood(states: seq<System>, steps: seq<Step>)
    requires IsRun(states, steps)
    ensures Good(states[0])
  {
    InitIsGood(states[0]);
  }

  lemma GoodNext(states: seq<System>, steps: seq<Step>, i: nat)
    requires IsRun(states, steps) && 0 < i < |states| && Good(states[i - 1])
    ensures Good(states[i])
  {
    assert Linked(states, steps, i - 1);
    StepKeepsGood(states[i - 1], steps[i - 1]);
  }

  /** Every state of every run satisfies the invariant. */
  lemma {:induction false} RunIsGood(states: seq<System>, steps: seq<Step>, i: nat)
    requires IsRun(states, steps) && i < |states|
    ensures Good(states[i])
  {
    if i == 0 {
      RunStartsGood(states, steps);
    } else {
      RunIsGood(states, steps, i - 1);
      GoodNext(states, steps, i);
    }
  }
}
