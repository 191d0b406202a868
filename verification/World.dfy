/** The whole system as interleaved atomic steps: open dispatch transactions, the assumed
    work queue with its leases, unboundedly many in-flight invocations of
    `handle_envelope`, and purges, over one set of tables. `Enabled` says when a step can
    happen and `Apply` what it does, component by component; everything nondeterministic
    (statement outcomes, times, fresh ids, what a handler does) is carried by the step. */
module World {
  import opened Wrappers
  import opened Schema
  import opened Routing
  import opened Fenced
  import opened Ledger

  type TxId = nat

  /** `handlersFor` is the registry's `by_type` index. */
  datatype Cfg = Cfg(handlersFor: map<string, seq<string>>, allowNoHandlers: bool, maxAttempts: U32, policy: Policy)

  /** `handler_ids_for`: the ids listed for a type, none for a type without an entry. */
  function HandlersFor(byType: map<string, seq<string>>, eventType: string): seq<string> {
    if eventType in byType then byType[eventType] else []
  }

  ghost predicate Distinct<T>(s: seq<T>) {
    forall i, j :: 0 <= i < j < |s| ==> s[i] != s[j]
  }

  // ---- the queue and its workers -------------------------------------------

  datatype JobPhase = Ready | Leased(token: Token) | Finished | Killed
  datatype Job = Job(env: DeliveryKey, attempt: U32, maxAttempts: U32, phase: JobPhase)

  /** Where an invocation of `handle_envelope` stands between its SQL statements. */
  datatype Pc = Fetching | Handling(claimedAt: Time) | Reporting(result: JobResult) | Gone
  datatype Invocation = Invocation(job: JobId, env: DeliveryKey, attempt: U32, maxAttempts: U32, pc: Pc)

  // ---- dispatch transactions -----------------------------------------------

  /** A committed dispatch that named an event under a key, or the removal of that key. */
  datatype KeyEvent = Named(key: DispatchKey, event: EventId) | Purged(key: DispatchKey)

  /** Where the dispatch call in progress stands between its statements. */
  datatype Phase =
    | Idle
    | Reserved(event: EventId, key: DispatchKey, eventType: string)
    | Inserted(event: EventId, handlers: seq<string>)

  /** An open transaction: the rows it has written but not committed. `named` lists its key
      reservations in order; it holds the row locks of exactly those keys. `failed` means a
      statement failed, so that a commit rolls back; `erred` that some dispatch returned Err. */
  datatype Tx = Tx(
    startedAt: Time,
    keys: map<DispatchKey, EventId>,
    events: map<EventId, Event>,
    deliveries: set<DeliveryKey>,
    jobs: map<JobId, DeliveryKey>,
    named: seq<KeyEvent>,
    unkeyed: nat,
    phase: Phase,
    failed: bool,
    erred: bool)

  function EmptyTx(now: Time): Tx {
    Tx(now, map[], map[], {}, map[], [], 0, Idle, false, false)
  }

  predicate Locks(tx: Tx, dk: DispatchKey) {
    exists i :: 0 <= i < |tx.named| && tx.named[i].key == dk
  }

  /** The upsert of step 5 of dispatch: insert the key, or find the row that is there. */
  function ReserveKey(tx: Tx, committed: map<DispatchKey, KeyRow>, dk: DispatchKey, e: EventId, eventType: string): Tx {
    if dk in tx.keys then tx.(named := tx.named + [Named(dk, tx.keys[dk])])
    else if dk in committed then tx.(named := tx.named + [Named(dk, committed[dk].event)])
    else tx.(keys := tx.keys[dk := e], named := tx.named + [Named(dk, e)], phase := Reserved(e, dk, eventType))
  }

  /** Steps 7 and 8 of dispatch: the event row and one delivery row per handler. */
  function InsertEvent(tx: Tx, e: EventId, ev: Event, handlers: seq<string>): Tx {
    tx.(events := tx.events[e := ev],
        deliveries := tx.deliveries + (set h | h in handlers :: DeliveryKey(e, h)),
        unkeyed := tx.unkeyed + if tx.phase.Idle? then 1 else 0,
        phase := if handlers == [] then Idle else Inserted(e, handlers))
  }

  /** Step 9 of dispatch: one job per handler; `ids` gives each new job its handler. */
  function PushJobs(tx: Tx, ids: map<JobId, string>): Tx
    requires tx.phase.Inserted?
  {
    tx.(jobs := tx.jobs + (map j | j in ids :: DeliveryKey(tx.phase.event, ids[j])), phase := Idle)
  }

  /** `ids` numbers exactly one job per handler, with ids not drawn before. */
  ghost predicate OneJobEach(ids: map<JobId, string>, handlers: seq<string>, drawn: map<JobId, TxId>) {
    && (forall j :: j in ids ==> ids[j] in handlers && j !in drawn)
    && (forall j, j' :: j in ids && j' in ids && j != j' ==> ids[j] != ids[j'])
    && (forall h :: h in handlers ==> exists j :: j in ids && ids[j] == h)
  }

  /** COMMIT succeeds: no statement failed and the deferred foreign key of every inserted
      dispatch key finds its event. Otherwise the transaction is rolled back. */
  predicate Commits(db: Tables, tx: Tx) {
    !tx.failed && forall dk :: dk in tx.keys ==> tx.keys[dk] in tx.events || tx.keys[dk] in db.events
  }

  // ---- the state -----------------------------------------------------------

  /** `log`, `keyLog`, `dispatched` and `unkeyed` record the past; `minted` and `jobMinted`
      say which transaction drew each event and job id; `begun` holds every transaction id. */
  datatype System = System(
    cfg: Cfg,
    db: Tables,
    txs: map<TxId, Tx>,
    jobs: map<JobId, Job>,
    invs: map<Token, Invocation>,
    victims: set<EventId>,
    clock: Time,
    log: map<DeliveryKey, History>,
    keyLog: seq<KeyEvent>,
    dispatched: map<EventId, Event>,
    unkeyed: nat,
    begun: set<TxId>,
    minted: map<EventId, TxId>,
    jobMinted: map<JobId, TxId>)

  function Empty(cfg: Cfg, clock: Time): System {
    System(
      cfg, Tables(map[], map[], map[]), map[], map[], map[], {}, clock, map[], [], map[], 0, {}, map[], map[])
  }

  ghost predicate Init(s: System) {
    && s.cfg.maxAttempts >= 1
    && (forall t :: t in s.cfg.handlersFor ==> Distinct(s.cfg.handlersFor[t]))
    && s == Empty(s.cfg, s.clock)
  }

  datatype Step =
    // dispatch, inside a caller's transaction
    | Begin(x: TxId, now: Time)
    | Reserve(x: TxId, dk: DispatchKey, e: EventId, eventType: string)
    | Insert(x: TxId, e: EventId, eventType: string, tenant: string)
    | Push(x: TxId, ids: map<JobId, string>)
    | StatementFails(x: TxId)
    | DispatchErr(x: TxId)
    | Commit(x: TxId)
    | Rollback(x: TxId)
    // the queue and its workers
    | Lease(j: JobId, t: Token)
    | ClaimRow(t: Token, sql: Sql, now: Time)
    | MarkRow(t: Token, o: Observed, sql: Sql, now: Time)
    | Report(t: Token)
    | Crash(t: Token)
    | Cancel(t: Token)
    | Reap(j: JobId, attempt: U32)
    // purges
    | DropDelivery(k: DeliveryKey, cutoff: Time)
    | DropKey(dk: DispatchKey, cutoff: Time)
    | Select(es: set<EventId>, cutoff: Time)
    | DropEvent(e: EventId, cascade: seq<DispatchKey>)

  predicate AllTerminal(db: Tables, e: EventId) {
    forall k :: k in db.deliveries && k.event == e ==> Terminal(db.deliveries[k].status)
  }

  predicate Unlocked(s: System, dk: DispatchKey) {
    forall x :: x in s.txs ==> !Locks(s.txs[x], dk)
  }

  function RouteOf(s: System, t: Token, o: Observed): (Mark, JobResult)
    requires t in s.invs
  {
    Route(s.cfg.policy, s.invs[t].attempt, s.invs[t].maxAttempts, o)
  }

  ghost predicate Enabled(s: System, st: Step) {
    match st
    case Begin(x, _) => x !in s.begun
    case Reserve(x, dk, e, eventType) =>
      && x in s.txs && s.txs[x].phase.Idle? && !s.txs[x].failed && e !in s.minted
      && (forall y :: y in s.txs && y != x ==> !Locks(s.txs[y], dk))
      && (HandlersFor(s.cfg.handlersFor, eventType) != [] || s.cfg.allowNoHandlers)
    case Insert(x, e, eventType, tenant) =>
      && x in s.txs && !s.txs[x].failed
      && (HandlersFor(s.cfg.handlersFor, eventType) != [] || s.cfg.allowNoHandlers)
      && (match s.txs[x].phase
          case Idle => e !in s.minted
          case Reserved(e', dk, ty) => e == e' && eventType == ty && tenant == dk.tenant
          case Inserted(_, _) => false)
      && InsertFits(s, x, e, HandlersFor(s.cfg.handlersFor, eventType))
    case Push(x, ids) =>
      && x in s.txs && !s.txs[x].failed && s.txs[x].phase.Inserted?
      && OneJobEach(ids, s.txs[x].phase.handlers, s.jobMinted)
    case StatementFails(x) => x in s.txs
    case DispatchErr(x) => x in s.txs
    case Commit(x) => x in s.txs && s.txs[x].phase.Idle?
    case Rollback(x) => x in s.txs
    case Lease(j, t) => j in s.jobs && s.jobs[j].phase == Ready && t !in s.invs
    case ClaimRow(t, sql, now) =>
      && t in s.invs && s.invs[t].pc == Fetching
      && Possible(sql, ClaimFits(s.db, s.invs[t].env, s.invs[t].attempt, t, now))
    case MarkRow(t, o, sql, now) =>
      && t in s.invs && s.invs[t].pc.Handling? && s.invs[t].pc.claimedAt <= now
      && Possible(sql, MarkFits(s.db, s.invs[t].env, t, RouteOf(s, t, o).0, now))
    case Report(t) => t in s.invs && s.invs[t].pc.Reporting?
    case Crash(t) => t in s.invs
    case Cancel(t) => t in s.invs && (s.invs[t].pc == Fetching || s.invs[t].pc.Handling?)
    case Reap(j, _) => j in s.jobs && s.jobs[j].phase.Leased?
    case DropDelivery(k, cutoff) =>
      && k in s.db.deliveries && Terminal(s.db.deliveries[k].status)
      && s.db.deliveries[k].finishedAt.Some? && s.db.deliveries[k].finishedAt.value < cutoff
    case DropKey(dk, cutoff) => dk in s.db.keys && s.db.keys[dk].createdAt < cutoff && Unlocked(s, dk)
    case Select(es, cutoff) =>
      forall e :: e in es ==> e in s.db.events && s.db.events[e].createdAt < cutoff && AllTerminal(s.db, e)
    case DropEvent(e, cascade) =>
      && e in s.victims && e in s.db.events && Distinct(cascade)
      && (forall dk :: dk in cascade <==> dk in JoinedKeys(s.db, e))
      && (forall dk :: dk in cascade ==> Unlocked(s, dk))
  }

  /** The constraints of the fan-out statement: the primary key of events and
      UNIQUE (event_id, handler_id). */
  ghost predicate InsertFits(s: System, x: TxId, e: EventId, handlers: seq<string>)
    requires x in s.txs
  {
    && e !in s.db.events && e !in s.txs[x].events && Distinct(handlers)
    && forall h :: h in handlers ==> DeliveryKey(e, h) !in s.db.deliveries && DeliveryKey(e, h) !in s.txs[x].deliveries
  }

  // ---- delivery rows -------------------------------------------------------

  /** How a step changes the delivery rows and their histories. */
  datatype Effect =
    | Nothing
    | Fresh(ks: set<DeliveryKey>, now: Time)
    | Write(k: DeliveryKey, en: Entry)
    | Drop(ks: set<DeliveryKey>)

  function EffectOf(s: System, st: Step): Effect {
    if Committing(s, st) then Fresh(s.txs[st.x].deliveries, s.txs[st.x].startedAt)
    else if st.ClaimRow? && st.t in s.invs && TookEffect(st.sql) && Claimable(s.db, s.invs[st.t].env) then
      Write(s.invs[st.t].env, Claimed(st.t, Clamp(s.invs[st.t].attempt), st.now))
    else if st.MarkRow? && st.t in s.invs && TookEffect(st.sql) && Fence(s.db, s.invs[st.t].env, st.t) then
      Write(s.invs[st.t].env, Marked(st.t, RouteOf(s, st.t, st.o).0, st.now))
    else if st.DropDelivery? then Drop({st.k})
    else if st.DropEvent? then Drop(set k | k in s.db.deliveries && k.event == st.e)
    else Nothing
  }

  predicate Committing(s: System, st: Step) {
    st.Commit? && st.x in s.txs && Commits(s.db, s.txs[st.x])
  }

  function RowsAfter(rows: map<DeliveryKey, Delivery>, eff: Effect): map<DeliveryKey, Delivery> {
    match eff
    case Nothing => rows
    case Fresh(ks, now) => rows + (map k | k in ks :: QueuedRow(now))
    case Write(k, en) => if k in rows then rows[k := Act(rows[k], en)] else rows
    case Drop(ks) => rows - ks
  }

  function LogAfter(log: map<DeliveryKey, History>, eff: Effect): map<DeliveryKey, History> {
    match eff
    case Fresh(ks, now) => log + (map k | k in ks :: History(now, []))
    case Write(k, en) => if k in log then log[k := Extend(log[k], en)] else log
    case _ => log
  }

  /** The claim and mark statements change the tables as these effects say. */
  lemma StatementsAreEffects(s: System, t: Token, m: Mark, now: Time)
    requires t in s.invs
    ensures var inv := s.invs[t];
            && Claim(s.db, inv.env, inv.attempt, t, now).deliveries ==
               RowsAfter(s.db.deliveries, EffectOf(s, ClaimRow(t, Done, now)))
            && MarkFenced(s.db, inv.env, t, m, now).deliveries ==
               (if Fence(s.db, inv.env, t) then RowsAfter(s.db.deliveries, Write(inv.env, Marked(t, m, now)))
                else s.db.deliveries)
  {
  }

  // ---- workers -------------------------------------------------------------

  function AfterClaimStatement(s: System, t: Token, sql: Sql, now: Time): Pc
    requires t in s.invs
  {
    if sql.Failed? then Reporting(MapSql(sql.deterministic, "fetch delivery"))
    else match AfterClaim(Reply(s.db, s.invs[t].env))
         case Some(r) => Reporting(r)
         case None => Handling(now)
  }

  /** Where the invocation of a worker step stands afterwards. */
  function PcAfter(s: System, st: Step): Pc
    requires InvocationStep(st) && st.t in s.invs
  {
    if st.ClaimRow? then AfterClaimStatement(s, st.t, st.sql, st.now)
    else if st.MarkRow? then
      Reporting(if st.sql.Done? then RouteOf(s, st.t, st.o).1 else MapSql(st.sql.deterministic, "mark"))
    else if st.Cancel? then Reporting(JobRetry("cancelled by the queue", None))
    else Gone
  }

  predicate InvocationStep(st: Step) {
    st.ClaimRow? || st.MarkRow? || st.Report? || st.Crash? || st.Cancel?
  }

  function InvsAfter(s: System, st: Step): map<Token, Invocation> {
    if st.Lease? && st.j in s.jobs then
      var job := s.jobs[st.j];
      s.invs[st.t := Invocation(st.j, job.env, job.attempt, job.maxAttempts, Fetching)]
    else if InvocationStep(st) && st.t in s.invs then
      s.invs[st.t := s.invs[st.t].(pc := PcAfter(s, st))]
    else s.invs
  }

  /** What the queue does with a result of the current lease holder. */
  function Settle(job: Job, r: JobResult): Job {
    if r.JobOk? then job.(phase := Finished)
    else if Requeues(r, job.attempt, job.maxAttempts) then job.(phase := Ready, attempt := job.attempt + 1)
    else job.(phase := Killed)
  }

  function JobsAfter(s: System, st: Step): map<JobId, Job> {
    if Committing(s, st) then
      var tx := s.txs[st.x];
      s.jobs + (map j | j in tx.jobs :: Job(tx.jobs[j], 1, s.cfg.maxAttempts, Ready))
    else if st.Lease? && st.j in s.jobs then s.jobs[st.j := s.jobs[st.j].(phase := Leased(st.t))]
    else if st.Reap? && st.j in s.jobs then s.jobs[st.j := s.jobs[st.j].(phase := Ready, attempt := st.attempt)]
    else if st.Report? && st.t in s.invs && s.invs[st.t].pc.Reporting? && s.invs[st.t].job in s.jobs
            && s.jobs[s.invs[st.t].job].phase == Leased(st.t) then
      s.jobs[s.invs[st.t].job := Settle(s.jobs[s.invs[st.t].job], s.invs[st.t].pc.result)]
    else s.jobs
  }

  // ---- transactions, events and keys ---------------------------------------

  ghost function TxsAfter(s: System, st: Step): map<TxId, Tx>
    requires Enabled(s, st)
  {
    if st.Begin? then s.txs[st.x := EmptyTx(st.now)]
    else if st.Reserve? then s.txs[st.x := ReserveKey(s.txs[st.x], s.db.keys, st.dk, st.e, st.eventType)]
    else if st.Insert? then
      var ev := Event(st.eventType, st.tenant, s.txs[st.x].startedAt);
      s.txs[st.x := InsertEvent(s.txs[st.x], st.e, ev, HandlersFor(s.cfg.handlersFor, st.eventType))]
    else if st.Push? then s.txs[st.x := PushJobs(s.txs[st.x], st.ids)]
    else if st.StatementFails? then s.txs[st.x := s.txs[st.x].(failed := true, erred := true, phase := Idle)]
    else if st.DispatchErr? then s.txs[st.x := s.txs[st.x].(erred := true, phase := Idle)]
    else if st.Commit? || st.Rollback? then s.txs - {st.x}
    else s.txs
  }

  function EventsAfter(s: System, st: Step): map<EventId, Event> {
    if Committing(s, st) then s.db.events + s.txs[st.x].events
    else if st.DropEvent? then s.db.events - {st.e}
    else s.db.events
  }

  function KeysAfter(s: System, st: Step): map<DispatchKey, KeyRow> {
    if Committing(s, st) then
      var tx := s.txs[st.x];
      s.db.keys + (map dk | dk in tx.keys :: KeyRow(tx.keys[dk], tx.startedAt))
    else if st.DropKey? then s.db.keys - {st.dk}
    else if st.DropEvent? then s.db.keys - (set dk | dk in st.cascade)
    else s.db.keys
  }

  function TablesAfter(s: System, st: Step): Tables {
    Tables(EventsAfter(s, st), KeysAfter(s, st), RowsAfter(s.db.deliveries, EffectOf(s, st)))
  }

  function Purges(cascade: seq<DispatchKey>): seq<KeyEvent> {
    seq(|cascade|, i requires 0 <= i < |cascade| => Purged(cascade[i]))
  }

  function KeyLogAfter(s: System, st: Step): seq<KeyEvent> {
    if Committing(s, st) then s.keyLog + s.txs[st.x].named
    else if st.DropKey? then s.keyLog + [Purged(st.dk)]
    else if st.DropEvent? then s.keyLog + Purges(st.cascade)
    else s.keyLog
  }

  function ClockAfter(clock: Time, st: Step): Time {
    if st.Begin? || st.ClaimRow? || st.MarkRow? then Max(clock, st.now) else clock
  }

  ghost function Apply(s: System, st: Step): System
    requires Enabled(s, st)
  {
    System(
      s.cfg,
      TablesAfter(s, st),
      TxsAfter(s, st),
      JobsAfter(s, st),
      InvsAfter(s, st),
      if st.Select? then s.victims + st.es else s.victims,
      ClockAfter(s.clock, st),
      LogAfter(s.log, EffectOf(s, st)),
      KeyLogAfter(s, st),
      if Committing(s, st) then s.dispatched + s.txs[st.x].events else s.dispatched,
      if Committing(s, st) then s.unkeyed + s.txs[st.x].unkeyed else s.unkeyed,
      if st.Begin? then s.begun + {st.x} else s.begun,
      if st.Reserve? || st.Insert? then s.minted[st.e := st.x] else s.minted,
      if st.Push? then s.jobMinted + (map j | j in st.ids :: st.x) else s.jobMinted)
  }

  // ---- runs ----------------------------------------------------------------

  /** A run: states linked by enabled steps, from an initial state. */
  ghost predicate IsRun(states: seq<System>, steps: seq<Step>) {
    |states| == |steps| + 1 && Init(states[0]) && forall i :: 0 <= i < |steps| ==> Linked(states, steps, i)
  }

  ghost predicate Linked(states: seq<System>, steps: seq<Step>, i: nat)
    requires |states| == |steps| + 1 && i < |steps|
  {
    Enabled(states[i], steps[i]) && states[i + 1] == Apply(states[i], steps[i])
  }
}
