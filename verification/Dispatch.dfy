/** `Outbox::dispatch` of `src/outbox.rs`: ordered writes into a transaction that the caller
    owns and later commits or rolls back. */
module Dispatch {
  import opened Wrappers
  import opened Schema
  import opened Registry
  import opened World
  import Invariants
  import Fanout
  import Idempotency
  import Utf8

  const MAX_EVENT_TYPE_BYTES: nat := 128
  const MAX_TENANT_BYTES: nat := 64
  const MAX_BC_BYTES: nat := 64
  const MAX_IDEMPOTENCY_KEY_BYTES: nat := 128
  const MAX_AGGREGATE_KEY_BYTES: nat := 128
  const MAX_PAYLOAD_BYTES: nat := 1_048_576
  const MAX_HEADERS_BYTES: nat := 16 * 1024

  /** What the caller asks for. `payload` and `headers` are the byte sizes of the encoded JSON,
      `None` if encoding fails. */
  datatype Request = Request(
    eventType: string,
    tenant: string,
    producerBc: string,
    key: Option<string>,
    aggregateKey: Option<string>,
    payload: Option<nat>,
    headers: Option<nat>)

  datatype DispatchError =
    | EventTypeInvalid(len: nat)
    | TenantIdTooLong(len: nat)
    | ProducerBcTooLong(len: nat)
    | IdempotencyKeyInvalid(len: nat)
    | AggregateKeyInvalid(len: nat)
    | Codec
    | PayloadTooLarge(size: nat)
    | NoHandlersRegistered
    | HeadersTooLarge(size: nat)
    | Database

  datatype DispatchOutcome =
    | Dispatched(event: EventId, deliveries: nat)
    | Duplicate(event: EventId)
    | NoHandlers(event: EventId)
  datatype Result = Ok(outcome: DispatchOutcome) | Err(error: DispatchError)

  /** How the statements go. A push may also fail before any statement is sent, which leaves
      the transaction usable. */
  datatype PushRun = Pushed | PushFailed(aborted: bool)
  datatype Io = Io(reserve: bool, insert: bool, push: PushRun)

  predicate Within(s: string, lo: nat, hi: nat) {
    lo <= Utf8.Len(s) <= hi
  }

  /** The checks the database makes on the same text (`migrations/…_v01_outbox_init.sql`). */
  predicate ColumnsFit(req: Request) {
    && Within(req.eventType, 1, 128) && Within(req.producerBc, 0, 64) && Within(req.tenant, 0, 64)
    && (req.aggregateKey.Some? ==> Within(req.aggregateKey.value, 1, 128))
    && (req.key.Some? ==> Within(req.key.value, 1, 128))
    && req.payload.Some? && req.payload.value <= 1048576
  }

  /** An error found before any statement, and what it says about the request. */
  predicate Explains(e: DispatchError, req: Request, handlers: seq<string>, allowNoHandlers: bool) {
    match e
    case EventTypeInvalid(len) => len == Utf8.Len(req.eventType) && !(1 <= len <= MAX_EVENT_TYPE_BYTES)
    case TenantIdTooLong(len) => len == Utf8.Len(req.tenant) > MAX_TENANT_BYTES
    case ProducerBcTooLong(len) => len == Utf8.Len(req.producerBc) > MAX_BC_BYTES
    case IdempotencyKeyInvalid(len) =>
      req.key.Some? && len == Utf8.Len(req.key.value) && !(1 <= len <= MAX_IDEMPOTENCY_KEY_BYTES)
    case AggregateKeyInvalid(len) =>
      req.aggregateKey.Some? && len == Utf8.Len(req.aggregateKey.value) && !(1 <= len <= MAX_AGGREGATE_KEY_BYTES)
    case Codec => req.payload.None?
    case PayloadTooLarge(size) => req.payload == Some(size) && size > MAX_PAYLOAD_BYTES
    case NoHandlersRegistered => handlers == [] && !allowNoHandlers
    case _ => false
  }

  /** The order in which the request is checked. */
  function CheckOrder(e: DispatchError): nat {
    match e
    case EventTypeInvalid(_) => 1
    case TenantIdTooLong(_) => 2
    case ProducerBcTooLong(_) => 3
    case IdempotencyKeyInvalid(_) => 4
    case AggregateKeyInvalid(_) => 5
    case Codec => 6
    case PayloadTooLarge(_) => 7
    case _ => 8
  }

  /** Of everything wrong with the request, `e` is what is checked first. */
  ghost predicate FirstFault(e: DispatchError, req: Request, handlers: seq<string>, allowNoHandlers: bool) {
    forall f :: Explains(f, req, handlers, allowNoHandlers) ==> CheckOrder(e) <= CheckOrder(f)
  }

  function Zip(ids: seq<JobId>, handlers: seq<string>): map<JobId, string>
    requires |ids| == |handlers|
  {
    if ids == [] then map[] else Zip(ids[1..], handlers[1..])[ids[0] := handlers[0]]
  }

  function Fails(tx: Tx, aborted: bool): Tx {
    tx.(erred := true, failed := tx.failed || aborted, phase := Idle)
  }

  function KeyOf(req: Request): DispatchKey
    requires req.key.Some?
  {
    DispatchKey(req.tenant, req.key.value)
  }

  /** The transaction and the result dispatch leaves for an acceptable request, by the steps of
      the interleaved system. `committed` is the key table when the upsert runs. */
  function Run(tx: Tx, req: Request, handlers: seq<string>, committed: map<DispatchKey, KeyRow>, e: EventId,
               ids: seq<JobId>, io: Io): (Tx, Result)
    requires |ids| == |handlers|
  {
    if req.key.Some? && (tx.failed || !io.reserve) then (Fails(tx, true), Err(Database))
    else
      var reserved := if req.key.Some? then ReserveKey(tx, committed, KeyOf(req), e, req.eventType) else tx;
      if req.key.Some? && KeyOf(req) in tx.keys then (reserved, Ok(Duplicate(tx.keys[KeyOf(req)])))
      else if req.key.Some? && KeyOf(req) in committed then (reserved, Ok(Duplicate(committed[KeyOf(req)].event)))
      else RunWrites(reserved, req, handlers, e, ids, io)
  }

  /** Steps 6 to 9, after any reservation. */
  function RunWrites(tx: Tx, req: Request, handlers: seq<string>, e: EventId, ids: seq<JobId>, io: Io): (Tx, Result)
    requires |ids| == |handlers|
  {
    if req.headers.None? then (Fails(tx, false), Err(Codec))
    else if req.headers.value > MAX_HEADERS_BYTES then (Fails(tx, false), Err(HeadersTooLarge(req.headers.value)))
    else if tx.failed || !io.insert then (Fails(tx, true), Err(Database))
    else
      var inserted := InsertEvent(tx, e, Event(req.eventType, req.tenant, tx.startedAt), handlers);
      if handlers == [] then (inserted, Ok(NoHandlers(e)))
      else if io.push.PushFailed? then (Fails(inserted, io.push.aborted), Err(Database))
      else (PushJobs(inserted, Zip(ids, handlers)), Ok(Dispatched(e, |handlers|)))
  }

  predicate Accepted(req: Request, handlers: seq<string>, allowNoHandlers: bool) {
    ColumnsFit(req) && (handlers != [] || allowNoHandlers)
  }

  /** What a call of dispatch leaves: a refused request changes no row, any other runs as `Run`. */
  predicate Leaves(tx: Tx, req: Request, handlers: seq<string>, allowNoHandlers: bool,
                   committed: map<DispatchKey, KeyRow>, e: EventId, ids: seq<JobId>, io: Io, tx': Tx, r: Result)
    requires |ids| == |handlers|
  {
    if Accepted(req, handlers, allowNoHandlers) then (tx', r) == Run(tx, req, handlers, committed, e, ids, io)
    else r.Err? && Explains(r.error, req, handlers, allowNoHandlers) && tx' == Fails(tx, false)
  }

  class Transaction {
    var tx: Tx
    /** The concurrency key of each pushed job. */
    var stamps: map<JobId, Option<string>>

    constructor (now: Time)
      ensures tx == EmptyTx(now) && stamps == map[]
    {
      tx, stamps := EmptyTx(now), map[];
    }

    /** The upsert: an insert, or the lock on the row that is there. */
    method Upsert(dk: DispatchKey, e: EventId, eventType: string, committed: map<DispatchKey, KeyRow>)
      returns (event: EventId, inserted: bool)
      modifies this
      ensures tx == ReserveKey(old(tx), committed, dk, e, eventType) && stamps == old(stamps)
      ensures inserted <==> dk !in old(tx).keys && dk !in committed
      ensures event == if dk in old(tx).keys then old(tx).keys[dk]
                       else if dk in committed then committed[dk].event
                       else e
    {
      inserted := false;
      if dk in tx.keys {
        event := tx.keys[dk];
      } else if dk in committed {
        event := committed[dk].event;
      } else {
        event, inserted := e, true;
        tx := tx.(keys := tx.keys[dk := e], phase := Reserved(e, dk, eventType));
      }
      tx := tx.(named := tx.named + [Named(dk, event)]);
    }

    /** `push_batch`: one job per envelope, in order. */
    method PushBatch(event: EventId, batch: seq<(string, Option<string>)>, ids: seq<JobId>)
      requires |ids| == |batch| && tx.phase.Inserted? && tx.phase.event == event
      modifies this
      ensures tx == PushJobs(old(tx), Zip(ids, seq(|batch|, i requires 0 <= i < |batch| => batch[i].0)))
      ensures stamps == old(stamps) + Stamps(ids, batch)
    {
      var handlers := seq(|batch|, i requires 0 <= i < |batch| => batch[i].0);
      var ids' := Zip(ids, handlers);
      tx := tx.(jobs := tx.jobs + (map j | j in ids' :: DeliveryKey(event, ids'[j])), phase := Idle);
      stamps := stamps + Stamps(ids, batch);
    }
  }

  function Stamps(ids: seq<JobId>, batch: seq<(string, Option<string>)>): map<JobId, Option<string>>
    requires |ids| == |batch|
  {
    if ids == [] then map[] else Stamps(ids[1..], batch[1..])[ids[0] := batch[0].1]
  }

  class Outbox {
    const registry: Registry
    const allowNoHandlers: bool

    constructor (registry: Registry, allowNoHandlers: bool)
      ensures this.registry == registry && this.allowNoHandlers == allowNoHandlers
    {
      this.registry, this.allowNoHandlers := registry, allowNoHandlers;
    }

    function Batch(handlers: seq<string>): seq<(string, Option<string>)> {
      seq(|handlers|, i requires 0 <= i < |handlers| => (handlers[i], ConcurrencyKey(registry, handlers[i])))
    }

    /** Steps 1 to 4: everything checked before the first statement. */
    method Validate(req: Request) returns (bad: Option<DispatchError>)
      ensures bad.None? <==> ColumnsFit(req) && (HandlersFor(registry.byType, req.eventType) != [] || allowNoHandlers)
      ensures bad.Some? ==> Explains(bad.value, req, HandlersFor(registry.byType, req.eventType), allowNoHandlers)
      ensures bad.Some? ==> FirstFault(bad.value, req, HandlersFor(registry.byType, req.eventType), allowNoHandlers)
    {
      EmptyText(req.eventType);
      if req.eventType == "" || Utf8.Len(req.eventType) > MAX_EVENT_TYPE_BYTES {
        return Some(EventTypeInvalid(Utf8.Len(req.eventType)));
      }
      if Utf8.Len(req.tenant) > MAX_TENANT_BYTES {
        return Some(TenantIdTooLong(Utf8.Len(req.tenant)));
      }
      if Utf8.Len(req.producerBc) > MAX_BC_BYTES {
        return Some(ProducerBcTooLong(Utf8.Len(req.producerBc)));
      }
      if req.key.Some? {
        EmptyText(req.key.value);
        if req.key.value == "" || Utf8.Len(req.key.value) > MAX_IDEMPOTENCY_KEY_BYTES {
          return Some(IdempotencyKeyInvalid(Utf8.Len(req.key.value)));
        }
      }
      if req.aggregateKey.Some? {
        EmptyText(req.aggregateKey.value);
        if req.aggregateKey.value == "" || Utf8.Len(req.aggregateKey.value) > MAX_AGGREGATE_KEY_BYTES {
          return Some(AggregateKeyInvalid(Utf8.Len(req.aggregateKey.value)));
        }
      }
      if req.payload.None? {
        return Some(Codec);
      }
      if req.payload.value > MAX_PAYLOAD_BYTES {
        return Some(PayloadTooLarge(req.payload.value));
      }
      if HandlersFor(registry.byType, req.eventType) == [] && !allowNoHandlers {
        return Some(NoHandlersRegistered);
      }
      return None;
    }

    /** `dispatch`. A refused request leaves the transaction's rows alone; any other runs as `Run`. */
    method Dispatch(t: Transaction, req: Request, committed: map<DispatchKey, KeyRow>, e: EventId, ids: seq<JobId>,
                    io: Io)
      returns (r: Result)
      requires t.tx.phase.Idle? && |ids| == |HandlersFor(registry.byType, req.eventType)|
      modifies t
      ensures Leaves(old(t.tx), req, HandlersFor(registry.byType, req.eventType), allowNoHandlers, committed, e, ids,
                     io, t.tx, r)
      ensures r.Err? && !Accepted(req, HandlersFor(registry.byType, req.eventType), allowNoHandlers) ==>
              FirstFault(r.error, req, HandlersFor(registry.byType, req.eventType), allowNoHandlers)
      ensures t.stamps == old(t.stamps) +
              if r.Ok? && r.outcome.Dispatched?
              then Stamps(ids, Batch(HandlersFor(registry.byType, req.eventType)))
              else map[]
    {
      var bad := Validate(req);
      if bad.Some? {
        t.tx := Fails(t.tx, false);
        return Err(bad.value);
      }
      if req.key.Some? {
        if t.tx.failed || !io.reserve {
          t.tx := Fails(t.tx, true);
          return Err(Database);
        }
        var event, inserted := t.Upsert(DispatchKey(req.tenant, req.key.value), e, req.eventType, committed);
        if !inserted {
          return Ok(Duplicate(event));
        }
      }
      r := Write(t, req, e, ids, io);
    }

    /** Steps 6 to 9: the headers check, the event with its fan-out, and the jobs. */
    method Write(t: Transaction, req: Request, e: EventId, ids: seq<JobId>, io: Io) returns (r: Result)
      requires |ids| == |HandlersFor(registry.byType, req.eventType)|
      modifies t
      ensures (t.tx, r) == RunWrites(old(t.tx), req, HandlersFor(registry.byType, req.eventType), e, ids, io)
      ensures t.stamps == old(t.stamps) +
              if r.Ok? && r.outcome.Dispatched?
              then Stamps(ids, Batch(HandlersFor(registry.byType, req.eventType)))
              else map[]
    {
      var handlers := HandlersFor(registry.byType, req.eventType);
      if req.headers.None? {
        t.tx := Fails(t.tx, false);
        return Err(Codec);
      }
      if req.headers.value > MAX_HEADERS_BYTES {
        t.tx := Fails(t.tx, false);
        return Err(HeadersTooLarge(req.headers.value));
      }
      if t.tx.failed || !io.insert {
        t.tx := Fails(t.tx, true);
        return Err(Database);
      }
      var ev := Event(req.eventType, req.tenant, t.tx.startedAt);
      if handlers == [] {
        t.tx := InsertEvent(t.tx, e, ev, []);
        return Ok(NoHandlers(e));
      }
      t.tx := InsertEvent(t.tx, e, ev, handlers);
      if io.push.PushFailed? {
        t.tx := Fails(t.tx, io.push.aborted);
        return Err(Database);
      }
      var batch := Batch(handlers);
      assert seq(|batch|, i requires 0 <= i < |batch| => batch[i].0) == handlers;
      t.PushBatch(e, batch, ids);
      return Ok(Dispatched(e, |handlers|));
    }
  }

  lemma {:induction false} EmptyText(s: string)
    ensures Utf8.Len(s) == 0 <==> s == ""
  {
  }

  // ---- what a dispatch means -----------------------------------------------

  lemma {:induction false} ZipSays(ids: seq<JobId>, handlers: seq<string>)
    requires |ids| == |handlers| && Distinct(ids)
    ensures forall j :: j in Zip(ids, handlers) <==> j in ids
    ensures forall i :: 0 <= i < |ids| ==> Zip(ids, handlers)[ids[i]] == handlers[i]
  {
    if ids != [] {
      ZipSays(ids[1..], handlers[1..]);
      forall i | 1 <= i < |ids| ensures Zip(ids, handlers)[ids[i]] == handlers[i] { assert ids[1..][i - 1] == ids[i]; }
    }
  }

  /** A batch with fresh ids numbers exactly one job per handler. */
  lemma {:induction false} BatchIsOneJobEach(ids: seq<JobId>, handlers: seq<string>, drawn: map<JobId, TxId>)
    requires |ids| == |handlers| && Distinct(ids) && Distinct(handlers) && forall j :: j in ids ==> j !in drawn
    ensures OneJobEach(Zip(ids, handlers), handlers, drawn)
  {
    ZipSays(ids, handlers);
    var z := Zip(ids, handlers);
    forall j | j in z ensures z[j] in handlers {
      var i :| 0 <= i < |ids| && ids[i] == j;
      assert z[ids[i]] == handlers[i];
    }
    forall j, j' | j in z && j' in z && j != j' ensures z[j] != z[j'] {
      var i :| 0 <= i < |ids| && ids[i] == j;
      var i' :| 0 <= i' < |ids| && ids[i'] == j';
      assert z[ids[i]] == handlers[i] && z[ids[i']] == handlers[i'];
    }
    forall h | h in handlers ensures exists j :: j in z && z[j] == h {
      var i :| 0 <= i < |handlers| && handlers[i] == h;
      assert z[ids[i]] == h;
    }
  }

  /** A pushed job carries its handler as concurrency key exactly when the handler is limited. */
  lemma {:induction false} StampsFollowLimits(o: Outbox, ids: seq<JobId>, handlers: seq<string>, i: nat)
    requires |ids| == |handlers| && Distinct(ids) && i < |ids|
    ensures ids[i] in Stamps(ids, o.Batch(handlers))
    ensures Stamps(ids, o.Batch(handlers))[ids[i]] ==
            if handlers[i] in ConcurrencyLimits(o.registry) then Some(handlers[i]) else None
  {
    var batch := o.Batch(handlers);
    if i > 0 {
      StampsFollowLimits(o, ids[1..], handlers[1..], i - 1);
      assert o.Batch(handlers[1..]) == batch[1..];
    }
  }

  /** The event a request's (tenant, key) names: what the transaction itself inserted under it or,
      failing that, what is committed under it. The event type plays no part. */
  function Found(tx: Tx, committed: map<DispatchKey, KeyRow>, req: Request): Option<EventId> {
    if req.key.None? then None
    else
      var dk := DispatchKey(req.tenant, req.key.value);
      if dk in tx.keys then Some(tx.keys[dk]) else if dk in committed then Some(committed[dk].event) else None
  }

  /** Every outcome of an accepted request whose statements succeed, and exactly when it occurs: a
      duplicate exactly of the event the key names, otherwise the headers are judged, otherwise the
      new event goes to every handler. */
  lemma OutcomeIs(tx: Tx, req: Request, handlers: seq<string>, allowNoHandlers: bool,
                  committed: map<DispatchKey, KeyRow>, e: EventId, ids: seq<JobId>, tx': Tx, r: Result)
    requires |ids| == |handlers| && !tx.failed && Accepted(req, handlers, allowNoHandlers)
    requires Leaves(tx, req, handlers, allowNoHandlers, committed, e, ids, Io(true, true, Pushed), tx', r)
    ensures var unknown := Found(tx, committed, req).None?;
            var fits := req.headers.Some? && req.headers.value <= 16384;
            && (forall v: EventId :: r == Ok(Duplicate(v)) <==> Found(tx, committed, req) == Some(v))
            && (r == Err(Codec) <==> unknown && req.headers.None?)
            && (forall n: nat :: r == Err(HeadersTooLarge(n)) <==> unknown && req.headers == Some(n) && n > 16384)
            && (forall v: EventId :: r == Ok(NoHandlers(v)) <==> unknown && fits && handlers == [] && v == e)
            && (forall v: EventId, n: nat ::
                  r == Ok(Dispatched(v, n)) <==> unknown && fits && handlers != [] && v == e && n == |handlers|)
  {
  }

  /** What such a request records: the reservation of its (tenant, key) for the event it returns, and
      the key itself only if it named nothing. */
  lemma OutcomeIsRecorded(tx: Tx, req: Request, handlers: seq<string>, allowNoHandlers: bool,
                          committed: map<DispatchKey, KeyRow>, e: EventId, ids: seq<JobId>, io: Io, tx': Tx, r: Result)
    requires |ids| == |handlers| && Leaves(tx, req, handlers, allowNoHandlers, committed, e, ids, io, tx', r)
    requires r.Ok?
    ensures tx'.erred == tx.erred && tx'.failed == tx.failed
    ensures req.key.None? ==> tx'.named == tx.named
    ensures req.key.Some? ==>
            tx'.named == tx.named + [Named(DispatchKey(req.tenant, req.key.value), r.outcome.event)]
    ensures tx'.keys ==
            if req.key.None? || Found(tx, committed, req).Some? then tx.keys
            else tx.keys[DispatchKey(req.tenant, req.key.value) := e]
  {
    var reserved := if req.key.Some? then ReserveKey(tx, committed, KeyOf(req), e, req.eventType) else tx;
    WritesKeepKeys(reserved, req, handlers, e, ids, io);
  }

  lemma WritesKeepKeys(tx: Tx, req: Request, handlers: seq<string>, e: EventId, ids: seq<JobId>, io: Io)
    requires |ids| == |handlers|
    ensures var (tx', r) := RunWrites(tx, req, handlers, e, ids, io);
            tx'.keys == tx.keys && tx'.named == tx.named
            && (r.Ok? ==> r.outcome.event == e && !r.outcome.Duplicate? && tx'.erred == tx.erred
                          && tx'.failed == tx.failed)
  {
  }

  /** Two keyed requests of one transaction return the same event exactly when tenant and key agree,
      whatever their event types; then the second is a duplicate. What the key names in the table
      cannot change between them, since the first locks it, and no other key names the same event. */
  lemma SameRequestSameEventIff(tx: Tx, tx1: Tx, tx2: Tx, q1: Request, q2: Request, hs1: seq<string>, hs2: seq<string>,
                                allow: bool, c1: map<DispatchKey, KeyRow>, c2: map<DispatchKey, KeyRow>, e1: EventId,
                                e2: EventId, ids1: seq<JobId>, ids2: seq<JobId>, io1: Io, io2: Io, r1: Result,
                                r2: Result)
    requires |ids1| == |hs1| && Leaves(tx, q1, hs1, allow, c1, e1, ids1, io1, tx1, r1) && r1.Ok? && q1.key.Some?
    requires |ids2| == |hs2| && Leaves(tx1, q2, hs2, allow, c2, e2, ids2, io2, tx2, r2) && r2.Ok? && q2.key.Some?
    requires var dk := DispatchKey(q1.tenant, q1.key.value);
             && (dk in c1 <==> dk in c2) && (dk in c1 ==> c1[dk].event == c2[dk].event)
             && (forall d :: d in tx1.keys && tx1.keys[d] == r1.outcome.event ==> d == dk)
             && (forall d :: d in c2 && c2[d].event == r1.outcome.event ==> d == dk)
    requires e2 != r1.outcome.event
    ensures r2.outcome.event == r1.outcome.event <==> q1.tenant == q2.tenant && q1.key == q2.key
    ensures q1.tenant == q2.tenant && q1.key == q2.key ==> r2 == Ok(Duplicate(r1.outcome.event))
  {
  }

  /** The log holds, at position `i`, the committed reservation of a keyed request that returned `o`. */
  predicate CommittedAt(log: seq<KeyEvent>, i: nat, req: Request, o: DispatchOutcome) {
    i < |log| && req.key.Some? && log[i] == Named(DispatchKey(req.tenant, req.key.value), o.event)
  }

  /** Over every run: two committed keyed requests returned the same event exactly when tenant and
      key agree and no purge removed the key between them, whatever their event types. */
  lemma RequestsShareEventIff(states: seq<System>, steps: seq<Step>, i: nat, a: nat, b: nat, q1: Request,
                              q2: Request, o1: DispatchOutcome, o2: DispatchOutcome)
    requires IsRun(states, steps) && i < |states| && a < b
    requires CommittedAt(states[i].keyLog, a, q1, o1) && CommittedAt(states[i].keyLog, b, q2, o2)
    ensures o1.event == o2.event <==>
            && q1.tenant == q2.tenant && q1.key == q2.key
            && forall p :: a < p < b ==> states[i].keyLog[p] != Purged(DispatchKey(q1.tenant, q1.key.value))
  {
    Idempotency.SameKeySameEventIff(states, steps, i, a, b);
    var log, dk := states[i].keyLog, DispatchKey(q1.tenant, q1.key.value);
    if p :| a < p < b && log[p] == Purged(dk) {
      assert Idempotency.PurgedBetween(log, dk, a, b);
    }
  }

  /** A duplicate writes no event, delivery or job; it only locks the key. */
  lemma DuplicateOnlyLocks(tx: Tx, req: Request, handlers: seq<string>, committed: map<DispatchKey, KeyRow>, e: EventId,
                           ids: seq<JobId>, io: Io)
    requires |ids| == |handlers|
    ensures var (tx', r) := Run(tx, req, handlers, committed, e, ids, io);
            r.Ok? && r.outcome.Duplicate? ==>
              && tx' == tx.(named := tx.named + [Named(KeyOf(req), r.outcome.event)])
              && Locks(tx', KeyOf(req))
  {
    var (tx', r) := Run(tx, req, handlers, committed, e, ids, io);
    if r.Ok? && r.outcome.Duplicate? {
      assert tx'.named[|tx.named|].key == KeyOf(req);
    }
  }

  /** A new event brings itself, one delivery per handler and one job per delivery. */
  lemma DispatchedGains(tx: Tx, req: Request, handlers: seq<string>, committed: map<DispatchKey, KeyRow>, e: EventId,
                        ids: seq<JobId>, io: Io)
    requires |ids| == |handlers| && Distinct(ids) && Distinct(handlers)
    requires (forall j :: j in ids ==> j !in tx.jobs) && (forall k :: k in tx.deliveries ==> k.event != e)
    requires var r := Run(tx, req, handlers, committed, e, ids, io).1; r.Ok? && !r.outcome.Duplicate?
    ensures var tx' := Run(tx, req, handlers, committed, e, ids, io).0;
            && tx'.events == tx.events[e := Event(req.eventType, req.tenant, tx.startedAt)]
            && tx'.deliveries - tx.deliveries == (set h | h in handlers :: DeliveryKey(e, h))
            && tx.deliveries <= tx'.deliveries
            && (forall j :: j in tx'.jobs <==> j in tx.jobs || j in ids)
            && (forall i :: 0 <= i < |ids| ==> tx'.jobs[ids[i]] == DeliveryKey(e, handlers[i]))
            && (forall j :: j in tx.jobs ==> tx'.jobs[j] == tx.jobs[j])
  {
    ZipSays(ids, handlers);
    var reserved := if req.key.Some? then ReserveKey(tx, committed, KeyOf(req), e, req.eventType) else tx;
    assert reserved.events == tx.events && reserved.deliveries == tx.deliveries && reserved.jobs == tx.jobs;
    WritesGain(reserved, req, handlers, e, ids, io);
  }

  lemma {:induction false} WritesGain(tx: Tx, req: Request, handlers: seq<string>, e: EventId, ids: seq<JobId>, io: Io)
    requires |ids| == |handlers| && RunWrites(tx, req, handlers, e, ids, io).1.Ok?
    ensures var tx' := RunWrites(tx, req, handlers, e, ids, io).0;
            && tx'.events == tx.events[e := Event(req.eventType, req.tenant, tx.startedAt)]
            && tx'.deliveries == tx.deliveries + (set h | h in handlers :: DeliveryKey(e, h))
            && var z := Zip(ids, handlers); tx'.jobs == tx.jobs + (map j | j in z :: DeliveryKey(e, z[j]))
  {
  }

  lemma BadHeadersHoldTheKey(tx: Tx, req: Request, handlers: seq<string>, db: Tables, e: EventId, ids: seq<JobId>,
                             io: Io)
    requires |ids| == |handlers| && Commits(db, tx) && e !in db.events && e !in tx.events
    requires var r := Run(tx, req, handlers, db.keys, e, ids, io).1;
             r.Err? && (r.error.HeadersTooLarge? || r.error.Codec?)
    ensures var tx' := Run(tx, req, handlers, db.keys, e, ids, io).0;
            && (Commits(db, tx') <==> req.key.None?)
            && tx'.events == tx.events && tx'.deliveries == tx.deliveries && tx'.jobs == tx.jobs
  {
    var tx' := Run(tx, req, handlers, db.keys, e, ids, io).0;
    if req.key.Some? {
      assert tx'.keys[KeyOf(req)] == e;
    } else {
      assert tx' == Fails(tx, false);
    }
  }

  /** The call gets as far as its push. */
  predicate ReachesPush(tx: Tx, req: Request, handlers: seq<string>, committed: map<DispatchKey, KeyRow>, io: Io) {
    && !tx.failed && handlers != [] && io.insert
    && req.headers.Some? && req.headers.value <= MAX_HEADERS_BYTES
    && (req.key.Some? ==> io.reserve && KeyOf(req) !in tx.keys && KeyOf(req) !in committed)
  }

  /** A database error aborts the transaction, unless it is a push that failed before its
      statement; then all of the fan-out is there. */
  lemma DatabaseErr(tx: Tx, req: Request, handlers: seq<string>, db: Tables, e: EventId, ids: seq<JobId>, io: Io)
    requires |ids| == |handlers| && Commits(db, tx) && e !in tx.events
    requires forall dk :: dk in tx.keys ==> tx.keys[dk] != e
    requires forall k :: k in tx.deliveries ==> k.event != e
    requires Run(tx, req, handlers, db.keys, e, ids, io).1 == Err(Database)
    ensures var tx' := Run(tx, req, handlers, db.keys, e, ids, io).0;
            && (Commits(db, tx') <==> ReachesPush(tx, req, handlers, db.keys, io) && io.push == PushFailed(false))
            && (Commits(db, tx') ==> tx'.deliveries != tx.deliveries)
            && tx'.jobs == tx.jobs
  {
    var reserved := if req.key.Some? then ReserveKey(tx, db.keys, KeyOf(req), e, req.eventType) else tx;
    var inserted := InsertEvent(reserved, e, Event(req.eventType, req.tenant, tx.startedAt), handlers);
    var tx' := Run(tx, req, handlers, db.keys, e, ids, io).0;
    if ReachesPush(tx, req, handlers, db.keys, io) {
      assert tx' == Fails(inserted, io.push.aborted);
      assert DeliveryKey(e, handlers[0]) in tx'.deliveries;
    } else {
      assert tx' == Fails(tx, true) || tx' == Fails(reserved, true);
    }
  }

  /** What the caller can still commit after an Err. Nothing dangles: if the error came after a
      fresh key was reserved but before the event was written, the deferred foreign key refuses
      the commit, and after a database error Postgres does. Deliveries without jobs can be committed
      exactly when the call reached its push and the push failed without aborting the transaction. */
  lemma CommitAfterErr(tx: Tx, req: Request, handlers: seq<string>, db: Tables, e: EventId, ids: seq<JobId>, io: Io)
    requires |ids| == |handlers| && Commits(db, tx) && tx.phase.Idle? && e !in db.events && e !in tx.events
    requires forall dk :: dk in tx.keys ==> tx.keys[dk] != e
    requires forall k :: k in tx.deliveries ==> k.event != e
    requires Run(tx, req, handlers, db.keys, e, ids, io).1.Err?
    ensures var (tx', r) := Run(tx, req, handlers, db.keys, e, ids, io);
            && (Commits(db, tx') <==>
                  if r.error.Database? then ReachesPush(tx, req, handlers, db.keys, io) && io.push == PushFailed(false)
                  else req.key.None?)
            && (Commits(db, tx') && tx'.deliveries != tx.deliveries
                <==> ReachesPush(tx, req, handlers, db.keys, io) && io.push == PushFailed(false))
            && tx'.jobs == tx.jobs
  {
    var (tx', r) := Run(tx, req, handlers, db.keys, e, ids, io);
    if r.error.HeadersTooLarge? || r.error.Codec? {
      BadHeadersHoldTheKey(tx, req, handlers, db, e, ids, io);
    } else {
      DatabaseErr(tx, req, handlers, db, e, ids, io);
    }
  }

  // ---- the steps of a dispatch ---------------------------------------------

  /** The step that an error of dispatch is: a failed statement, or an Err without one. */
  function ErrStep(x: TxId, aborted: bool): Step {
    if aborted then StatementFails(x) else DispatchErr(x)
  }

  function LastStep(x: TxId, handlers: seq<string>, ids: seq<JobId>, push: PushRun): Step
    requires |ids| == |handlers|
  {
    if push.PushFailed? then ErrStep(x, push.aborted) else Push(x, Zip(ids, handlers))
  }

  function WriteSteps(tx: Tx, req: Request, handlers: seq<string>, x: TxId, e: EventId, ids: seq<JobId>,
                      io: Io): seq<Step>
    requires |ids| == |handlers|
  {
    if req.headers.None? || req.headers.value > MAX_HEADERS_BYTES then [ErrStep(x, false)]
    else if tx.failed || !io.insert then [ErrStep(x, true)]
    else
      [Insert(x, e, req.eventType, req.tenant)] + if handlers == [] then [] else [LastStep(x, handlers, ids, io.push)]
  }

  /** The steps of the interleaved system that a call of dispatch takes, for every request and
      every way its statements can go. */
  function StepsOf(tx: Tx, req: Request, handlers: seq<string>, allowNoHandlers: bool,
                   committed: map<DispatchKey, KeyRow>, x: TxId, e: EventId, ids: seq<JobId>, io: Io): seq<Step>
    requires |ids| == |handlers|
  {
    if !Accepted(req, handlers, allowNoHandlers) then [ErrStep(x, false)]
    else if req.key.None? then WriteSteps(tx, req, handlers, x, e, ids, io)
    else if tx.failed || !io.reserve then [ErrStep(x, true)]
    else
      var tx1 := ReserveKey(tx, committed, KeyOf(req), e, req.eventType);
      [Reserve(x, KeyOf(req), e, req.eventType)]
      + if KeyOf(req) in tx.keys || KeyOf(req) in committed then [] else WriteSteps(tx1, req, handlers, x, e, ids, io)
  }

  /** Transaction `x` goes from `tx` to `tx'` by taking each of the steps in its own state. */
  ghost predicate Takes(ss: seq<System>, steps: seq<Step>, x: TxId, tx: Tx, tx': Tx)
    decreases |steps|
  {
    && |ss| == |steps|
    && if steps == [] then tx' == tx
       else
         && x in ss[0].txs && ss[0].txs[x] == tx && Enabled(ss[0], steps[0]) && x in TxsAfter(ss[0], steps[0])
         && Takes(ss[1..], steps[1..], x, TxsAfter(ss[0], steps[0])[x], tx')
  }

  /** The transaction is `tx` in the first state and in each later one what the step before made
      of it. Anything else may have changed between the states. */
  ghost predicate Undisturbed(ss: seq<System>, steps: seq<Step>, x: TxId, tx: Tx)
    decreases |steps|
  {
    && |ss| == |steps|
    && (steps != [] ==>
          && x in ss[0].txs && ss[0].txs[x] == tx
          && (Enabled(ss[0], steps[0]) && x in TxsAfter(ss[0], steps[0]) ==>
                Undisturbed(ss[1..], steps[1..], x, TxsAfter(ss[0], steps[0])[x])))
  }

  /** What every reachable state of a system with configuration `cfg` offers, and fresh job ids. */
  ghost predicate Prepared(s: System, cfg: Cfg, ids: seq<JobId>) {
    s.cfg == cfg && Invariants.Ownership(s) && Invariants.Configured(s) && forall j :: j in ids ==> j !in s.jobMinted
  }

  lemma {:induction false} OneStep(ss: seq<System>, st: Step, x: TxId, tx: Tx, tx': Tx)
    requires |ss| == 1 && x in ss[0].txs && ss[0].txs[x] == tx && Enabled(ss[0], st)
    requires x in TxsAfter(ss[0], st) && TxsAfter(ss[0], st)[x] == tx'
    ensures Takes(ss, [st], x, tx, tx')
  {
    assert Takes(ss[1..], [st][1..], x, tx', tx');
  }

  lemma {:induction false} FirstStep(ss: seq<System>, st: Step, rest: seq<Step>, x: TxId, tx: Tx, tx1: Tx, tx': Tx)
    requires |ss| == 1 + |rest| && x in ss[0].txs && ss[0].txs[x] == tx && Enabled(ss[0], st)
    requires x in TxsAfter(ss[0], st) && TxsAfter(ss[0], st)[x] == tx1 && Takes(ss[1..], rest, x, tx1, tx')
    ensures Takes(ss, [st] + rest, x, tx, tx')
  {
    assert ([st] + rest)[1..] == rest;
  }

  lemma {:induction false} StillUndisturbed(ss: seq<System>, st: Step, rest: seq<Step>, x: TxId, tx: Tx, tx1: Tx)
    requires Undisturbed(ss, [st] + rest, x, tx) && Enabled(ss[0], st)
    requires x in TxsAfter(ss[0], st) && TxsAfter(ss[0], st)[x] == tx1
    ensures |ss| == 1 + |rest| && Undisturbed(ss[1..], rest, x, tx1)
  {
    assert ([st] + rest)[1..] == rest;
  }

  lemma {:induction false} ErrIsStep(ss: seq<System>, x: TxId, tx: Tx, aborted: bool)
    requires |ss| == 1 && x in ss[0].txs && ss[0].txs[x] == tx
    ensures Takes(ss, [ErrStep(x, aborted)], x, tx, Fails(tx, aborted))
  {
    OneStep(ss, ErrStep(x, aborted), x, tx, Fails(tx, aborted));
  }

  lemma ReserveStep(s: System, x: TxId, dk: DispatchKey, e: EventId, eventType: string)
    requires x in s.txs && s.txs[x].phase.Idle? && !s.txs[x].failed && e !in s.minted
    requires HandlersFor(s.cfg.handlersFor, eventType) != [] || s.cfg.allowNoHandlers
    requires forall y :: y in s.txs && y != x ==> !Locks(s.txs[y], dk)
    ensures var st := Reserve(x, dk, e, eventType);
            && Enabled(s, st) && x in TxsAfter(s, st)
            && TxsAfter(s, st)[x] == ReserveKey(s.txs[x], s.db.keys, dk, e, eventType)
  {
  }

  lemma InsertStep(s: System, x: TxId, e: EventId, eventType: string, tenant: string)
    requires Invariants.Ownership(s) && Invariants.Configured(s) && x in s.txs && !s.txs[x].failed
    requires HandlersFor(s.cfg.handlersFor, eventType) != [] || s.cfg.allowNoHandlers
    requires var p := s.txs[x].phase;
             || (p.Idle? && e !in s.minted)
             || (p.Reserved? && p.event == e && p.eventType == eventType && p.key.tenant == tenant)
    ensures var st := Insert(x, e, eventType, tenant); var tx := s.txs[x];
            && Enabled(s, st) && x in TxsAfter(s, st)
            && TxsAfter(s, st)[x] ==
               InsertEvent(tx, e, Event(eventType, tenant, tx.startedAt), HandlersFor(s.cfg.handlersFor, eventType))
  {
    Fanout.FanOutNeverCollides(s, x, e, eventType);
  }

  lemma {:induction false} PushStep(s: System, x: TxId, e: EventId, handlers: seq<string>, ids: seq<JobId>)
    requires x in s.txs && !s.txs[x].failed && s.txs[x].phase == Inserted(e, handlers)
    requires |ids| == |handlers| && Distinct(ids) && Distinct(handlers) && forall j :: j in ids ==> j !in s.jobMinted
    ensures var st := Push(x, Zip(ids, handlers));
            Enabled(s, st) && x in TxsAfter(s, st) && TxsAfter(s, st)[x] == PushJobs(s.txs[x], Zip(ids, handlers))
  {
    BatchIsOneJobEach(ids, handlers, s.jobMinted);
  }

  /** The last statement: the push, or its failure. */
  lemma {:induction false} PushRefines(ss: seq<System>, cfg: Cfg, x: TxId, tx: Tx, e: EventId, handlers: seq<string>,
                                       ids: seq<JobId>, push: PushRun)
    requires |ss| == 1 && x in ss[0].txs && ss[0].txs[x] == tx && Prepared(ss[0], cfg, ids)
    requires !tx.failed && tx.phase == Inserted(e, handlers) && |ids| == |handlers| && Distinct(ids)
    requires Distinct(handlers)
    ensures Takes(ss, [LastStep(x, handlers, ids, push)], x, tx,
                  if push.PushFailed? then Fails(tx, push.aborted) else PushJobs(tx, Zip(ids, handlers)))
  {
    if push.PushFailed? {
      ErrIsStep(ss, x, tx, push.aborted);
    } else {
      PushStep(ss[0], x, e, handlers, ids);
      OneStep(ss, Push(x, Zip(ids, handlers)), x, tx, PushJobs(tx, Zip(ids, handlers)));
    }
  }

  /** Where the writes of a dispatch start: without a key, or with its key freshly reserved. */
  predicate AtWrites(tx: Tx, req: Request, e: EventId, minted: map<EventId, TxId>) {
    if req.key.None? then tx.phase.Idle? && e !in minted
    else tx.phase == Reserved(e, KeyOf(req), req.eventType)
  }

  lemma {:induction false} WritesRefine(ss: seq<System>, cfg: Cfg, x: TxId, tx: Tx, req: Request, e: EventId,
                                        ids: seq<JobId>, io: Io)
    requires var hs := HandlersFor(cfg.handlersFor, req.eventType);
             && |ids| == |hs| && Distinct(ids) && (hs != [] || cfg.allowNoHandlers)
             && Undisturbed(ss, WriteSteps(tx, req, hs, x, e, ids, io), x, tx)
    requires forall i :: 0 <= i < |ss| ==> Prepared(ss[i], cfg, ids)
    requires |ss| > 0 ==> AtWrites(tx, req, e, ss[0].minted)
    ensures var hs := HandlersFor(cfg.handlersFor, req.eventType);
            Takes(ss, WriteSteps(tx, req, hs, x, e, ids, io), x, tx, RunWrites(tx, req, hs, e, ids, io).0)
  {
    var hs := HandlersFor(cfg.handlersFor, req.eventType);
    if req.headers.None? || req.headers.value > MAX_HEADERS_BYTES {
      ErrIsStep(ss, x, tx, false);
    } else if tx.failed || !io.insert {
      ErrIsStep(ss, x, tx, true);
    } else {
      InsertRefines(ss, cfg, x, tx, req, e, ids, io);
    }
  }

  lemma {:induction false} InsertRefines(ss: seq<System>, cfg: Cfg, x: TxId, tx: Tx, req: Request, e: EventId,
                                         ids: seq<JobId>, io: Io)
    requires var hs := HandlersFor(cfg.handlersFor, req.eventType);
             && |ids| == |hs| && Distinct(ids) && (hs != [] || cfg.allowNoHandlers)
             && Undisturbed(ss, WriteSteps(tx, req, hs, x, e, ids, io), x, tx)
    requires forall i :: 0 <= i < |ss| ==> Prepared(ss[i], cfg, ids)
    requires |ss| > 0 ==> AtWrites(tx, req, e, ss[0].minted)
    requires req.headers.Some? && req.headers.value <= MAX_HEADERS_BYTES && !tx.failed && io.insert
    ensures var hs := HandlersFor(cfg.handlersFor, req.eventType);
            Takes(ss, WriteSteps(tx, req, hs, x, e, ids, io), x, tx, RunWrites(tx, req, hs, e, ids, io).0)
  {
    var hs := HandlersFor(cfg.handlersFor, req.eventType);
    var insert := Insert(x, e, req.eventType, req.tenant);
    var tx1 := InsertEvent(tx, e, Event(req.eventType, req.tenant, tx.startedAt), hs);
    var rest := if hs == [] then [] else [LastStep(x, hs, ids, io.push)];
    assert Prepared(ss[0], cfg, ids);
    InsertStep(ss[0], x, e, req.eventType, req.tenant);
    if hs == [] {
      assert [insert] + rest == [insert];
      OneStep(ss, insert, x, tx, tx1);
    } else {
      StillUndisturbed(ss, insert, rest, x, tx, tx1);
      assert Prepared(ss[1], cfg, ids) && Distinct(hs);
      PushRefines(ss[1..], cfg, x, tx1, e, hs, ids, io.push);
      FirstStep(ss, insert, rest, x, tx, tx1, RunWrites(tx, req, hs, e, ids, io).0);
    }
  }

  lemma {:induction false} ReserveRefines(ss: seq<System>, cfg: Cfg, x: TxId, tx: Tx, req: Request, e: EventId,
                                          ids: seq<JobId>, io: Io)
    requires var hs := HandlersFor(cfg.handlersFor, req.eventType);
             && |ids| == |hs| && Distinct(ids) && Accepted(req, hs, cfg.allowNoHandlers) && |ss| > 0
             && Undisturbed(ss, StepsOf(tx, req, hs, cfg.allowNoHandlers, ss[0].db.keys, x, e, ids, io), x, tx)
    requires tx.phase.Idle? && e !in ss[0].minted && req.key.Some? && !tx.failed && io.reserve
    requires forall y :: y in ss[0].txs && y != x ==> !Locks(ss[0].txs[y], KeyOf(req))
    requires forall i :: 0 <= i < |ss| ==> Prepared(ss[i], cfg, ids)
    ensures var hs := HandlersFor(cfg.handlersFor, req.eventType); var committed := ss[0].db.keys;
            Takes(ss, StepsOf(tx, req, hs, cfg.allowNoHandlers, committed, x, e, ids, io), x, tx,
                  Run(tx, req, hs, committed, e, ids, io).0)
  {
    var hs, committed, dk := HandlersFor(cfg.handlersFor, req.eventType), ss[0].db.keys, KeyOf(req);
    var reserve := Reserve(x, dk, e, req.eventType);
    var tx1 := ReserveKey(tx, committed, dk, e, req.eventType);
    assert Prepared(ss[0], cfg, ids);
    ReserveStep(ss[0], x, dk, e, req.eventType);
    if dk in tx.keys || dk in committed {
      assert [reserve] + [] == [reserve];
      OneStep(ss, reserve, x, tx, tx1);
    } else {
      StepsFromReserve(tx, req, hs, cfg.allowNoHandlers, committed, x, e, ids, io);
      FreshKeyRefines(ss, cfg, x, tx, tx1, req, e, ids, io);
    }
  }

  lemma {:induction false} FreshKeyRefines(ss: seq<System>, cfg: Cfg, x: TxId, tx: Tx, tx1: Tx, req: Request,
                                           e: EventId, ids: seq<JobId>, io: Io)
    requires var hs := HandlersFor(cfg.handlersFor, req.eventType);
             && req.key.Some? && |ids| == |hs| && Distinct(ids) && (hs != [] || cfg.allowNoHandlers)
             && Undisturbed(ss, [Reserve(x, KeyOf(req), e, req.eventType)] + WriteSteps(tx1, req, hs, x, e, ids, io),
                            x, tx)
    requires tx1.phase == Reserved(e, KeyOf(req), req.eventType)
    requires forall i :: 0 <= i < |ss| ==> Prepared(ss[i], cfg, ids)
    requires var st := Reserve(x, KeyOf(req), e, req.eventType);
             Enabled(ss[0], st) && x in TxsAfter(ss[0], st) && TxsAfter(ss[0], st)[x] == tx1
    ensures var hs := HandlersFor(cfg.handlersFor, req.eventType);
            Takes(ss, [Reserve(x, KeyOf(req), e, req.eventType)] + WriteSteps(tx1, req, hs, x, e, ids, io), x, tx,
                  RunWrites(tx1, req, hs, e, ids, io).0)
  {
    var hs := HandlersFor(cfg.handlersFor, req.eventType);
    var reserve, rest := Reserve(x, KeyOf(req), e, req.eventType), WriteSteps(tx1, req, hs, x, e, ids, io);
    StillUndisturbed(ss, reserve, rest, x, tx, tx1);
    WritesRefine(ss[1..], cfg, x, tx1, req, e, ids, io);
    FirstStep(ss, reserve, rest, x, tx, tx1, RunWrites(tx1, req, hs, e, ids, io).0);
  }

  lemma StepsFromReserve(tx: Tx, req: Request, handlers: seq<string>, allowNoHandlers: bool,
                         committed: map<DispatchKey, KeyRow>, x: TxId, e: EventId, ids: seq<JobId>, io: Io)
    requires |ids| == |handlers| && Accepted(req, handlers, allowNoHandlers) && req.key.Some? && !tx.failed
            && io.reserve
    requires KeyOf(req) !in tx.keys && KeyOf(req) !in committed
    ensures var tx1 := ReserveKey(tx, committed, KeyOf(req), e, req.eventType);
            && StepsOf(tx, req, handlers, allowNoHandlers, committed, x, e, ids, io) ==
               [Reserve(x, KeyOf(req), e, req.eventType)] + WriteSteps(tx1, req, handlers, x, e, ids, io)
            && Run(tx, req, handlers, committed, e, ids, io) == RunWrites(tx1, req, handlers, e, ids, io)
            && tx1.phase == Reserved(e, KeyOf(req), req.eventType)
  {
  }

  /** Every call of dispatch, accepted or refused, keyed or not, fresh or duplicate, with handlers or
      without, and however its statements go, takes the steps of `StepsOf`, one per statement. The
      states `ss` in which they run may differ by anything other transactions and workers do. */
  lemma {:induction false} DispatchRefinesSteps(ss: seq<System>, cfg: Cfg, x: TxId, tx: Tx, req: Request, e: EventId,
                                                ids: seq<JobId>, io: Io, tx': Tx, r: Result)
    requires var hs := HandlersFor(cfg.handlersFor, req.eventType);
             && |ids| == |hs| && Distinct(ids) && |ss| > 0
             && Undisturbed(ss, StepsOf(tx, req, hs, cfg.allowNoHandlers, ss[0].db.keys, x, e, ids, io), x, tx)
             && Leaves(tx, req, hs, cfg.allowNoHandlers, ss[0].db.keys, e, ids, io, tx', r)
    requires tx.phase.Idle? && e !in ss[0].minted && forall i :: 0 <= i < |ss| ==> Prepared(ss[i], cfg, ids)
    requires req.key.Some? && io.reserve ==> forall y :: y in ss[0].txs && y != x ==> !Locks(ss[0].txs[y], KeyOf(req))
    ensures var hs := HandlersFor(cfg.handlersFor, req.eventType);
            var steps := StepsOf(tx, req, hs, cfg.allowNoHandlers, ss[0].db.keys, x, e, ids, io);
            && Takes(ss, steps, x, tx, tx')
            && |steps| > 0 && (r.Err? <==> EndsInErr(steps, x))
  {
    var hs := HandlersFor(cfg.handlersFor, req.eventType);
    ErrEndsInErrStep(tx, req, hs, cfg.allowNoHandlers, ss[0].db.keys, x, e, ids, io, tx', r);
    if Accepted(req, hs, cfg.allowNoHandlers) {
      AcceptedRefines(ss, cfg, x, tx, req, e, ids, io);
    } else {
      RefusedRefines(ss, cfg, x, tx, req, e, ids, io);
    }
  }

  lemma {:induction false} RefusedRefines(ss: seq<System>, cfg: Cfg, x: TxId, tx: Tx, req: Request, e: EventId,
                                          ids: seq<JobId>, io: Io)
    requires var hs := HandlersFor(cfg.handlersFor, req.eventType);
             && |ids| == |hs| && !Accepted(req, hs, cfg.allowNoHandlers) && |ss| > 0
             && Undisturbed(ss, StepsOf(tx, req, hs, cfg.allowNoHandlers, ss[0].db.keys, x, e, ids, io), x, tx)
    ensures var hs := HandlersFor(cfg.handlersFor, req.eventType);
            Takes(ss, StepsOf(tx, req, hs, cfg.allowNoHandlers, ss[0].db.keys, x, e, ids, io), x, tx, Fails(tx, false))
  {
    ErrIsStep(ss, x, tx, false);
  }

  lemma {:induction false} AcceptedRefines(ss: seq<System>, cfg: Cfg, x: TxId, tx: Tx, req: Request, e: EventId,
                                           ids: seq<JobId>, io: Io)
    requires var hs := HandlersFor(cfg.handlersFor, req.eventType);
             && |ids| == |hs| && Distinct(ids) && Accepted(req, hs, cfg.allowNoHandlers) && |ss| > 0
             && Undisturbed(ss, StepsOf(tx, req, hs, cfg.allowNoHandlers, ss[0].db.keys, x, e, ids, io), x, tx)
    requires tx.phase.Idle? && e !in ss[0].minted && forall i :: 0 <= i < |ss| ==> Prepared(ss[i], cfg, ids)
    requires req.key.Some? && io.reserve ==> forall y :: y in ss[0].txs && y != x ==> !Locks(ss[0].txs[y], KeyOf(req))
    ensures var hs := HandlersFor(cfg.handlersFor, req.eventType); var committed := ss[0].db.keys;
            Takes(ss, StepsOf(tx, req, hs, cfg.allowNoHandlers, committed, x, e, ids, io), x, tx,
                  Run(tx, req, hs, committed, e, ids, io).0)
  {
    if req.key.None? {
      WritesRefine(ss, cfg, x, tx, req, e, ids, io);
    } else if tx.failed || !io.reserve {
      ErrIsStep(ss, x, tx, true);
    } else {
      ReserveRefines(ss, cfg, x, tx, req, e, ids, io);
    }
  }

  predicate EndsInErr(steps: seq<Step>, x: TxId) {
    |steps| > 0 && (steps[|steps| - 1] == StatementFails(x) || steps[|steps| - 1] == DispatchErr(x))
  }

  lemma WritesEndInErrIff(tx: Tx, req: Request, handlers: seq<string>, x: TxId, e: EventId, ids: seq<JobId>, io: Io)
    requires |ids| == |handlers|
    ensures var steps := WriteSteps(tx, req, handlers, x, e, ids, io);
            |steps| > 0 && (RunWrites(tx, req, handlers, e, ids, io).1.Err? <==> EndsInErr(steps, x))
  {
  }

  lemma ErrEndsInErrStep(tx: Tx, req: Request, handlers: seq<string>, allowNoHandlers: bool,
                         committed: map<DispatchKey, KeyRow>, x: TxId, e: EventId, ids: seq<JobId>, io: Io, tx': Tx,
                         r: Result)
    requires |ids| == |handlers| && Leaves(tx, req, handlers, allowNoHandlers, committed, e, ids, io, tx', r)
    ensures var steps := StepsOf(tx, req, handlers, allowNoHandlers, committed, x, e, ids, io);
            |steps| > 0 && (r.Err? <==> EndsInErr(steps, x))
  {
    if Accepted(req, handlers, allowNoHandlers) && req.key.None? {
      WritesEndInErrIff(tx, req, handlers, x, e, ids, io);
    } else if Accepted(req, handlers, allowNoHandlers) && !tx.failed && io.reserve {
      var tx1 := ReserveKey(tx, committed, KeyOf(req), e, req.eventType);
      WritesEndInErrIff(tx1, req, handlers, x, e, ids, io);
    }
  }
}
