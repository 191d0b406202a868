/** The three purge functions of `src/purge.rs`, each running alone: loops that delete chunk
    after chunk, oldest rows first, until a chunk comes up short. */
module PurgeLoops {
  import opened Schema
  import opened World

  const PURGE_CHUNK_SIZE: nat := 10_000

  // ---- what one statement deletes ------------------------------------------

  /** `SELECT … ORDER BY age LIMIT n` over candidates with the given ages: as many as there
      are, at most `n`, and none left out is older than one taken. Ties fall either way. */
  predicate IsChunk<K(==)>(ages: map<K, Time>, n: nat, chunk: set<K>) {
    && chunk <= ages.Keys
    && |chunk| == (if |ages| < n then |ages| else n)
    && forall a, b :: a in chunk && b in ages.Keys - chunk ==> ages[a] <= ages[b]
  }

  lemma {:induction false} Oldest<K>(ages: map<K, Time>, among: set<K>) returns (k: K)
    requires among <= ages.Keys && among != {}
    ensures k in among && forall b :: b in among ==> ages[k] <= ages[b]
  {
    k :| k in among;
    if among != {k} {
      var o := Oldest(ages, among - {k});
      if ages[o] < ages[k] { k := o; }
    }
  }

  /** Some chunk always exists. */
  lemma {:induction false} ChunkExists<K>(ages: map<K, Time>, n: nat) returns (chunk: set<K>)
    ensures IsChunk(ages, n, chunk)
  {
    if n == 0 {
      chunk := {};
    } else {
      var less := ChunkExists(ages, n - 1);
      if less == ages.Keys {
        chunk := less;
      } else {
        Smaller(less, ages.Keys);
        var w :| w in ages.Keys && w !in less;
        assert w in ages.Keys - less;
        var o := Oldest(ages, ages.Keys - less);
        chunk := less + {o};
      }
    }
  }

  lemma Smaller<K>(a: set<K>, b: set<K>)
    requires a <= b
    ensures |a| <= |b| && (|a| == |b| ==> a == b)
  {
    assert b == a + (b - a);
    assert |b| == |a| + |b - a|;
  }

  /** A short chunk is everything there is. */
  lemma ShortChunkIsAll<K>(ages: map<K, Time>, n: nat, chunk: set<K>)
    requires IsChunk(ages, n, chunk) && |chunk| < n
    ensures chunk == ages.Keys
  {
    assert |ages.Keys| == |ages|;
    Smaller(chunk, ages.Keys);
  }

  // ---- the one-shot deletes ------------------------------------------------

  /** Terminal deliveries that finished before the cutoff, with their finishing times. */
  function OldDeliveries(db: Tables, cutoff: Time): map<DeliveryKey, Time> {
    map k | k in db.deliveries && Terminal(db.deliveries[k].status) && db.deliveries[k].finishedAt.Some?
            && db.deliveries[k].finishedAt.value < cutoff :: db.deliveries[k].finishedAt.value
  }

  function OldKeys(db: Tables, cutoff: Time): map<DispatchKey, Time> {
    map dk | dk in db.keys && db.keys[dk].createdAt < cutoff :: db.keys[dk].createdAt
  }

  /** Events created before the cutoff that have no queued, running or awaiting_retry delivery. */
  function OldEvents(db: Tables, cutoff: Time): map<EventId, Time> {
    map e | e in db.events && db.events[e].createdAt < cutoff && AllTerminal(db, e) :: db.events[e].createdAt
  }

  function WithoutDeliveries(db: Tables, ks: set<DeliveryKey>): Tables {
    db.(deliveries := db.deliveries - ks)
  }

  function WithoutKeys(db: Tables, ks: set<DispatchKey>): Tables {
    db.(keys := db.keys - ks)
  }

  /** Deleting events cascades to their deliveries and keys. */
  function WithoutEvents(db: Tables, es: set<EventId>): Tables {
    Tables(db.events - es,
           map dk | dk in db.keys && db.keys[dk].event !in es :: db.keys[dk],
           map k | k in db.deliveries && k.event !in es :: db.deliveries[k])
  }

  // ---- the same in terms of the tables -------------------------------------

  /** Rows go and nothing else happens to the table; `total` of them go. */
  ghost predicate Shrinks<K, V>(m: map<K, V>, m': map<K, V>, total: nat) {
    (forall k :: k in m' ==> k in m && m'[k] == m[k]) && total == |m| - |m'|
  }

  /** `db'` is `db` without exactly the deliveries that ended in sent, dead or skipped before the cutoff. */
  ghost predicate DeliveriesPurged(db: Tables, db': Tables, cutoff: Time, total: nat) {
    && db'.events == db.events && db'.keys == db.keys && Shrinks(db.deliveries, db'.deliveries, total)
    && forall k :: k in db.deliveries ==>
         var d := db.deliveries[k];
         k !in db'.deliveries <==>
           d.status in {Sent, Dead, Skipped} && d.finishedAt.Some? && d.finishedAt.value < cutoff
  }

  /** `db'` is `db` without exactly the keys created before the cutoff. */
  ghost predicate KeysPurged(db: Tables, db': Tables, cutoff: Time, total: nat) {
    && db'.events == db.events && db'.deliveries == db.deliveries && Shrinks(db.keys, db'.keys, total)
    && forall dk :: dk in db.keys ==> (dk !in db'.keys <==> db.keys[dk].createdAt < cutoff)
  }

  ghost predicate NoneOpen(db: Tables, e: EventId) {
    !exists k :: k in db.deliveries && k.event == e && db.deliveries[k].status in {Queued, Running, AwaitingRetry}
  }

  lemma NoneOpenIff(db: Tables, e: EventId)
    ensures AllTerminal(db, e) <==> NoneOpen(db, e)
  {
    forall k | k in db.deliveries && k.event == e
      ensures Terminal(db.deliveries[k].status) <==> db.deliveries[k].status !in {Queued, Running, AwaitingRetry}
    {
      match db.deliveries[k].status
      case Queued =>
      case Running =>
      case AwaitingRetry =>
      case Sent =>
      case Skipped =>
      case Dead =>
    }
  }

  /** `db'` is `db` without exactly the events created before the cutoff of which no delivery is
      queued, running or awaiting_retry, and without what belongs to them. */
  ghost predicate EventsPurged(db: Tables, db': Tables, cutoff: Time, total: nat) {
    && Shrinks(db.events, db'.events, total)
    && (forall e :: e in db.events ==>
          (e !in db'.events <==>
             db.events[e].createdAt < cutoff && NoneOpen(db, e)))
    && (forall k :: k in db'.deliveries ==> k in db.deliveries && db'.deliveries[k] == db.deliveries[k])
    && (forall k :: k in db.deliveries ==>
          (k !in db'.deliveries <==> k.event in db.events && k.event !in db'.events))
    && (forall dk :: dk in db'.keys ==> dk in db.keys && db'.keys[dk] == db.keys[dk])
    && (forall dk :: dk in db.keys ==>
          (dk !in db'.keys <==> db.keys[dk].event in db.events && db.keys[dk].event !in db'.events))
  }

  lemma Removed<K, V>(m: map<K, V>, ks: set<K>)
    requires ks <= m.Keys
    ensures Shrinks(m, m - ks, |ks|)
  {
    assert (m - ks).Keys + ks == m.Keys && (m - ks).Keys !! ks;
    assert |(m - ks).Keys| + |ks| == |m.Keys|;
  }

  lemma OldDeliveriesAre(db: Tables, cutoff: Time)
    ensures var ks := OldDeliveries(db, cutoff).Keys; DeliveriesPurged(db, WithoutDeliveries(db, ks), cutoff, |ks|)
  {
    Removed(db.deliveries, OldDeliveries(db, cutoff).Keys);
  }

  lemma OldKeysAre(db: Tables, cutoff: Time)
    ensures var ks := OldKeys(db, cutoff).Keys; KeysPurged(db, WithoutKeys(db, ks), cutoff, |ks|)
  {
    Removed(db.keys, OldKeys(db, cutoff).Keys);
  }

  lemma OldEventsAre(db: Tables, cutoff: Time)
    ensures var es := OldEvents(db, cutoff).Keys; EventsPurged(db, WithoutEvents(db, es), cutoff, |es|)
  {
    Removed(db.events, OldEvents(db, cutoff).Keys);
    forall e ensures AllTerminal(db, e) <==> NoneOpen(db, e) { NoneOpenIff(db, e); }
  }

  // ---- the loops -----------------------------------------------------------

  /** One round: of `all`, the rows `gone` were deleted before and `chunk` is deleted now. */
  lemma Round<K>(all: set<K>, gone: set<K>, ages: map<K, Time>, size: nat, chunk: set<K>)
    requires gone <= all && ages.Keys == all - gone && IsChunk(ages, size, chunk)
    ensures gone + chunk <= all && |gone + chunk| == |gone| + |chunk|
    ensures |all - (gone + chunk)| == |all - gone| - |chunk|
    ensures |chunk| < size ==> gone + chunk == all
  {
    assert all - gone == (all - (gone + chunk)) + chunk;
    assert |all - gone| == |all - (gone + chunk)| + |chunk|;
    if |chunk| < size {
      ShortChunkIsAll(ages, size, chunk);
      assert gone + chunk == all;
    }
  }

  lemma DeliveriesLeft(db: Tables, cutoff: Time, gone: set<DeliveryKey>, chunk: set<DeliveryKey>)
    ensures OldDeliveries(WithoutDeliveries(db, gone), cutoff).Keys == OldDeliveries(db, cutoff).Keys - gone
    ensures WithoutDeliveries(WithoutDeliveries(db, gone), chunk) == WithoutDeliveries(db, gone + chunk)
  {
    assert (db.deliveries - gone) - chunk == db.deliveries - (gone + chunk);
  }

  lemma KeysLeft(db: Tables, cutoff: Time, gone: set<DispatchKey>, chunk: set<DispatchKey>)
    ensures OldKeys(WithoutKeys(db, gone), cutoff).Keys == OldKeys(db, cutoff).Keys - gone
    ensures WithoutKeys(WithoutKeys(db, gone), chunk) == WithoutKeys(db, gone + chunk)
  {
    assert (db.keys - gone) - chunk == db.keys - (gone + chunk);
  }

  /** Deleting some events does not change which of the others may go. */
  lemma EventsLeft(db: Tables, cutoff: Time, gone: set<EventId>, chunk: set<EventId>)
    ensures OldEvents(WithoutEvents(db, gone), cutoff).Keys == OldEvents(db, cutoff).Keys - gone
    ensures WithoutEvents(WithoutEvents(db, gone), chunk) == WithoutEvents(db, gone + chunk)
  {
    var db' := WithoutEvents(db, gone);
    forall e | e !in gone ensures AllTerminal(db', e) <==> AllTerminal(db, e) {
      assert forall k: DeliveryKey :: k.event == e ==> (k in db'.deliveries <==> k in db.deliveries);
    }
    assert (db.events - gone) - chunk == db.events - (gone + chunk);
    assert WithoutEvents(db', chunk).keys == WithoutEvents(db, gone + chunk).keys;
    assert WithoutEvents(db', chunk).deliveries == WithoutEvents(db, gone + chunk).deliveries;
  }

  /** Purging events loses no open delivery. */
  lemma OpenDeliveriesStay(db: Tables, cutoff: Time, k: DeliveryKey)
    requires k in db.deliveries && !Terminal(db.deliveries[k].status)
    ensures var db' := WithoutEvents(db, OldEvents(db, cutoff).Keys);
            k in db'.deliveries && db'.deliveries[k] == db.deliveries[k]
  {
  }

  /** The database as the purge functions see it. */
  class Database {
    var db: Tables

    constructor (db: Tables)
      ensures this.db == db
    {
      this.db := db;
    }

    /** Deletes exactly the terminal deliveries older than the cutoff and returns their number,
        whatever the chunk size. */
    method PurgeTerminalDeliveries(cutoff: Time, size: nat := PURGE_CHUNK_SIZE) returns (total: nat)
      requires size > 0
      modifies this
      ensures db == WithoutDeliveries(old(db), OldDeliveries(old(db), cutoff).Keys)
      ensures total == |OldDeliveries(old(db), cutoff).Keys|
      ensures DeliveriesPurged(old(db), db, cutoff, total)
    {
      total := 0;
      ghost var all := OldDeliveries(db, cutoff).Keys;
      ghost var gone: set<DeliveryKey> := {};
      assert WithoutDeliveries(db, {}) == db;
      while true
        invariant gone <= all == OldDeliveries(old(db), cutoff).Keys && total == |gone|
        invariant db == WithoutDeliveries(old(db), gone)
        decreases |all - gone|
      {
        var ages := OldDeliveries(db, cutoff);
        ghost var some := ChunkExists(ages, size);
        var chunk :| IsChunk(ages, size, chunk);
        DeliveriesLeft(old(db), cutoff, gone, chunk);
        Round(all, gone, ages, size, chunk);
        db := WithoutDeliveries(db, chunk);
        gone := gone + chunk;
        total := total + |chunk|;
        if |chunk| < size {
          break;
        }
      }
      OldDeliveriesAre(old(db), cutoff);
    }

    /** Deletes exactly the dispatch keys older than the cutoff and returns their number. */
    method PurgeDispatchKeys(cutoff: Time, size: nat := PURGE_CHUNK_SIZE) returns (total: nat)
      requires size > 0
      modifies this
      ensures db == WithoutKeys(old(db), OldKeys(old(db), cutoff).Keys)
      ensures total == |OldKeys(old(db), cutoff).Keys|
      ensures KeysPurged(old(db), db, cutoff, total)
    {
      total := 0;
      ghost var all := OldKeys(db, cutoff).Keys;
      ghost var gone: set<DispatchKey> := {};
      assert WithoutKeys(db, {}) == db;
      while true
        invariant gone <= all == OldKeys(old(db), cutoff).Keys && total == |gone|
        invariant db == WithoutKeys(old(db), gone)
        decreases |all - gone|
      {
        var ages := OldKeys(db, cutoff);
        ghost var some := ChunkExists(ages, size);
        var chunk :| IsChunk(ages, size, chunk);
        KeysLeft(old(db), cutoff, gone, chunk);
        Round(all, gone, ages, size, chunk);
        db := WithoutKeys(db, chunk);
        gone := gone + chunk;
        total := total + |chunk|;
        if |chunk| < size {
          break;
        }
      }
      OldKeysAre(old(db), cutoff);
    }

    /** Deletes exactly the old events without open deliveries, with their deliveries and keys;
        the result counts the events alone. */
    method PurgeEvents(cutoff: Time, size: nat := PURGE_CHUNK_SIZE) returns (total: nat)
      requires size > 0
      modifies this
      ensures db == WithoutEvents(old(db), OldEvents(old(db), cutoff).Keys)
      ensures total == |OldEvents(old(db), cutoff).Keys|
      ensures EventsPurged(old(db), db, cutoff, total)
    {
      total := 0;
      ghost var all := OldEvents(db, cutoff).Keys;
      ghost var gone: set<EventId> := {};
      assert WithoutEvents(db, {}) == db;
      while true
        invariant gone <= all == OldEvents(old(db), cutoff).Keys && total == |gone|
        invariant db == WithoutEvents(old(db), gone)
        decreases |all - gone|
      {
        var ages := OldEvents(db, cutoff);
        ghost var some := ChunkExists(ages, size);
        var chunk :| IsChunk(ages, size, chunk);
        EventsLeft(old(db), cutoff, gone, chunk);
        Round(all, gone, ages, size, chunk);
        db := WithoutEvents(db, chunk);
        gone := gone + chunk;
        total := total + |chunk|;
        if |chunk| < size {
          break;
        }
      }
      OldEventsAre(old(db), cutoff);
    }
  }

  // ---- the order of purges -------------------------------------------------

  function PurgedDeliveries(db: Tables, cutoff: Time): Tables {
    WithoutDeliveries(db, OldDeliveries(db, cutoff).Keys)
  }

  function PurgedKeys(db: Tables, cutoff: Time): Tables {
    WithoutKeys(db, OldKeys(db, cutoff).Keys)
  }

  function PurgedEvents(db: Tables, cutoff: Time): Tables {
    WithoutEvents(db, OldEvents(db, cutoff).Keys)
  }

  /** Purging deliveries or keys first does not change which events are purged. */
  lemma SameEventsEitherWay(db: Tables, c1: Time, c2: Time)
    ensures OldEvents(PurgedDeliveries(db, c1), c2) == OldEvents(db, c2)
    ensures OldEvents(PurgedKeys(db, c1), c2) == OldEvents(db, c2)
  {
    var db' := PurgedDeliveries(db, c1);
    forall e ensures AllTerminal(db', e) <==> AllTerminal(db, e) {
      forall k | k in db.deliveries && k.event == e && !Terminal(db.deliveries[k].status) ensures k in db'.deliveries {
      }
    }
    forall e ensures AllTerminal(PurgedKeys(db, c1), e) <==> AllTerminal(db, e) {
    }
  }

  lemma DeleteDeliveriesOrEventsFirst(db: Tables, ks: set<DeliveryKey>, es: set<EventId>)
    ensures WithoutEvents(WithoutDeliveries(db, ks), es) == WithoutDeliveries(WithoutEvents(db, es), ks)
  {
    assert WithoutEvents(WithoutDeliveries(db, ks), es).deliveries ==
      WithoutDeliveries(WithoutEvents(db, es), ks).deliveries;
  }

  /** The old deliveries left by a deletion of events are the old ones among those left. */
  lemma OldDeliveriesAfterEvents(db: Tables, c: Time, es: set<EventId>)
    ensures PurgedDeliveries(WithoutEvents(db, es), c) ==
            WithoutDeliveries(WithoutEvents(db, es), OldDeliveries(db, c).Keys)
  {
    var db1 := WithoutEvents(db, es);
    assert forall k :: k in db1.deliveries ==> (k in OldDeliveries(db1, c) <==> k in OldDeliveries(db, c));
    assert db1.deliveries - OldDeliveries(db1, c).Keys == db1.deliveries - OldDeliveries(db, c).Keys;
  }

  lemma EventsAndDeliveriesCommute(db: Tables, c1: Time, c2: Time)
    ensures PurgedEvents(PurgedDeliveries(db, c1), c2) == PurgedDeliveries(PurgedEvents(db, c2), c1)
  {
    SameEventsEitherWay(db, c1, c2);
    DeleteDeliveriesOrEventsFirst(db, OldDeliveries(db, c1).Keys, OldEvents(db, c2).Keys);
    OldDeliveriesAfterEvents(db, c1, OldEvents(db, c2).Keys);
  }

  lemma DeleteKeysOrEventsFirst(db: Tables, ks: set<DispatchKey>, es: set<EventId>)
    ensures WithoutEvents(WithoutKeys(db, ks), es) == WithoutKeys(WithoutEvents(db, es), ks)
  {
    assert WithoutEvents(WithoutKeys(db, ks), es).keys == WithoutKeys(WithoutEvents(db, es), ks).keys;
  }

  lemma OldKeysAfterEvents(db: Tables, c: Time, es: set<EventId>)
    ensures PurgedKeys(WithoutEvents(db, es), c) == WithoutKeys(WithoutEvents(db, es), OldKeys(db, c).Keys)
  {
    var db1 := WithoutEvents(db, es);
    assert forall k :: k in db1.keys ==> (k in OldKeys(db1, c) <==> k in OldKeys(db, c));
    assert db1.keys - OldKeys(db1, c).Keys == db1.keys - OldKeys(db, c).Keys;
  }

  lemma EventsAndKeysCommute(db: Tables, c1: Time, c2: Time)
    ensures PurgedEvents(PurgedKeys(db, c1), c2) == PurgedKeys(PurgedEvents(db, c2), c1)
  {
    SameEventsEitherWay(db, c1, c2);
    DeleteKeysOrEventsFirst(db, OldKeys(db, c1).Keys, OldEvents(db, c2).Keys);
    OldKeysAfterEvents(db, c1, OldEvents(db, c2).Keys);
  }

  /** The three purges commute: whatever the cutoffs, the tables end up the same in any order. */
  lemma PurgesCommute(db: Tables, c1: Time, c2: Time)
    ensures PurgedEvents(PurgedDeliveries(db, c1), c2) == PurgedDeliveries(PurgedEvents(db, c2), c1)
    ensures PurgedEvents(PurgedKeys(db, c1), c2) == PurgedKeys(PurgedEvents(db, c2), c1)
    ensures PurgedDeliveries(PurgedKeys(db, c1), c2) == PurgedKeys(PurgedDeliveries(db, c2), c1)
  {
    EventsAndDeliveriesCommute(db, c1, c2);
    EventsAndKeysCommute(db, c1, c2);
  }

  /** The purge steps of the interleaved system may be taken exactly for the rows these statements
      find, a key only while no open transaction has it locked. */
  lemma PurgeStepsAreOpenIff(s: System, k: DeliveryKey, dk: DispatchKey, es: set<EventId>, cutoff: Time)
    ensures Enabled(s, DropDelivery(k, cutoff)) <==> k in OldDeliveries(s.db, cutoff)
    ensures Enabled(s, DropKey(dk, cutoff)) <==>
            dk in OldKeys(s.db, cutoff) && forall x :: x in s.txs ==> !Locks(s.txs[x], dk)
    ensures Enabled(s, Select(es, cutoff)) <==> es <= OldEvents(s.db, cutoff).Keys
  {
  }

  /** The purge steps of the interleaved system delete what these statements delete, one row at
      a time, with the same cascade. */
  lemma DropsAreDeletes(s: System, st: Step)
    requires Enabled(s, st)
    ensures st.DropDelivery? ==>
            TablesAfter(s, st) == WithoutDeliveries(s.db, {st.k}) && st.k in OldDeliveries(s.db, st.cutoff)
    ensures st.DropKey? ==> TablesAfter(s, st) == WithoutKeys(s.db, {st.dk}) && st.dk in OldKeys(s.db, st.cutoff)
    ensures st.DropEvent? ==> TablesAfter(s, st) == WithoutEvents(s.db, {st.e})
    ensures st.Select? ==> st.es <= OldEvents(s.db, st.cutoff).Keys
  {
    if st.DropEvent? {
      assert KeysAfter(s, st) == WithoutEvents(s.db, {st.e}).keys;
      assert RowsAfter(s.db.deliveries, EffectOf(s, st)) == WithoutEvents(s.db, {st.e}).deliveries;
    }
  }
}
