/** Dispatch idempotency with interleaved open transactions, any mix of commits and rollbacks,
    and purges: what the committed reservations of a key name. */
module Idempotency {
  import opened Wrappers
  import opened Schema
  import opened World
  import opened Invariants

  /** The event a key names after the events of `log`, oldest first. */
  function Current(log: seq<KeyEvent>, dk: DispatchKey): Option<EventId> {
    if log == [] then None
    else
      var ev := log[|log| - 1];
      if ev.key != dk then Current(log[..|log| - 1], dk)
      else if ev.Named? then Some(ev.event) else None
  }

  predicate Names(log: seq<KeyEvent>, i: int, dk: DispatchKey) {
    0 <= i < |log| && log[i].Named? && log[i].key == dk
  }

  predicate PurgedBetween(log: seq<KeyEvent>, dk: DispatchKey, a: int, b: int) {
    exists p :: a < p < b && 0 <= p < |log| && log[p] == Purged(dk)
  }

  /** Two reservations of one key name the same event exactly when the key was not removed
      between them, and no event is named under two keys. */
  ghost predicate Consistent(log: seq<KeyEvent>) {
    && (forall dk, a, b :: Names(log, a, dk) && Names(log, b, dk) && a < b ==>
          (log[a].event == log[b].event <==> !PurgedBetween(log, dk, a, b)))
    && (forall a, b :: 0 <= a < |log| && 0 <= b < |log| && log[a].Named? && log[b].Named?
          && log[a].event == log[b].event
          ==> log[a].key == log[b].key)
  }

  lemma {:induction false} CurrentAppend(log: seq<KeyEvent>, ev: KeyEvent, dk: DispatchKey)
    ensures Current(log + [ev], dk) ==
            if ev.key != dk then Current(log, dk) else if ev.Named? then Some(ev.event) else None
  {
    assert (log + [ev])[..|log|] == log;
  }

  /** A key that names an event was named by the last log entry about it; a key that names
      none was removed after every reservation of it. */
  lemma {:induction false} CurrentSays(log: seq<KeyEvent>, dk: DispatchKey)
    ensures match Current(log, dk)
            case Some(e) =>
              exists l :: Names(log, l, dk) && log[l].event == e && forall i :: l < i < |log| ==> log[i].key != dk
            case None => forall a :: Names(log, a, dk) ==> PurgedBetween(log, dk, a, |log|)
  {
    if log != [] {
      var n := |log| - 1;
      var rest := log[..n];
      CurrentSays(rest, dk);
      assert forall i :: 0 <= i < n ==> rest[i] == log[i];
      if log[n].key == dk {
        if log[n].Named? {
          assert Names(log, n, dk);
        } else {
          assert log[n] == Purged(dk);
        }
      } else if Current(rest, dk).Some? {
        var l :| Names(rest, l, dk) && rest[l].event == Current(rest, dk).value
                 && forall i :: l < i < n ==> rest[i].key != dk;
        assert Names(log, l, dk);
      } else {
        forall a | Names(log, a, dk) ensures PurgedBetween(log, dk, a, |log|) {
          assert Names(rest, a, dk);
          var p :| a < p < n && 0 <= p && rest[p] == Purged(dk);
          assert log[p] == Purged(dk);
        }
      }
    }
  }

  /** A reservation either finds the event the key names now or, for a key that names none,
      brings an event never named before. */
  ghost predicate Fits(log: seq<KeyEvent>, ev: KeyEvent) {
    ev.Named? ==>
      || Current(log, ev.key) == Some(ev.event)
      || (Current(log, ev.key) == None && forall i :: 0 <= i < |log| && log[i].Named? ==> log[i].event != ev.event)
  }

  lemma PurgedBetweenPrefix(log: seq<KeyEvent>, ev: KeyEvent, dk: DispatchKey, a: int, b: int)
    requires b <= |log|
    ensures PurgedBetween(log + [ev], dk, a, b) <==> PurgedBetween(log, dk, a, b)
  {
    var log' := log + [ev];
    assert forall p :: 0 <= p < |log| ==> log'[p] == log[p];
    if PurgedBetween(log, dk, a, b) {
      var p :| a < p < b && 0 <= p < |log| && log[p] == Purged(dk);
      assert log'[p] == Purged(dk);
    }
    if PurgedBetween(log', dk, a, b) {
      var p :| a < p < b && 0 <= p < |log'| && log'[p] == Purged(dk);
      assert log[p] == Purged(dk);
    }
  }

  /** The new entry against an older reservation of its key. */
  lemma NewAgainstOld(log: seq<KeyEvent>, ev: KeyEvent, a: int)
    requires Consistent(log) && Fits(log, ev) && ev.Named? && Names(log, a, ev.key)
    ensures log[a].event == ev.event <==> !PurgedBetween(log, ev.key, a, |log|)
  {
    var dk := ev.key;
    CurrentSays(log, dk);
    if Current(log, dk).Some? {
      var l :| Names(log, l, dk) && log[l].event == ev.event && forall i :: l < i < |log| ==> log[i].key != dk;
      if a < l {
        assert log[a].event == log[l].event <==> !PurgedBetween(log, dk, a, l);
        if PurgedBetween(log, dk, a, |log|) {
          var p :| a < p < |log| && 0 <= p && log[p] == Purged(dk);
          assert p < l;
        }
      } else {
        assert a == l;
      }
    }
  }

  lemma AppendKeepsConsistent(log: seq<KeyEvent>, ev: KeyEvent)
    requires Consistent(log) && Fits(log, ev)
    ensures Consistent(log + [ev])
  {
    var log' := log + [ev];
    var n := |log|;
    assert forall i :: 0 <= i < n ==> log'[i] == log[i];
    forall dk, a, b | Names(log', a, dk) && Names(log', b, dk) && a < b
      ensures log'[a].event == log'[b].event <==> !PurgedBetween(log', dk, a, b)
    {
      PurgedBetweenPrefix(log, ev, dk, a, b);
      assert Names(log, a, dk);
      if b == n {
        NewAgainstOld(log, ev, a);
      } else {
        assert Names(log, b, dk);
      }
    }
    forall a | 0 <= a < n && log[a].Named? && ev.Named? && log[a].event == ev.event ensures log[a].key == ev.key {
      CurrentSays(log, ev.key);
      var l :| Names(log, l, ev.key) && log[l].event == ev.event;
      assert log[a].key == log[l].key;
    }
  }

  // ---- the key table and its log -------------------------------------------

  /** The key table is what the log says, and everything the log names was dispatched. */
  ghost predicate KeyLogMatches(log: seq<KeyEvent>, keys: map<DispatchKey, KeyRow>, dispatched: map<EventId, Event>) {
    && Consistent(log)
    && (forall dk :: Current(log, dk) == if dk in keys then Some(keys[dk].event) else None)
    && (forall i :: 0 <= i < |log| && log[i].Named? ==> log[i].event in dispatched)
  }

  predicate Mentions(named: seq<KeyEvent>, n: nat, dk: DispatchKey) {
    exists i :: 0 <= i < n && i < |named| && named[i].key == dk
  }

  /** What the log says in the middle of appending the reservations of transaction `tx`. */
  function Halfway(s: System, tx: Tx, n: nat, dk: DispatchKey): Option<EventId> {
    if dk in s.db.keys then Some(s.db.keys[dk].event)
    else if dk in tx.keys && Mentions(tx.named, n, dk) then Some(tx.keys[dk])
    else None
  }

  /** The hypotheses about a committing transaction, spelled out. */
  ghost predicate Committable(s: System, x: TxId) {
    && x in s.txs
    && TxHolds(s.txs[x], s.db.keys) && TxOwns(s.txs[x], x, s.minted)
    && KeyLogMatches(s.keyLog, s.db.keys, s.dispatched)
    && (forall e :: e in s.dispatched ==> e in s.minted && s.minted[e] != x)
    && (forall dk :: dk in s.db.keys ==> s.db.keys[dk].event in s.dispatched)
  }

  /** The log in the middle of appending the reservations of transaction `x`. */
  function Prefix(s: System, x: TxId, n: nat): seq<KeyEvent>
    requires x in s.txs && n <= |s.txs[x].named|
  {
    s.keyLog + s.txs[x].named[..n]
  }

  lemma PrefixNext(s: System, x: TxId, n: nat)
    requires x in s.txs && n < |s.txs[x].named|
    ensures Prefix(s, x, n + 1) == Prefix(s, x, n) + [s.txs[x].named[n]]
  {
  }

  lemma HalfwayNext(s: System, x: TxId, n: nat, dk: DispatchKey)
    requires x in s.txs && TxHolds(s.txs[x], s.db.keys) && n < |s.txs[x].named|
    ensures var tx := s.txs[x];
            && tx.named[n].Named?
            && Halfway(s, tx, n + 1, dk) ==
               if tx.named[n].key == dk then Some(tx.named[n].event) else Halfway(s, tx, n, dk)
  {
    var tx := s.txs[x];
    assert Backed(tx.named[n], tx.keys, s.db.keys);
    assert Mentions(tx.named, n + 1, dk) <==> Mentions(tx.named, n, dk) || tx.named[n].key == dk;
  }

  /** One more reservation changes the log's answer as it changes the halfway answer. */
  lemma {:induction false} CurrentFollowsHalfway(s: System, x: TxId, n: nat, dk: DispatchKey)
    requires x in s.txs && TxHolds(s.txs[x], s.db.keys) && n < |s.txs[x].named|
    requires Current(Prefix(s, x, n), dk) == Halfway(s, s.txs[x], n, dk)
    ensures Current(Prefix(s, x, n + 1), dk) == Halfway(s, s.txs[x], n + 1, dk)
  {
    PrefixNext(s, x, n);
    CurrentAppend(Prefix(s, x, n), s.txs[x].named[n], dk);
    HalfwayNext(s, x, n, dk);
  }

  /** What each key names halfway through the commit. */
  lemma {:induction false} CurrentIsHalfway(s: System, x: TxId, n: nat, dk: DispatchKey)
    requires x in s.txs && TxHolds(s.txs[x], s.db.keys) && n <= |s.txs[x].named|
    requires Current(s.keyLog, dk) == if dk in s.db.keys then Some(s.db.keys[dk].event) else None
    ensures Current(Prefix(s, x, n), dk) == Halfway(s, s.txs[x], n, dk)
  {
    if n == 0 {
      assert Prefix(s, x, 0) == s.keyLog;
    } else {
      CurrentIsHalfway(s, x, n - 1, dk);
      CurrentFollowsHalfway(s, x, n - 1, dk);
    }
  }

  /** An event that the transaction drew for a key it mentions for the first time is new to the log. */
  lemma OwnEventIsNew(s: System, x: TxId, n: nat, i: nat)
    requires Committable(s, x) && n < |s.txs[x].named| && i < |Prefix(s, x, n)| && Prefix(s, x, n)[i].Named?
    requires var dk := s.txs[x].named[n].key; dk in s.txs[x].keys && !Mentions(s.txs[x].named, n, dk)
    ensures Prefix(s, x, n)[i].event != s.txs[x].keys[s.txs[x].named[n].key]
  {
    var tx := s.txs[x];
    if i >= |s.keyLog| {
      var o := tx.named[i - |s.keyLog|];
      assert Prefix(s, x, n)[i] == o && Backed(o, tx.keys, s.db.keys);
      assert o.key != tx.named[n].key;
    }
  }

  lemma NextReservationFits(s: System, x: TxId, n: nat)
    requires Committable(s, x) && n < |s.txs[x].named|
    ensures Fits(Prefix(s, x, n), s.txs[x].named[n])
  {
    var tx, log, ev := s.txs[x], Prefix(s, x, n), s.txs[x].named[n];
    assert Backed(ev, tx.keys, s.db.keys);
    CurrentIsHalfway(s, x, n, ev.key);
    if ev.key in tx.keys && !Mentions(tx.named, n, ev.key) {
      forall i | 0 <= i < |log| && log[i].Named? ensures log[i].event != ev.event { OwnEventIsNew(s, x, n, i); }
    }
  }

  /** Reservations that fit, each after the ones before it, keep the log consistent. */
  lemma {:induction false} FittingKeepsConsistent(log: seq<KeyEvent>, evs: seq<KeyEvent>, n: nat)
    requires Consistent(log) && n <= |evs| && forall i :: 0 <= i < |evs| ==> Fits(log + evs[..i], evs[i])
    ensures Consistent(log + evs[..n])
  {
    if n == 0 {
      assert log + evs[..0] == log;
    } else {
      FittingKeepsConsistent(log, evs, n - 1);
      assert log + evs[..n] == log + evs[..n - 1] + [evs[n - 1]];
      AppendKeepsConsistent(log + evs[..n - 1], evs[n - 1]);
    }
  }

  lemma CommittedIsConsistent(s: System, x: TxId)
    requires Committable(s, x)
    ensures Consistent(s.keyLog + s.txs[x].named)
  {
    var named := s.txs[x].named;
    forall i | 0 <= i < |named| ensures Fits(s.keyLog + named[..i], named[i]) { NextReservationFits(s, x, i); }
    FittingKeepsConsistent(s.keyLog, named, |named|);
    assert named[..|named|] == named;
  }

  lemma CommittedKeyIsCurrent(s: System, x: TxId, dk: DispatchKey)
    requires Committable(s, x) && Commits(s.db, s.txs[x])
    ensures var keys' := KeysAfter(s, Commit(x));
            Halfway(s, s.txs[x], |s.txs[x].named|, dk) == if dk in keys' then Some(keys'[dk].event) else None
  {
    var tx := s.txs[x];
    if dk in tx.keys {
      assert Locks(tx, dk);
      assert Mentions(tx.named, |tx.named|, dk);
    }
  }

  lemma NamedIsDispatched(s: System, x: TxId, i: nat)
    requires Committable(s, x) && Commits(s.db, s.txs[x]) && i < |s.txs[x].named|
    requires forall e :: e in s.db.events ==> e in s.dispatched
    ensures s.txs[x].named[i].Named? && s.txs[x].named[i].event in s.dispatched + s.txs[x].events
  {
    assert Backed(s.txs[x].named[i], s.txs[x].keys, s.db.keys);
  }

  lemma CommitKeepsKeyLog(s: System, x: TxId)
    requires Committable(s, x) && Commits(s.db, s.txs[x]) && forall e :: e in s.db.events ==> e in s.dispatched
    ensures KeyLogMatches(KeyLogAfter(s, Commit(x)), KeysAfter(s, Commit(x)), s.dispatched + s.txs[x].events)
  {
    var tx := s.txs[x];
    CommittedIsConsistent(s, x);
    var log', keys' := s.keyLog + tx.named, KeysAfter(s, Commit(x));
    assert Prefix(s, x, |tx.named|) == log';
    forall dk ensures Current(log', dk) == if dk in keys' then Some(keys'[dk].event) else None {
      CurrentIsHalfway(s, x, |tx.named|, dk);
      CommittedKeyIsCurrent(s, x, dk);
    }
    forall i | 0 <= i < |log'| && log'[i].Named? ensures log'[i].event in s.dispatched + tx.events {
      if i >= |s.keyLog| {
        NamedIsDispatched(s, x, i - |s.keyLog|);
      }
    }
  }

  lemma {:induction false} PurgesAppend(log: seq<KeyEvent>, cascade: seq<DispatchKey>)
    requires Consistent(log)
    ensures var log' := log + Purges(cascade);
            Consistent(log') && forall dk :: Current(log', dk) == if dk in cascade then None else Current(log, dk)
  {
    var purges := Purges(cascade);
    if cascade == [] {
      assert log + purges == log;
    } else {
      var n := |cascade| - 1;
      var init := cascade[..n];
      PurgesAppend(log, init);
      var log1 := log + Purges(init);
      assert log + purges == log1 + [Purged(cascade[n])];
      AppendKeepsConsistent(log1, Purged(cascade[n]));
      forall dk ensures Current(log + purges, dk) == if dk in cascade then None else Current(log, dk) {
        CurrentAppend(log1, Purged(cascade[n]), dk);
        assert dk in cascade <==> dk in init || dk == cascade[n];
      }
    }
  }

  lemma StepKeepsKeyLog(s: System, st: Step)
    requires KeyLogMatches(s.keyLog, s.db.keys, s.dispatched) && Enabled(s, st)
    requires st.Commit? ==> Committable(s, st.x) && forall e :: e in s.db.events ==> e in s.dispatched
    ensures KeyLogMatches(KeyLogAfter(s, st), KeysAfter(s, st), DispatchedAfter(s, st))
  {
    if Committing(s, st) {
      assert st == Commit(st.x);
      CommitKeepsKeyLog(s, st.x);
    } else if st.DropKey? {
      AppendKeepsConsistent(s.keyLog, Purged(st.dk));
      forall d ensures Current(s.keyLog + [Purged(st.dk)], d) == if d == st.dk then None else Current(s.keyLog, d) {
        CurrentAppend(s.keyLog, Purged(st.dk), d);
      }
    } else if st.DropEvent? {
      PurgesAppend(s.keyLog, st.cascade);
    }
  }

  lemma GoodIsCommittable(s: System, st: Step)
    requires Good(s) && KeyLogMatches(s.keyLog, s.db.keys, s.dispatched) && Enabled(s, st)
    ensures st.Commit? ==> Committable(s, st.x) && forall e :: e in s.db.events ==> e in s.dispatched
  {
  }

  lemma KeyLogNext(states: seq<System>, steps: seq<Step>, i: nat)
    requires IsRun(states, steps) && i < |steps|
    requires KeyLogMatches(states[i].keyLog, states[i].db.keys, states[i].dispatched)
    ensures KeyLogMatches(states[i + 1].keyLog, states[i + 1].db.keys, states[i + 1].dispatched)
  {
    RunIsGood(states, steps, i);
    assert Linked(states, steps, i);
    GoodIsCommittable(states[i], steps[i]);
    StepKeepsKeyLog(states[i], steps[i]);
  }

  lemma {:induction false} RunKeepsKeyLog(states: seq<System>, steps: seq<Step>, i: nat)
    requires IsRun(states, steps) && i < |states|
    ensures KeyLogMatches(states[i].keyLog, states[i].db.keys, states[i].dispatched)
  {
    if i > 0 {
      RunKeepsKeyLog(states, steps, i - 1);
      KeyLogNext(states, steps, i - 1);
    }
  }

  /** In every run, two committed dispatches under the same (tenant, key) name the same event
      exactly when no purge removed the key, directly or by cascade, between them. Keys that
      differ in tenant or key never name the same event; the event type plays no part. */
  lemma SameKeySameEventIff(states: seq<System>, steps: seq<Step>, i: nat, a: nat, b: nat)
    requires IsRun(states, steps) && i < |states| && a < b < |states[i].keyLog|
    requires states[i].keyLog[a].Named? && states[i].keyLog[b].Named?
    ensures var log := states[i].keyLog;
            log[a].event == log[b].event <==> log[a].key == log[b].key && !PurgedBetween(log, log[a].key, a, b)
  {
    RunKeepsKeyLog(states, steps, i);
    var log := states[i].keyLog;
    if log[a].key == log[b].key {
      assert Names(log, a, log[a].key) && Names(log, b, log[a].key);
    }
  }

  /** The key table always answers with the event of the last committed dispatch under the key,
      unless the key was purged since. */
  lemma {:induction false} KeyTableIsCurrent(states: seq<System>, steps: seq<Step>, i: nat, dk: DispatchKey)
    requires IsRun(states, steps) && i < |states|
    ensures var s := states[i]; Current(s.keyLog, dk) == if dk in s.db.keys then Some(s.db.keys[dk].event) else None
  {
    RunKeepsKeyLog(states, steps, i);
  }
}
