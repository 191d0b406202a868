/** Purges against everything else that runs: victim selection and deletion are separate steps,
    with any claims, marks, dispatches and other purges between them. */
module PurgeSafety {
  import opened Schema
  import opened World
  import opened Invariants

  lemma StaysTerminalNext(states: seq<System>, steps: seq<Step>, i: nat, e: EventId)
    requires IsRun(states, steps) && i < |steps| && e in states[i].dispatched && AllTerminal(states[i].db, e)
    ensures e in states[i + 1].dispatched && AllTerminal(states[i + 1].db, e)
  {
    RunIsGood(states, steps, i);
    assert Linked(states, steps, i);
    AllTerminalIsStable(states[i], steps[i], e);
  }

  /** Once all deliveries of a dispatched event are terminal they stay so for the rest of the
      run, whatever happens. */
  lemma {:induction false} StaysTerminal(states: seq<System>, steps: seq<Step>, i: nat, j: nat, e: EventId)
    requires IsRun(states, steps) && i <= j < |states| && e in states[i].dispatched && AllTerminal(states[i].db, e)
    ensures e in states[j].dispatched && AllTerminal(states[j].db, e)
    decreases j
  {
    if i < j {
      StaysTerminal(states, steps, i, j - 1, e);
      StaysTerminalNext(states, steps, j - 1, e);
    }
  }

  lemma EventsAreDispatched(states: seq<System>, steps: seq<Step>, i: nat)
    requires IsRun(states, steps) && i < |states|
    ensures EventsMatch(states[i].db, states[i].log, states[i].dispatched)
  {
    RunIsGood(states, steps, i);
  }

  lemma SelectedIsTerminal(states: seq<System>, steps: seq<Step>, i: nat, e: EventId)
    requires IsRun(states, steps) && i < |steps| && steps[i].Select? && e in steps[i].es
    ensures e in states[i].dispatched && AllTerminal(states[i].db, e)
  {
    EventsAreDispatched(states, steps, i);
    assert Linked(states, steps, i);
    assert e in states[i].db.events;
  }

  /** An event selected at some step is still safe to delete at any later one: the cascade
      reaches no queued, running or awaiting_retry delivery. */
  lemma SelectedStaysSafe(states: seq<System>, steps: seq<Step>, i: nat, j: nat, e: EventId)
    requires IsRun(states, steps) && i < |steps| && i <= j < |states|
    requires steps[i].Select? && e in steps[i].es
    ensures AllTerminal(states[j].db, e)
  {
    SelectedIsTerminal(states, steps, i, e);
    StaysTerminal(states, steps, i, j, e);
  }

  /** What an allowed effect removes was terminal. */
  lemma DroppedWasTerminal(s: System, st: Step, k: DeliveryKey)
    requires RowsMatch(s.db.deliveries, s.log) && Allowed(s.db.deliveries, s.log, EffectOf(s, st))
    requires k in s.db.deliveries && k !in RowsAfter(s.db.deliveries, EffectOf(s, st))
    ensures Terminal(s.db.deliveries[k].status) && (st.DropDelivery? || st.DropEvent?)
  {
  }

  lemma RunIsAllowed(states: seq<System>, steps: seq<Step>, i: nat)
    requires IsRun(states, steps) && i < |steps|
    ensures RowsMatch(states[i].db.deliveries, states[i].log)
    ensures Allowed(states[i].db.deliveries, states[i].log, EffectOf(states[i], steps[i]))
    ensures states[i + 1].db.deliveries == RowsAfter(states[i].db.deliveries, EffectOf(states[i], steps[i]))
  {
    RunIsGood(states, steps, i);
    assert Linked(states, steps, i);
    EffectAllowed(states[i], steps[i]);
  }

  /** No step of any run removes a delivery row that is not terminal. */
  lemma RemovedRowsWereTerminal(states: seq<System>, steps: seq<Step>, i: nat, k: DeliveryKey)
    requires IsRun(states, steps) && i < |steps|
    requires k in states[i].db.deliveries && k !in states[i + 1].db.deliveries
    ensures Terminal(states[i].db.deliveries[k].status)
    ensures steps[i].DropDelivery? || steps[i].DropEvent?
  {
    RunIsAllowed(states, steps, i);
    DroppedWasTerminal(states[i], steps[i], k);
  }

  lemma DispatchedNext(states: seq<System>, steps: seq<Step>, i: nat, e: EventId)
    requires IsRun(states, steps) && i < |steps| && e in states[i].dispatched
    ensures e in states[i + 1].dispatched && states[i + 1].dispatched[e] == states[i].dispatched[e]
    ensures e in states[i + 1].db.events ==> e in states[i].db.events
  {
    RunIsGood(states, steps, i);
    assert Linked(states, steps, i);
    if steps[i].Commit? { CommitIsFresh(states[i], steps[i].x); }
  }

  lemma {:induction false} DispatchedStays(states: seq<System>, steps: seq<Step>, i: nat, j: nat, e: EventId)
    requires IsRun(states, steps) && i <= j < |states| && e in states[i].dispatched
    ensures e in states[j].dispatched && states[j].dispatched[e] == states[i].dispatched[e]
    ensures e in states[j].db.events ==> e in states[i].db.events
    decreases j
  {
    if i < j {
      DispatchedStays(states, steps, i, j - 1, e);
      DispatchedNext(states, steps, j - 1, e);
    }
  }

  /** An event row never changes, and once purged never comes back. */
  lemma EventRowsNeverChange(states: seq<System>, steps: seq<Step>, i: nat, j: nat, e: EventId)
    requires IsRun(states, steps) && i <= j < |states| && e in states[i].dispatched
    ensures e in states[j].db.events ==> e in states[i].db.events && states[j].db.events[e] == states[i].db.events[e]
  {
    DispatchedStays(states, steps, i, j, e);
    EventsAreDispatched(states, steps, i);
    EventsAreDispatched(states, steps, j);
  }

  // ---- the age of rows -----------------------------------------------------

  ghost predicate TxDated(tx: Tx) {
    forall e :: e in tx.events ==> tx.events[e].createdAt == tx.startedAt
  }

  /** Keys and deliveries are as old as their events. */
  ghost predicate RowsDated(db: Tables) {
    && (forall dk :: dk in db.keys ==>
          db.keys[dk].event in db.events && db.events[db.keys[dk].event].createdAt == db.keys[dk].createdAt)
    && (forall k :: k in db.deliveries ==>
          k.event in db.events && db.events[k.event].createdAt == db.deliveries[k].createdAt)
  }

  lemma StepKeepsTxsDated(s: System, st: Step)
    requires Enabled(s, st) && forall x :: x in s.txs ==> TxDated(s.txs[x])
    ensures forall x :: x in TxsAfter(s, st) ==> TxDated(TxsAfter(s, st)[x])
  {
  }

  lemma CommitKeepsRowsDated(s: System, x: TxId)
    requires Ownership(s) && x in s.txs && Commits(s.db, s.txs[x]) && TxDated(s.txs[x]) && RowsDated(s.db)
    ensures RowsDated(TablesAfter(s, Commit(x)))
  {
    var tx, db' := s.txs[x], TablesAfter(s, Commit(x));
    assert forall e :: e in tx.events ==> e !in s.db.events;
    forall dk | dk in db'.keys
      ensures db'.keys[dk].event in db'.events && db'.events[db'.keys[dk].event].createdAt == db'.keys[dk].createdAt
    {
      if dk in tx.keys { assert tx.keys[dk] in tx.events; }
    }
  }

  /** Claims, marks and deletions of deliveries leave the rest as old as it was. */
  lemma EffectKeepsDates(rows: map<DeliveryKey, Delivery>, eff: Effect, k: DeliveryKey)
    requires !eff.Fresh? && k in RowsAfter(rows, eff)
    ensures k in rows && RowsAfter(rows, eff)[k].createdAt == rows[k].createdAt
  {
  }

  lemma DropKeepsRowsDated(s: System, st: Step)
    requires Enabled(s, st) && st.DropEvent? && RowsDated(s.db)
    ensures RowsDated(TablesAfter(s, st))
  {
    assert forall dk :: dk in KeysAfter(s, st) ==> dk in s.db.keys && s.db.keys[dk].event != st.e;
  }

  lemma OtherKeepsRowsDated(s: System, st: Step)
    requires !Committing(s, st) && !st.DropEvent? && RowsDated(s.db)
    ensures RowsDated(TablesAfter(s, st))
  {
    var eff := EffectOf(s, st);
    forall k | k in RowsAfter(s.db.deliveries, eff)
      ensures k in s.db.deliveries && RowsAfter(s.db.deliveries, eff)[k].createdAt == s.db.deliveries[k].createdAt
    {
      EffectKeepsDates(s.db.deliveries, eff, k);
    }
  }

  ghost predicate Dated(s: System) {
    RowsDated(s.db) && forall x :: x in s.txs ==> TxDated(s.txs[x])
  }

  lemma StepKeepsRowsDated(s: System, st: Step)
    requires Ownership(s) && Enabled(s, st) && Dated(s)
    ensures RowsDated(TablesAfter(s, st))
  {
    if Committing(s, st) {
      assert st == Commit(st.x);
      CommitKeepsRowsDated(s, st.x);
    } else if st.DropEvent? {
      DropKeepsRowsDated(s, st);
    } else {
      OtherKeepsRowsDated(s, st);
    }
  }

  lemma StepKeepsDated(s: System, st: Step)
    requires Ownership(s) && Enabled(s, st) && Dated(s)
    ensures Dated(Apply(s, st))
  {
    StepKeepsTxsDated(s, st);
    StepKeepsRowsDated(s, st);
  }

  lemma DatedNext(states: seq<System>, steps: seq<Step>, i: nat)
    requires IsRun(states, steps) && i < |steps| && Dated(states[i])
    ensures Dated(states[i + 1])
  {
    RunIsGood(states, steps, i);
    assert Linked(states, steps, i);
    StepKeepsDated(states[i], steps[i]);
  }

  lemma {:induction false} RunStaysDated(states: seq<System>, steps: seq<Step>, i: nat)
    requires IsRun(states, steps) && i < |states|
    ensures Dated(states[i])
  {
    if i > 0 {
      RunStaysDated(states, steps, i - 1);
      DatedNext(states, steps, i - 1);
    }
  }

  /** In every state of every run a key and a delivery are exactly as old as their event, and a
      delivery finished no earlier: what one cutoff spares of an event, it spares of its rows. */
  lemma RowsShareTheirAge(states: seq<System>, steps: seq<Step>, i: nat, cutoff: Time)
    requires IsRun(states, steps) && i < |states|
    ensures var db := states[i].db;
            && (forall dk :: dk in db.keys ==>
                  && db.keys[dk].event in db.events
                  && (db.keys[dk].createdAt < cutoff <==> db.events[db.keys[dk].event].createdAt < cutoff))
            && (forall k :: k in db.deliveries ==>
                  && k.event in db.events && db.deliveries[k].createdAt == db.events[k.event].createdAt
                  && (db.deliveries[k].finishedAt.Some? ==>
                        db.events[k.event].createdAt <= db.deliveries[k].finishedAt.value))
  {
    RunStaysDated(states, steps, i);
    RunIsGood(states, steps, i);
    var db := states[i].db;
    forall k | k in db.deliveries && db.deliveries[k].finishedAt.Some?
      ensures db.deliveries[k].createdAt <= db.deliveries[k].finishedAt.value
    {
      assert RowChecks(db.deliveries[k]);
    }
  }
}
