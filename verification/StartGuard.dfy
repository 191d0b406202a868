/** `Outbox::start` and its `StartedGuard` (`src/outbox.rs`): one call by itself, and any
    interleaving of any number of calls. */
module StartGuard {
  import Sets
  import opened Schema

  // ---- one call ------------------------------------------------------------

  class AtomicFlag {
    var value: bool

    constructor (v: bool)
      ensures value == v
    {
      value := v;
    }

    method Swap(v: bool) returns (was: bool)
      modifies this
      ensures was == old(value) && value == v
    {
      was := value;
      value := v;
    }

    method Store(v: bool)
      modifies this
      ensures value == v
    {
      value := v;
    }
  }

  /** Releases the flag when dropped, unless disarmed before. */
  class StartedGuard {
    const flag: AtomicFlag
    var armed: bool

    constructor (flag: AtomicFlag)
      ensures this.flag == flag && armed
    {
      this.flag, armed := flag, true;
    }

    method Disarm()
      modifies this
      ensures !armed
    {
      armed := false;
    }

    method Drop()
      modifies flag
      ensures flag.value == if armed then false else old(flag.value)
    {
      if armed {
        flag.Store(false);
      }
    }
  }

  datatype Probe = ProbeFine | TableMissing | OtherProbeError

  datatype StartResult =
    | Started
    | AlreadyStarted
    | PoolTooSmall(required: nat)
    | SchemaMissing
    | QueueRefused
    | NoRuntime

  /** `concurrency × 2 + 2`, which a u64 always holds. */
  function Required(concurrency: U32): (n: nat)
    ensures n < 0x1_0000_0000_0000_0000
  {
    concurrency * 2 + 2
  }

  /** One call of `start`. `inRuntime` is whether it runs on a tokio runtime: with a concurrency
      above 1 the runtime is looked up before the guard exists, and that panics without one. */
  method Start(flag: AtomicFlag, concurrency: U32, maxConnections: U32, inRuntime: bool, probe: Probe,
               workerStarts: bool)
    returns (r: StartResult)
    modifies flag
    ensures old(flag.value) <==> r == AlreadyStarted
    ensures r == NoRuntime <==> !old(flag.value) && concurrency > 1 && !inRuntime
    ensures var guarded := !old(flag.value) && (concurrency > 1 ==> inRuntime);
            var pooled := maxConnections >= 2 * concurrency + 2;
            && (r.PoolTooSmall? <==> guarded && !pooled)
            && (r.PoolTooSmall? ==> r.required == 2 * concurrency + 2)
            && (r == SchemaMissing <==> guarded && pooled && probe == TableMissing)
            && (r == QueueRefused <==> guarded && pooled && probe != TableMissing && !workerStarts)
            && (r == Started <==> guarded && pooled && probe != TableMissing && workerStarts)
    ensures flag.value <==> r in {Started, AlreadyStarted, NoRuntime}
  {
    var was := flag.Swap(true);
    if was {
      return AlreadyStarted;
    }
    if concurrency > 1 && !inRuntime {
      return NoRuntime;
    }
    var guard := new StartedGuard(flag);
    if maxConnections < Required(concurrency) {
      guard.Drop();
      return PoolTooSmall(Required(concurrency));
    }
    if probe == TableMissing {
      guard.Drop();
      return SchemaMissing;
    }
    if !workerStarts {
      guard.Drop();
      return QueueRefused;
    }
    guard.Disarm();
    guard.Drop();
    return Started;
  }

  // ---- all calls -----------------------------------------------------------

  type CallerId = nat

  /** Where a call stands: after the swap, with its guard armed, or over. `Lost` is a panic
      between the swap and the guard. */
  datatype Caller = Swapped | Armed | Succeeded | Refused | GaveUp | Lost

  datatype State = State(flag: bool, callers: map<CallerId, Caller>)

  /** `Release` is an armed guard dropped: an error return, a panic, or the future dropped at
      one of its await points. `Disarm` is success. */
  datatype Move = Swap(c: CallerId) | Arm(c: CallerId) | Panic(c: CallerId) | Release(c: CallerId) | Disarm(c: CallerId)

  predicate Enabled(s: State, m: Move) {
    match m
    case Swap(c) => c !in s.callers
    case Arm(c) => c in s.callers && s.callers[c] == Swapped
    case Panic(c) => c in s.callers && s.callers[c] == Swapped
    case Release(c) => c in s.callers && s.callers[c] == Armed
    case Disarm(c) => c in s.callers && s.callers[c] == Armed
  }

  function Apply(s: State, m: Move): State {
    match m
    case Swap(c) => State(true, s.callers[c := if s.flag then Refused else Swapped])
    case Arm(c) => State(s.flag, s.callers[c := Armed])
    case Panic(c) => State(s.flag, s.callers[c := Lost])
    case Release(c) => State(false, s.callers[c := GaveUp])
    case Disarm(c) => State(s.flag, s.callers[c := Succeeded])
  }

  ghost predicate IsRun(states: seq<State>, moves: seq<Move>) {
    && |states| == |moves| + 1 && states[0] == State(false, map[])
    && forall i :: 0 <= i < |moves| ==> Enabled(states[i], moves[i]) && states[i + 1] == Apply(states[i], moves[i])
  }

  function In(s: State, phases: set<Caller>): set<CallerId> {
    set c | c in s.callers && s.callers[c] in phases
  }

  /** The calls that are starting, have succeeded, or were lost hold the flag. */
  function Holders(s: State): set<CallerId> {
    In(s, {Swapped, Armed, Succeeded, Lost})
  }

  ghost predicate OneHolder(s: State) {
    && (s.flag <==> Holders(s) != {})
    && forall c, c' :: c in Holders(s) && c' in Holders(s) ==> c == c'
  }

  lemma MoveKeepsOneHolder(s: State, m: Move)
    requires OneHolder(s) && Enabled(s, m)
    ensures OneHolder(Apply(s, m))
  {
    var s' := Apply(s, m);
    match m
    case Swap(c) =>
      if s.flag {
        assert Holders(s') == Holders(s);
      } else {
        assert c in Holders(s');
        forall d | d in Holders(s') ensures d == c { assert d != c ==> d in Holders(s); }
      }
    case Release(c) =>
      assert c in Holders(s);
      assert Holders(s') <= Holders(s) - {c};
    case _ =>
      assert m.c in Holders(s);
      assert Holders(s') == Holders(s);
  }

  lemma {:induction false} RunKeepsOneHolder(states: seq<State>, moves: seq<Move>, i: nat)
    requires IsRun(states, moves) && i < |states|
    ensures OneHolder(states[i])
  {
    if i > 0 {
      RunKeepsOneHolder(states, moves, i - 1);
      MoveKeepsOneHolder(states[i - 1], moves[i - 1]);
    }
  }

  /** In every run, successes plus calls still starting never exceed one, and the flag is set
      exactly when there is one of them or a lost call. */
  lemma AtMostOneStart(states: seq<State>, moves: seq<Move>, i: nat)
    requires IsRun(states, moves) && i < |states|
    ensures var s := states[i];
            var starting := |In(s, {Swapped, Armed})|; var succeeded := |In(s, {Succeeded})|;
            var lost := |In(s, {Lost})|;
            starting + succeeded + lost <= 1 && (s.flag <==> starting + succeeded + lost == 1)
  {
    var s := states[i];
    RunKeepsOneHolder(states, moves, i);
    Sets.AtMostOne(Holders(s));
    var a, b, c := In(s, {Swapped, Armed}), In(s, {Succeeded}), In(s, {Lost});
    assert Holders(s) == a + b + c;
    assert |a + b + c| == |a + b| + |c| && |a + b| == |a| + |b|;
  }

  lemma {:induction false} NothingLost(states: seq<State>, moves: seq<Move>, i: nat)
    requires IsRun(states, moves) && i < |states| && forall n :: 0 <= n < |moves| ==> !moves[n].Panic?
    ensures In(states[i], {Lost}) == {}
  {
    if i > 0 {
      NothingLost(states, moves, i - 1);
      assert !moves[i - 1].Panic?;
      forall c | c in states[i].callers ensures states[i].callers[c] != Lost {
        assert c in states[i - 1].callers && states[i - 1].callers[c] == Lost ==> c in In(states[i - 1], {Lost});
      }
    }
  }

  /** When no call panics before its guard is armed, the flag says exactly whether the outbox is
      started or starting; after a failed or dropped start the next call gets through. */
  lemma FailedStartIsRetryable(states: seq<State>, moves: seq<Move>, i: nat, c: CallerId, next: CallerId)
    requires IsRun(states, moves) && i < |states| && forall n :: 0 <= n < |moves| ==> !moves[n].Panic?
    requires next !in states[i].callers
    ensures var s := states[i];
            && (s.flag <==> |In(s, {Swapped, Armed})| + |In(s, {Succeeded})| == 1)
            && (Enabled(s, Release(c)) ==> Apply(Apply(s, Release(c)), Swap(next)).callers[next] == Swapped)
            && (Apply(s, Swap(next)).callers[next] == Swapped <==> In(s, {Swapped, Armed, Succeeded}) == {})
  {
    AtMostOneStart(states, moves, i);
    NothingLost(states, moves, i);
    RunKeepsOneHolder(states, moves, i);
    var s := states[i];
    assert Holders(s) == In(s, {Swapped, Armed, Succeeded}) + In(s, {Lost});
  }

  /** A panic between swap and guard is not released: from then on every call is refused. */
  lemma {:induction false} LostForGood(states: seq<State>, moves: seq<Move>, i: nat, j: nat, c: CallerId,
                                       next: CallerId)
    requires IsRun(states, moves) && i <= j < |states| && c in states[i].callers && states[i].callers[c] == Lost
    ensures c in states[j].callers && states[j].callers[c] == Lost && states[j].flag
    ensures next !in states[j].callers ==> Apply(states[j], Swap(next)).callers[next] == Refused
    decreases j
  {
    RunKeepsOneHolder(states, moves, j);
    if i < j {
      LostForGood(states, moves, i, j - 1, c, next);
    }
    assert c in Holders(states[j]);
  }
}
