/** How `handle_envelope` turns what happened to the handler into a mark and a queue
    result (`src/runtime.rs`, steps 3b and 5 to 7). */
module Routing {
  import opened Wrappers
  import opened Schema
  import Utf8

  datatype PanicPolicy = PanicRetry | PanicDead
  datatype DecodeStrategy = DecodeRetry | DecodeAbort

  /** The two routing settings, and the two fixed messages of the runtime, kept symbolic. */
  datatype Policy = Policy(panic: PanicPolicy, decode: DecodeStrategy, notRegistered: string, timedOut: string)

  datatype HandlerError =
    | Retry(reason: string, retryIn: Option<nat>)
    | Skip(reason: string)
    | Abort(reason: string)

  /** What the invocation observed after its claim succeeded. */
  datatype Observed =
    | NotRegistered
    | Returned(error: Option<HandlerError>)
    | DecodeFailed(message: string)
    | Panicked(message: string)
    | TimedOut

  datatype JobResult =
    | JobOk
    | JobRetry(why: string, retryIn: Option<nat>)
    | JobAbort(why: string)

  /** The four `mark_*_fenced` statements with the text they bind. */
  datatype Mark = MarkSent | MarkRetry(error: string) | MarkDead(error: string) | MarkSkipped(error: string)

  function NewStatus(m: Mark): Status {
    match m
    case MarkSent => Sent
    case MarkRetry(_) => AwaitingRetry
    case MarkDead(_) => Dead
    case MarkSkipped(_) => Skipped
  }

  function MarkText(m: Mark): Option<string> {
    match m
    case MarkSent => None
    case MarkRetry(e) => Some(e)
    case MarkDead(e) => Some(e)
    case MarkSkipped(e) => Some(e)
  }

  function ResultOf(policy: Policy, o: Observed): Option<HandlerError>
    requires !o.NotRegistered?
  {
    match o
    case Returned(e) => e
    case DecodeFailed(m) => Some(if policy.decode.DecodeRetry? then Retry(m, None) else Abort(m))
    case Panicked(m) =>
      var msg := "panic: " + Utf8.Sanitize(m);
      Some(if policy.panic.PanicRetry? then Retry(msg, None) else Abort(msg))
    case TimedOut => Some(Retry(policy.timedOut, None))
  }

  function Route(policy: Policy, attempt: U32, maxAttempts: U32, o: Observed): (Mark, JobResult) {
    if o.NotRegistered? then
      (MarkDead(Utf8.Clean(policy.notRegistered)), JobAbort(policy.notRegistered))
    else
      RouteResult(attempt, maxAttempts, ResultOf(policy, o))
  }

  function RouteResult(attempt: U32, maxAttempts: U32, result: Option<HandlerError>): (Mark, JobResult) {
    match result
    case None => (MarkSent, JobOk)
    case Some(Retry(reason, retryIn)) =>
      var text := Utf8.Clean(reason);
      (if attempt >= maxAttempts then MarkDead(text) else MarkRetry(text), JobRetry(text, retryIn))
    case Some(Skip(reason)) =>
      (MarkSkipped(Utf8.Clean(reason)), JobAbort("skipped: " + Utf8.Clean(reason)))
    case Some(Abort(reason)) =>
      (MarkDead(Utf8.Clean(reason)), JobAbort(Utf8.Clean(reason)))
  }

  /** `map_sql`: deterministic database errors abort the job, all others retry it. */
  function MapSql(deterministic: bool, what: string): JobResult {
    if deterministic then JobAbort(what) else JobRetry(what, None)
  }

  /** What `pg_work_queue` does with a result: it keeps the job alive only for a retry
      below the budget. Part of the assumed environment. */
  predicate Requeues(r: JobResult, attempt: U32, maxAttempts: U32) {
    r.JobRetry? && attempt < maxAttempts
  }

  /** On every route the audit row stays open exactly when the queue will deliver again. */
  lemma RouteAgreesWithQueue(policy: Policy, attempt: U32, maxAttempts: U32, o: Observed)
    ensures var (m, r) := Route(policy, attempt, maxAttempts, o);
            && (Terminal(NewStatus(m)) <==> !Requeues(r, attempt, maxAttempts))
            && (NewStatus(m) == Sent <==> r == JobOk)
  {
  }

  /** A short printable message is stored as it is. */
  lemma ShortMessageIsClean(s: string)
    requires |s| <= 2048 && forall i :: 0 <= i < |s| ==> !Utf8.IsControl(s[i])
    ensures Utf8.Clean(s) == s
  {
    Utf8.SanitizeFixesClean(s);
    LenBound(s);
    Utf8.FitKeepsAll(s, Utf8.MAX_LAST_ERROR_BYTES);
  }

  lemma {:induction false} LenBound(s: string)
    ensures |s| <= Utf8.Len(s) <= 4 * |s|
  {
    if s != [] { LenBound(s[1..]); }
  }

  /** The audit row and the queue receive the same text; a skip's queue text is that text behind
      a fixed prefix. */
  lemma SameTextInBothPlaces(policy: Policy, attempt: U32, maxAttempts: U32, o: Observed)
    requires |policy.notRegistered| <= 2048
    requires forall i :: 0 <= i < |policy.notRegistered| ==> !Utf8.IsControl(policy.notRegistered[i])
    ensures var (m, r) := Route(policy, attempt, maxAttempts, o);
            match r
            case JobOk => MarkText(m) == None
            case JobRetry(why, _) => MarkText(m) == Some(why)
            case JobAbort(why) =>
              && MarkText(m).Some?
              && (why == MarkText(m).value || (m.MarkSkipped? && why == "skipped: " + m.error))
  {
    ShortMessageIsClean(policy.notRegistered);
  }

  /** The text bound by any mark passes the column's constraints and is already clean. */
  lemma BoundTextFits(policy: Policy, attempt: U32, maxAttempts: U32, o: Observed)
    ensures var (m, _) := Route(policy, attempt, maxAttempts, o);
            MarkText(m).Some? ==> Utf8.Len(MarkText(m).value) <= 8192 && '\0' !in MarkText(m).value
                                  && Utf8.Clean(MarkText(m).value) == MarkText(m).value
  {
    var reason := if o.NotRegistered? then policy.notRegistered
                  else var e := ResultOf(policy, o); if e.None? then "" else e.value.reason;
    CleanFits(reason);
  }

  lemma CleanFits(reason: string)
    ensures var c := Utf8.Clean(reason); Utf8.Len(c) <= 8192 && '\0' !in c && Utf8.Clean(c) == c
  {
    Utf8.CleanText(reason);
    var c := Utf8.Clean(reason);
    assert forall i :: 0 <= i < |c| && c[i] == '\0' ==> Utf8.IsControl(c[i]);
  }
}
