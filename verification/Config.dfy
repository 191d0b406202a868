/** `OutboxConfig` and its validation (`src/builder.rs`), and the timeout the runtime derives
    from it (`src/runtime.rs`). Durations are whole nanoseconds. */
module Config {
  import opened Schema
  import opened Routing

  type Duration = nat

  const MILLIS: Duration := 1_000_000
  const SECS: Duration := 1000 * MILLIS
  const HANDLER_CLEANUP_BUDGET: Duration := 200 * MILLIS

  datatype BuildError =
    | ConcurrencyZero
    | MaxAttemptsZero
    | TimeoutNotBelowLease
    | TimeoutTooShort
    | HandlerIdEmpty
    | HandlerIdTooLong(len: nat)
    | DuplicateHandlerId(eventType: string, handlerId: string)
    | OverrideTooLong
    | BadConcurrencyLimit

  datatype Result<+T> = Ok(value: T) | Err(error: BuildError)

  datatype OutboxConfig = OutboxConfig(
    concurrency: U32,
    maxAttempts: U32,
    leaseTimeout: Duration,
    handlerTimeout: Duration,
    panicPolicy: PanicPolicy,
    decodeErrorStrategy: DecodeStrategy)

  /** `OutboxConfig::default()`. Its panic policy is the queue's own default. */
  function DefaultConfig(panic: PanicPolicy): OutboxConfig {
    OutboxConfig(16, 5, 300 * SECS, 240 * SECS, panic, DecodeRetry)
  }

  /** What a usable configuration is. */
  predicate Usable(cfg: OutboxConfig) {
    && cfg.concurrency >= 1 && cfg.maxAttempts >= 1
    && 2 * HANDLER_CLEANUP_BUDGET < cfg.handlerTimeout < cfg.leaseTimeout
  }

  /** `handler_timeout_floor_check`. */
  predicate AboveFloor(d: Duration) {
    !(d <= HANDLER_CLEANUP_BUDGET * 2)
  }

  class OutboxConfigBuilder {
    var cfg: OutboxConfig

    constructor (panic: PanicPolicy)
      ensures cfg == DefaultConfig(panic)
    {
      cfg := DefaultConfig(panic);
    }

    method Concurrency(n: U32)
      modifies this
      ensures cfg == old(cfg).(concurrency := n)
    {
      cfg := cfg.(concurrency := n);
    }

    method MaxAttempts(n: U32)
      modifies this
      ensures cfg == old(cfg).(maxAttempts := n)
    {
      cfg := cfg.(maxAttempts := n);
    }

    method LeaseTimeout(d: Duration)
      modifies this
      ensures cfg == old(cfg).(leaseTimeout := d)
    {
      cfg := cfg.(leaseTimeout := d);
    }

    method HandlerTimeout(d: Duration)
      modifies this
      ensures cfg == old(cfg).(handlerTimeout := d)
    {
      cfg := cfg.(handlerTimeout := d);
    }

    /** Accepts exactly the usable configurations, as they are; otherwise names the first fault. */
    method Build() returns (r: Result<OutboxConfig>)
      ensures r.Ok? <==> Usable(cfg)
      ensures r.Ok? ==> r.value == cfg
      ensures r == Err(ConcurrencyZero) <==> cfg.concurrency == 0
      ensures r == Err(MaxAttemptsZero) <==> cfg.concurrency != 0 && cfg.maxAttempts == 0
      ensures r == Err(TimeoutNotBelowLease) <==>
                cfg.concurrency != 0 && cfg.maxAttempts != 0 && cfg.handlerTimeout >= cfg.leaseTimeout
      ensures r == Err(TimeoutTooShort) <==>
                && cfg.concurrency != 0 && cfg.maxAttempts != 0
                && cfg.handlerTimeout < cfg.leaseTimeout && cfg.handlerTimeout <= 400 * MILLIS
      ensures r == Ok(cfg) <==>
                cfg.concurrency != 0 && cfg.maxAttempts != 0 && 400 * MILLIS < cfg.handlerTimeout < cfg.leaseTimeout
    {
      if cfg.concurrency == 0 {
        return Err(ConcurrencyZero);
      }
      if cfg.maxAttempts == 0 {
        return Err(MaxAttemptsZero);
      }
      if cfg.handlerTimeout >= cfg.leaseTimeout {
        return Err(TimeoutNotBelowLease);
      }
      if !AboveFloor(cfg.handlerTimeout) {
        return Err(TimeoutTooShort);
      }
      return Ok(cfg);
    }
  }

  function SaturatingSub(a: Duration, b: Duration): Duration {
    if a < b then 0 else a - b
  }

  /** The timeout of the runtime's own wrapper around the handler, with its 100 ms floor. */
  function InternalTimeout(effective: Duration): Duration {
    var t := SaturatingSub(effective, HANDLER_CLEANUP_BUDGET);
    if t < 100 * MILLIS then 100 * MILLIS else t
  }
}
