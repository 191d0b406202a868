/** The handler registry (`src/registry.rs`) and the loop that builds it (`src/builder.rs`). */
module Registry {
  import opened Wrappers
  import opened Schema
  import opened Routing
  import opened Config
  import Utf8
  import World

  const MAX_HANDLER_ID_BYTES: nat := 128

  datatype RegisteredHandler = RegisteredHandler(handlerTimeout: Option<Duration>, concurrencyLimit: Option<U32>)
  datatype Registry = Registry(handlers: map<string, RegisteredHandler>, byType: map<string, seq<string>>)

  /** A registration waiting for `build`. The handler itself is opaque and left out. */
  datatype PendingHandler = PendingHandler(eventType: string, handlerId: string, options: RegisteredHandler)

  datatype Built = Built(config: OutboxConfig, registry: Registry, allowNoHandlers: bool)

  /** A registration that is fine on its own under a global handler timeout of `ceiling`: its id passes
      the column's CHECK, `handler_deliveries_handler_bytes`. */
  predicate ValidEntry(p: PendingHandler, ceiling: Duration) {
    && 1 <= Utf8.Len(p.handlerId) <= 128
    && (p.options.handlerTimeout.Some? ==> 2 * HANDLER_CLEANUP_BUDGET < p.options.handlerTimeout.value <= ceiling)
    && (p.options.concurrencyLimit.Some? ==> 1 <= p.options.concurrencyLimit.value <= I32_MAX)
  }

  ghost predicate UniqueIds(ps: seq<PendingHandler>) {
    forall i, j :: 0 <= i < j < |ps| ==> ps[i].handlerId != ps[j].handlerId
  }

  ghost predicate AllValid(ps: seq<PendingHandler>, ceiling: Duration) {
    forall i :: 0 <= i < |ps| ==> ValidEntry(ps[i], ceiling)
  }

  /** The ids registered for an event type, in registration order. */
  function IdsOf(ps: seq<PendingHandler>, eventType: string): seq<string> {
    if ps == [] then []
    else
      var n := |ps| - 1;
      IdsOf(ps[..n], eventType) + if ps[n].eventType == eventType then [ps[n].handlerId] else []
  }

  lemma {:induction false} IdsOfMember(ps: seq<PendingHandler>, eventType: string, h: string)
    ensures h in IdsOf(ps, eventType) <==>
            exists i :: 0 <= i < |ps| && ps[i].eventType == eventType && ps[i].handlerId == h
  {
    if ps != [] {
      var n := |ps| - 1;
      IdsOfMember(ps[..n], eventType, h);
      assert forall i :: 0 <= i < n ==> ps[..n][i] == ps[i];
      if h in IdsOf(ps[..n], eventType) {
        var i :| 0 <= i < n && ps[..n][i].eventType == eventType && ps[..n][i].handlerId == h;
        assert ps[i].eventType == eventType;
      }
      if i :| 0 <= i < |ps| && ps[i].eventType == eventType && ps[i].handlerId == h {
        if i < n { assert ps[..n][i].handlerId == h; }
      }
    }
  }

  lemma {:induction false} IdsOfDistinct(ps: seq<PendingHandler>, eventType: string)
    requires UniqueIds(ps)
    ensures World.Distinct(IdsOf(ps, eventType))
  {
    if ps != [] {
      var n := |ps| - 1;
      IdsOfDistinct(ps[..n], eventType);
      IdsOfMember(ps[..n], eventType, ps[n].handlerId);
    }
  }

  /** The handler map holds every registration of `ps` and nothing else. */
  ghost predicate Filed(reg: Registry, ps: seq<PendingHandler>) {
    && (forall i :: 0 <= i < |ps| ==> ps[i].handlerId in reg.handlers && reg.handlers[ps[i].handlerId] == ps[i].options)
    && (forall h :: h in reg.handlers ==> exists i :: 0 <= i < |ps| && ps[i].handlerId == h)
  }

  /** The type index lists the ids of each type in registration order, and no empty type. */
  ghost predicate Listed(reg: Registry, ps: seq<PendingHandler>) {
    && (forall ty :: World.HandlersFor(reg.byType, ty) == IdsOf(ps, ty))
    && (forall ty :: ty in reg.byType ==> reg.byType[ty] != [])
  }

  /** `reg` is the registry of the registrations `ps`. */
  ghost predicate Holds(reg: Registry, ps: seq<PendingHandler>) {
    Filed(reg, ps) && Listed(reg, ps)
  }

  ghost predicate IdTaken(ps: seq<PendingHandler>, i: nat)
    requires i < |ps|
  {
    exists j :: 0 <= j < i && ps[j].handlerId == ps[i].handlerId
  }

  predicate TimeoutFine(p: PendingHandler, ceiling: Duration) {
    p.options.handlerTimeout.Some? ==> 400 * MILLIS < p.options.handlerTimeout.value <= ceiling
  }

  /** Why `build` gives up at a registration: the first of its checks that fails. */
  ghost predicate Refuses(ps: seq<PendingHandler>, i: nat, ceiling: Duration, e: BuildError)
    requires i < |ps|
  {
    var p := ps[i];
    var named := 1 <= Utf8.Len(p.handlerId) <= 128;
    match e
    case HandlerIdEmpty => p.handlerId == ""
    case HandlerIdTooLong(len) => len == Utf8.Len(p.handlerId) > 128
    case DuplicateHandlerId(ty, h) => ty == p.eventType && h == p.handlerId && named && IdTaken(ps, i)
    case TimeoutTooShort =>
      && named && !IdTaken(ps, i)
      && p.options.handlerTimeout.Some? && p.options.handlerTimeout.value <= 400 * MILLIS
    case OverrideTooLong =>
      && named && !IdTaken(ps, i) && p.options.handlerTimeout.Some?
      && p.options.handlerTimeout.value > 400 * MILLIS && p.options.handlerTimeout.value > ceiling
    case BadConcurrencyLimit =>
      && named && !IdTaken(ps, i) && TimeoutFine(p, ceiling)
      && p.options.concurrencyLimit.Some? && !(1 <= p.options.concurrencyLimit.value <= I32_MAX)
    case _ => false
  }

  ghost predicate Fine(ps: seq<PendingHandler>, ceiling: Duration) {
    AllValid(ps, ceiling) && UniqueIds(ps)
  }

  /** `e` is about the first registration that cannot be accepted. */
  ghost predicate FirstRefused(ps: seq<PendingHandler>, ceiling: Duration, e: BuildError) {
    exists i: nat :: i < |ps| && Fine(ps[..i], ceiling) && Refuses(ps, i, ceiling, e)
  }

  lemma RefusedHere(ps: seq<PendingHandler>, i: nat, ceiling: Duration, e: BuildError)
    requires i < |ps| && Fine(ps[..i], ceiling) && Refuses(ps, i, ceiling, e)
    ensures FirstRefused(ps, ceiling, e) && !Fine(ps, ceiling)
  {
    if e.HandlerIdEmpty? || e.HandlerIdTooLong? || e.TimeoutTooShort? || e.OverrideTooLong? || e.BadConcurrencyLimit? {
      assert !ValidEntry(ps[i], ceiling);
    }
  }

  lemma FineNext(reg: Registry, ps: seq<PendingHandler>, i: nat, ceiling: Duration)
    requires i < |ps| && Fine(ps[..i], ceiling) && Holds(reg, ps[..i]) && ValidEntry(ps[i], ceiling)
    ensures Fine(ps[..i + 1], ceiling) <==> ps[i].handlerId !in reg.handlers
  {
    var after := ps[..i + 1];
    assert after == ps[..i] + [ps[i]];
    if ps[i].handlerId in reg.handlers {
      var j :| 0 <= j < i && ps[..i][j].handlerId == ps[i].handlerId;
      assert ps[j].handlerId == ps[i].handlerId;
      assert after[j].handlerId == after[i].handlerId;
    } else {
      forall j | 0 <= j < i ensures after[j].handlerId != after[i].handlerId { assert ps[..i][j] == after[j]; }
    }
  }

  function Added(reg: Registry, p: PendingHandler): Registry {
    Registry(reg.handlers[p.handlerId := p.options],
             reg.byType[p.eventType := World.HandlersFor(reg.byType, p.eventType) + [p.handlerId]])
  }

  lemma {:induction false} ListedOneMore(reg: Registry, ps: seq<PendingHandler>, p: PendingHandler, ty: string)
    requires World.HandlersFor(reg.byType, ty) == IdsOf(ps, ty)
    ensures World.HandlersFor(Added(reg, p).byType, ty) == IdsOf(ps + [p], ty)
  {
    assert (ps + [p])[..|ps|] == ps;
  }

  lemma FiledOneMore(reg: Registry, ps: seq<PendingHandler>, p: PendingHandler, h: string)
    requires Filed(reg, ps) && h in Added(reg, p).handlers
    ensures exists j :: 0 <= j < |ps + [p]| && (ps + [p])[j].handlerId == h
  {
    if h == p.handlerId {
      assert (ps + [p])[|ps|].handlerId == h;
    } else {
      var j :| 0 <= j < |ps| && ps[j].handlerId == h;
      assert (ps + [p])[j].handlerId == h;
    }
  }

  lemma OptionsOneMore(reg: Registry, ps: seq<PendingHandler>, p: PendingHandler)
    requires Filed(reg, ps) && p.handlerId !in reg.handlers
    ensures var reg', all := Added(reg, p), ps + [p];
            forall i :: 0 <= i < |all| ==>
              all[i].handlerId in reg'.handlers && reg'.handlers[all[i].handlerId] == all[i].options
  {
  }

  lemma HoldsOneMore(reg: Registry, ps: seq<PendingHandler>, i: nat)
    requires i < |ps| && Holds(reg, ps[..i]) && ps[i].handlerId !in reg.handlers
    ensures Holds(Added(reg, ps[i]), ps[..i + 1])
  {
    var p, before := ps[i], ps[..i];
    assert ps[..i + 1] == before + [p];
    forall ty ensures World.HandlersFor(Added(reg, p).byType, ty) == IdsOf(before + [p], ty) {
      ListedOneMore(reg, before, p, ty);
    }
    OptionsOneMore(reg, before, p);
    forall h | h in Added(reg, p).handlers
      ensures exists j :: 0 <= j < |before + [p]| && (before + [p])[j].handlerId == h
    {
      FiledOneMore(reg, before, p, h);
    }
  }

  /** The checks of one round of the loop, in their order. */
  function Objection(p: PendingHandler, handlers: map<string, RegisteredHandler>,
                     ceiling: Duration): (bad: Option<BuildError>)
    ensures bad.None? <==> ValidEntry(p, ceiling) && p.handlerId !in handlers
  {
    if p.handlerId == "" then Some(HandlerIdEmpty)
    else if Utf8.Len(p.handlerId) > MAX_HANDLER_ID_BYTES then Some(HandlerIdTooLong(Utf8.Len(p.handlerId)))
    else if p.handlerId in handlers then Some(DuplicateHandlerId(p.eventType, p.handlerId))
    else if p.options.handlerTimeout.Some? && !AboveFloor(p.options.handlerTimeout.value) then Some(TimeoutTooShort)
    else if p.options.handlerTimeout.Some? && p.options.handlerTimeout.value > ceiling then Some(OverrideTooLong)
    else if p.options.concurrencyLimit.Some?
      && (p.options.concurrencyLimit.value == 0 || p.options.concurrencyLimit.value > I32_MAX)
    then Some(BadConcurrencyLimit)
    else None
  }

  lemma RefusalIsReal(reg: Registry, ps: seq<PendingHandler>, i: nat, ceiling: Duration, e: BuildError)
    requires i < |ps| && Fine(ps[..i], ceiling) && Holds(reg, ps[..i])
    requires Objection(ps[i], reg.handlers, ceiling) == Some(e)
    ensures FirstRefused(ps, ceiling, e) && !Fine(ps, ceiling)
  {
    if ps[i].handlerId in reg.handlers {
      var j :| 0 <= j < i && ps[..i][j].handlerId == ps[i].handlerId;
      assert ps[j].handlerId == ps[i].handlerId;
    } else {
      forall j | 0 <= j < i ensures ps[j].handlerId != ps[i].handlerId { assert ps[..i][j] == ps[j]; }
    }
    RefusedHere(ps, i, ceiling, e);
  }

  class OutboxBuilder {
    var config: Option<OutboxConfig>
    var pending: seq<PendingHandler>
    var allowNoHandlers: bool

    constructor ()
      ensures config == None && pending == [] && !allowNoHandlers
    {
      config, pending, allowNoHandlers := None, [], false;
    }

    method Config(cfg: OutboxConfig)
      modifies this
      ensures config == Some(cfg) && pending == old(pending) && allowNoHandlers == old(allowNoHandlers)
    {
      config := Some(cfg);
    }

    method RegisterHandler(eventType: string, handlerId: string, options: RegisteredHandler)
      modifies this
      ensures pending == old(pending) + [PendingHandler(eventType, handlerId, options)]
      ensures config == old(config) && allowNoHandlers == old(allowNoHandlers)
    {
      pending := pending + [PendingHandler(eventType, handlerId, options)];
    }

    method AllowNoHandlers(allow: bool)
      modifies this
      ensures allowNoHandlers == allow && config == old(config) && pending == old(pending)
    {
      allowNoHandlers := allow;
    }

    /** Succeeds exactly when every registration is valid and no handler id occurs twice, and
        then holds exactly the registrations; otherwise the error is about the first bad one. */
    method Build(panic: PanicPolicy) returns (r: Result<Built>)
      ensures var cfg := if config.Some? then config.value else DefaultConfig(panic);
              && (r.Ok? <==> Fine(pending, cfg.handlerTimeout))
              && (r.Ok? ==> r.value.config == cfg && r.value.allowNoHandlers == allowNoHandlers)
              && (r.Ok? ==> Holds(r.value.registry, pending))
              && (r.Err? ==> FirstRefused(pending, cfg.handlerTimeout, r.error))
    {
      var cfg := if config.Some? then config.value else DefaultConfig(panic);
      var handlers: map<string, RegisteredHandler> := map[];
      var byType: map<string, seq<string>> := map[];
      for i := 0 to |pending|
        invariant Fine(pending[..i], cfg.handlerTimeout)
        invariant Holds(Registry(handlers, byType), pending[..i])
      {
        ghost var reg := Registry(handlers, byType);
        var p := pending[i];
        var bad := Objection(p, handlers, cfg.handlerTimeout);
        if bad.Some? {
          RefusalIsReal(reg, pending, i, cfg.handlerTimeout, bad.value);
          return Err(bad.value);
        }
        FineNext(reg, pending, i, cfg.handlerTimeout);
        HoldsOneMore(reg, pending, i);
        byType := byType[p.eventType := (if p.eventType in byType then byType[p.eventType] else []) + [p.handlerId]];
        handlers := handlers[p.handlerId := p.options];
      }
      assert pending[..|pending|] == pending;
      return Ok(Built(cfg, Registry(handlers, byType), allowNoHandlers));
    }
  }

  /** What one more registration needs: it must be valid and its id new; then it is listed last
      under its type and changes no other list. */
  lemma {:induction false} OneMoreRegistration(ps: seq<PendingHandler>, p: PendingHandler, ceiling: Duration,
                                               ty: string)
    ensures Fine(ps + [p], ceiling) <==>
            Fine(ps, ceiling) && ValidEntry(p, ceiling) && forall i :: 0 <= i < |ps| ==> ps[i].handlerId != p.handlerId
    ensures IdsOf(ps + [p], ty) == IdsOf(ps, ty) + if ty == p.eventType then [p.handlerId] else []
  {
    var all := ps + [p];
    assert all[..|ps|] == ps;
    assert forall i :: 0 <= i < |ps| ==> all[i] == ps[i];
    if Fine(all, ceiling) {
      assert ValidEntry(all[|ps|], ceiling);
      forall i | 0 <= i < |ps| ensures ValidEntry(ps[i], ceiling) && ps[i].handlerId != p.handlerId {
        assert ValidEntry(all[i], ceiling) && all[i].handlerId != all[|ps|].handlerId;
      }
    }
  }

  /** `by_type` partitions the registered handlers: each is listed once, under one type. */
  lemma ByTypePartitions(reg: Registry, ps: seq<PendingHandler>, h: string)
    requires Holds(reg, ps) && UniqueIds(ps)
    ensures forall ty :: World.Distinct(World.HandlersFor(reg.byType, ty))
    ensures h in reg.handlers <==> exists ty :: h in World.HandlersFor(reg.byType, ty)
    ensures forall ty, ty' ::
              h in World.HandlersFor(reg.byType, ty) && h in World.HandlersFor(reg.byType, ty') ==> ty == ty'
  {
    forall ty ensures World.Distinct(World.HandlersFor(reg.byType, ty)) { IdsOfDistinct(ps, ty); }
    forall ty
      ensures h in World.HandlersFor(reg.byType, ty) <==>
              exists i :: 0 <= i < |ps| && ps[i].eventType == ty && ps[i].handlerId == h
    {
      IdsOfMember(ps, ty, h);
    }
    if h in reg.handlers {
      var i :| 0 <= i < |ps| && ps[i].handlerId == h;
      assert h in World.HandlersFor(reg.byType, ps[i].eventType);
    }
  }

  /** A built registry is one the interleaved system can start from. */
  lemma BuiltCanStart(reg: Registry, ps: seq<PendingHandler>, cfg: World.Cfg, clock: Time)
    requires Holds(reg, ps) && UniqueIds(ps) && cfg.handlersFor == reg.byType && cfg.maxAttempts >= 1
    ensures World.Init(World.Empty(cfg, clock))
  {
    forall ty | ty in reg.byType ensures World.Distinct(reg.byType[ty]) {
      IdsOfDistinct(ps, ty);
      assert World.HandlersFor(reg.byType, ty) == reg.byType[ty];
    }
  }

  // ---- timeouts ------------------------------------------------------------

  function EffectiveTimeout(o: Built, h: string): Duration
    requires h in o.registry.handlers
  {
    var t := o.registry.handlers[h].handlerTimeout;
    if t.Some? then t.value else o.config.handlerTimeout
  }

  lemma DefaultIsUsable(panic: PanicPolicy)
    ensures Usable(DefaultConfig(panic))
    ensures var cfg := DefaultConfig(panic);
            && cfg.concurrency == 16 && cfg.maxAttempts == 5 && cfg.decodeErrorStrategy == DecodeRetry
            && cfg.leaseTimeout == 300 * SECS && 5 * cfg.handlerTimeout == 4 * cfg.leaseTimeout
  {
  }

  /** For every handler of every outbox that passes `build` under a usable configuration, the
      internal timeout is the one it registered, or else the global one, less 200 ms. So it fires
      first, with the whole cleanup budget to spare before the queue's own, and the 100 ms floor
      never binds. */
  lemma InternalTimeoutFiresFirst(o: Built, ps: seq<PendingHandler>, i: nat)
    requires Usable(o.config) && AllValid(ps, o.config.handlerTimeout) && Holds(o.registry, ps)
    requires i < |ps|
    ensures ps[i].handlerId in o.registry.handlers
    ensures var internal := InternalTimeout(EffectiveTimeout(o, ps[i].handlerId));
            && internal > 200 * MILLIS
            && internal + 200 * MILLIS ==
               (match ps[i].options.handlerTimeout case Some(own) => own case None => o.config.handlerTimeout)
            && internal + 200 * MILLIS <= o.config.handlerTimeout < o.config.leaseTimeout
  {
    assert ValidEntry(ps[i], o.config.handlerTimeout);
  }

  // ---- concurrency limits --------------------------------------------------

  /** The limits `start` passes to the worker. */
  function ConcurrencyLimits(reg: Registry): map<string, U32> {
    map h | h in reg.handlers && reg.handlers[h].concurrencyLimit.Some? :: reg.handlers[h].concurrencyLimit.value
  }

  /** The concurrency key dispatch stamps on a job of handler `h`. */
  function ConcurrencyKey(reg: Registry, h: string): Option<string> {
    if h in reg.handlers && reg.handlers[h].concurrencyLimit.Some? then Some(h) else None
  }

  /** A job carries a key exactly when `start` limits its handler, the key is the one the
      limit is filed under, and the limit is the registered one, at least 1 and within an i32. */
  lemma KeyedIffLimited(reg: Registry, ps: seq<PendingHandler>, ceiling: Duration, h: string)
    requires Holds(reg, ps) && AllValid(ps, ceiling)
    ensures forall i :: 0 <= i < |ps| ==>
              var own := ps[i].options.concurrencyLimit;
              && (ps[i].handlerId in ConcurrencyLimits(reg) <==> own.Some?)
              && (own.Some? ==> ConcurrencyLimits(reg)[ps[i].handlerId] == own.value)
    ensures ConcurrencyKey(reg, h) == (if h in ConcurrencyLimits(reg) then Some(h) else None)
    ensures h in ConcurrencyLimits(reg) ==> 1 <= ConcurrencyLimits(reg)[h] <= I32_MAX
  {
    if h in ConcurrencyLimits(reg) {
      var i :| 0 <= i < |ps| && ps[i].handlerId == h;
      assert ValidEntry(ps[i], ceiling);
    }
  }
}
