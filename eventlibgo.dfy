/**
 * The Go binding of eventlibgo/eventlib.go and eventlibgo/callbacks.go (one
 * Go package): the EventProcessor wrapper with its `closed` flag, the
 * global registry that maps callback IDs back to wrappers, and the
 * adapters that the C engine calls back into. Locks are left out and every
 * operation is sequential; the registry's globals are fields of a Registry
 * object passed to the operations that use them.
 */
module EventLibGo {
  import opened Options
  import opened GoTypes
  import EngineSpec
  import EventLib

  /** Config (the zap logger is left out). */
  datatype Config = Config(name: string, maxQueueSize: int, enableLogging: bool)

  /** Handlers: every handler may be absent. */
  datatype Handlers = Handlers(
    onEvent: Option<EventHandler>,
    onFilter: Option<FilterHandler>,
    onStateChange: Option<StateChangeHandler>)

  const NoHandlers := Handlers(None, None, None)

  const ClosedError := "processor is closed"

  datatype ZapLevel = Debug | Info | Warn | Error

  /** One entry written to the zap logger. */
  datatype ZapEntry = ZapEntry(level: ZapLevel, message: string, fields: seq<(string, string)>)

  // ---------------------------------------------------------------------------
  // Crossing into C

  /** C.size_t(n) for a Go int n: its two's-complement bits read as unsigned. */
  function SizeT(n: int): (r: nat)
    ensures 0 <= n < 0x1_0000_0000_0000_0000 ==> r == n
    ensures -0x1_0000_0000_0000_0000 <= n < 0 ==> r == n + 0x1_0000_0000_0000_0000
  {
    n % 0x1_0000_0000_0000_0000
  }

  /** C.event_type_t(t): the enum is an unsigned 32-bit integer on the C side. */
  function CEnum(t: int): (r: nat)
    ensures r < 0x1_0000_0000
    ensures (t - r) % 0x1_0000_0000 == 0
    ensures 0 <= t < 0x1_0000_0000 ==> r == t
  {
    t % 0x1_0000_0000
  }

  /** The string C sees after C.CString and strdup: everything before the first NUL. */
  function CString(s: string): (c: string)
    ensures c <= s
    ensures '\0' !in c
    ensures |c| < |s| ==> s[|c|] == '\0'
    ensures '\0' !in s ==> c == s
  {
    if s == [] || s[0] == '\0' then [] else [s[0]] + CString(s[1..])
  }

  /** The bytes Push hands over: none for a nil slice. */
  function Payload(ev: Event): seq<bv8> {
    ev.data.GetOr([])
  }

  /** The data pointer Push hands over: NULL for an empty or nil payload, the payload otherwise. */
  function PayloadPtr(ev: Event): (p: Option<seq<bv8>>)
    ensures p.Some? <==> ev.data.Some? && |ev.data.value| > 0
    ensures p.Some? ==> p.value == ev.data.value
  {
    if |Payload(ev)| > 0 then Some(Payload(ev)) else None
  }

  /**
   * The Event the adapters build from a C event_t: GoString of a NULL source
   * is "", and Data stays nil unless the data pointer is non-NULL and
   * data_len is positive; C.GoBytes then copies data_len bytes. A C event
   * always holds at least data_len bytes (EngineSpec.MakeEvent), so the
   * last branch, which keeps a shorter buffer whole, is never taken.
   */
  function ConvertEvent(ce: EngineSpec.Event): (ev: Event)
    ensures ev.kind == ce.kind
    ensures ev.source == ce.source.GetOr("")
    ensures ev.data.Some? <==> ce.data.Some? && ce.dataLen > 0
    ensures ev.data.Some? && ce.dataLen <= |ce.data.value| ==> ev.data.value == ce.data.value[..ce.dataLen]
  {
    Event(ce.kind, ce.source.GetOr(""),
          if ce.data.Some? && ce.dataLen > 0 then
            Some(if ce.dataLen <= |ce.data.value| then ce.data.value[..ce.dataLen] else ce.data.value)
          else None)
  }

  /**
   * What the handlers see of a pushed event: the kind as a 32-bit unsigned
   * value, the source up to its first NUL, and a payload that is nil when
   * it was empty. An event with none of these three features comes back
   * exactly as it was pushed.
   */
  lemma PushedEventRoundTrip(ev: Event)
    ensures var back := ConvertEvent(EngineSpec.MakeEvent(CEnum(ev.kind), Some(CString(ev.source)), PayloadPtr(ev), |Payload(ev)|));
      && back.kind == CEnum(ev.kind)
      && back.source == CString(ev.source)
      && back.data == (if Payload(ev) == [] then None else Some(Payload(ev)))
      && (0 <= ev.kind < 0x1_0000_0000 && '\0' !in ev.source && ev.data != Some([]) ==> back == ev)
  {
    var p := Payload(ev);
    if |p| > 0 {
      assert p[..|p|] == p;
    }
  }

  /**
   * The verdict of goHandleFilter once the wrapper is found: allow, unless a
   * filter handler is set and returns false. A missing handler or a panic
   * allows (fails open).
   */
  function FilterAllows(h: Handlers, ev: Event): (allow: bool)
    ensures !allow <==> h.onFilter.Some? && h.onFilter.value(ev) == Returned(false)
  {
    if h.onFilter.None? then true
    else
      match h.onFilter.value(ev)
      case Panicked(_) => true
      case Returned(b) => b
  }

  /** The event_config_t of create_processor_go, for the given wrapper configuration and handlers. */
  ghost predicate ConfiguredFor(ec: EngineSpec.Config, c: Config, h: Handlers) {
    && ec.name == Some(CString(c.name))
    && ec.maxQueueSize == SizeT(c.maxQueueSize)
    && ec.enableLogging == c.enableLogging
    && ec.hasOnEvent && ec.hasOnLog && ec.hasOnStateChange
    && ec.onFilter.Some?
    && forall ce :: ec.onFilter.value(ce) == FilterAllows(h, ConvertEvent(ce))
  }

  /**
   * create_processor_go: all four callbacks are set. The filter is the one
   * goHandleFilter applies once the registry lookup has found this wrapper.
   */
  function EngineConfig(c: Config, h: Handlers): (ec: EngineSpec.Config)
    ensures ConfiguredFor(ec, c, h)
  {
    EngineSpec.Config(Some(CString(c.name)), SizeT(c.maxQueueSize), c.enableLogging,
                      true, true, Some(ce => FilterAllows(h, ConvertEvent(ce))), true)
  }

  // ---------------------------------------------------------------------------
  // The registry (callbackMap, nextCallbackID)

  class Registry {
    var callbackMap: map<int, EventProcessor>
    var nextCallbackID: int

    /**
     * Every registered ID was issued before nextCallbackID, and no wrapper
     * is registered under two IDs.
     */
    ghost predicate Valid()
      reads this
    {
      && 0 <= nextCallbackID
      && (forall id :: id in callbackMap ==> 0 <= id < nextCallbackID)
      && (forall i, j :: i in callbackMap && j in callbackMap && callbackMap[i] == callbackMap[j] ==> i == j)
    }

    constructor ()
      ensures Valid() && callbackMap == map[] && nextCallbackID == 0
    {
      callbackMap := map[];
      nextCallbackID := 0;
    }
  }

  /** getProcessor: the registered wrapper, or nil. */
  function GetProcessor(m: map<int, EventProcessor>, id: int): (ep: EventProcessor?)
    ensures ep != null <==> id in m
    ensures id in m ==> ep == m[id]
  {
    if id in m then m[id] else null
  }

  /**
   * What the ID loop of Close does to the registry: it deletes the first
   * entry it finds for the wrapper, and nothing else.
   */
  ghost predicate RemovedFirstMatch(m: map<int, EventProcessor>, m': map<int, EventProcessor>, ep: EventProcessor) {
    if exists id :: id in m && m[id] == ep
    then exists id :: id in m && m[id] == ep && m' == m - {id}
    else m' == m
  }

  /** `m'` is `m` without the entries that map to `ep`. */
  ghost predicate Unregistered(m: map<int, EventProcessor>, m': map<int, EventProcessor>, ep: EventProcessor) {
    && (forall id :: id in m' <==> id in m && m[id] != ep)
    && (forall id :: id in m' ==> m'[id] == m[id])
  }

  /**
   * The ID loop of Close: it deletes the first entry it meets that maps to
   * `ep`. Go ranges over the map in no fixed order; this loop visits the
   * IDs in ascending order, which is one of those orders. As the registry
   * holds each wrapper under at most one ID, the order does not matter.
   */
  method Unregister(registry: Registry, ep: EventProcessor)
    requires registry.Valid()
    modifies registry`callbackMap
    ensures registry.Valid()
    ensures RemovedFirstMatch(old(registry.callbackMap), registry.callbackMap, ep)
    ensures Unregistered(old(registry.callbackMap), registry.callbackMap, ep)
  {
    var id := 0;
    while id < registry.nextCallbackID
      invariant 0 <= id <= registry.nextCallbackID
      invariant registry.callbackMap == old(registry.callbackMap)
      invariant forall k :: k in registry.callbackMap && k < id ==> registry.callbackMap[k] != ep
    {
      if id in registry.callbackMap && registry.callbackMap[id] == ep {
        registry.callbackMap := registry.callbackMap - {id};
        return;
      }
      id := id + 1;
    }
  }

  // ---------------------------------------------------------------------------
  // The wrapper

  class EventProcessor {
    var cptr: EventLib.Processor?
    const config: Config
    const handlers: Handlers
    var closed: bool

    /** Open: it owns a live engine. Closed: the engine is gone and cptr is nil. */
    ghost predicate Valid()
      reads this, cptr
    {
      && (closed ==> cptr == null)
      && (!closed ==> cptr != null && cptr.Valid())
    }

    constructor (config: Config, handlers: Handlers)
      ensures this.config == config && this.handlers == handlers
      ensures cptr == null && !closed
    {
      this.config := config;
      this.handlers := handlers;
      cptr := null;
      closed := false;
    }

    /** Start */
    method Start() returns (err: Option<string>)
      requires Valid()
      modifies cptr
      ensures Valid()
      ensures closed ==> err == Some(ClosedError)
      ensures !closed ==> err == None
      ensures !closed ==> cptr.View() == EngineSpec.ChangeState(cptr.config, old(cptr.View()), EngineSpec.Running).next
      ensures !closed ==> cptr.trace == old(cptr.trace) + EngineSpec.ChangeState(cptr.config, old(cptr.View()), EngineSpec.Running).effects
    {
      if closed {
        return Some(ClosedError);
      }
      cptr.Start();
      return None;
    }

    /** Stop */
    method Stop() returns (err: Option<string>)
      requires Valid()
      modifies cptr
      ensures Valid()
      ensures closed ==> err == Some(ClosedError)
      ensures !closed ==> err == None
      ensures !closed ==> cptr.View() == EngineSpec.ChangeState(cptr.config, old(cptr.View()), EngineSpec.Stopped).next
      ensures !closed ==> cptr.trace == old(cptr.trace) + EngineSpec.ChangeState(cptr.config, old(cptr.View()), EngineSpec.Stopped).effects
    {
      if closed {
        return Some(ClosedError);
      }
      cptr.Stop();
      return None;
    }

    /**
     * Push: an error exactly when the engine rejects the event (a full
     * queue); an event the filter drops is reported as success.
     */
    method Push(event: Event) returns (err: Option<string>)
      requires Valid()
      modifies cptr
      ensures Valid()
      ensures closed ==> err == Some(ClosedError)
      ensures !closed ==>
        var r := EngineSpec.Push(cptr.config, old(cptr.View()), CEnum(event.kind), Some(CString(event.source)),
                                 PayloadPtr(event), |Payload(event)|);
        && (err == None <==> r.0)
        && (err != None ==> err == Some("failed to push event"))
        && cptr.View() == r.1.next
        && cptr.trace == old(cptr.trace) + r.1.effects
    {
      if closed {
        return Some(ClosedError);
      }
      var success := cptr.Push(CEnum(event.kind), Some(CString(event.source)), PayloadPtr(event), |Payload(event)|);
      if !success {
        return Some("failed to push event");
      }
      return None;
    }

    /** Process */
    method Process()
      requires Valid()
      modifies cptr
      ensures Valid()
      ensures !closed ==> cptr.View() == EngineSpec.Process(cptr.config, old(cptr.View())).next
      ensures !closed ==> cptr.trace == old(cptr.trace) + EngineSpec.Process(cptr.config, old(cptr.View())).effects
    {
      if closed {
        return;
      }
      cptr.Process();
    }

    /** ProcessAll, over the engine's process_all with its corrected guard. */
    method ProcessAll()
      requires Valid()
      modifies cptr
      ensures Valid()
      ensures !closed ==> cptr.View() == EngineSpec.ProcessAll(cptr.config, old(cptr.View())).next
      ensures !closed ==> cptr.trace == old(cptr.trace) + EngineSpec.ProcessAll(cptr.config, old(cptr.View())).effects
    {
      if closed {
        return;
      }
      cptr.ProcessAll();
    }

    /** QueueSize: 0 once closed, the engine's queue length before. */
    function QueueSize(): (n: int)
      requires Valid()
      reads this, cptr
      ensures closed ==> n == 0
      ensures !closed ==> n == |cptr.queue|
    {
      if closed then 0 else EventLib.QueueSizeOf(cptr)
    }

    /** EventsProcessed: 0 once closed, the engine's counter before. */
    function EventsProcessed(): (n: int)
      requires Valid()
      reads this, cptr
      ensures closed ==> n == 0
      ensures !closed ==> n == cptr.View().processed
    {
      if closed then 0 else EventLib.EventsProcessedOf(cptr)
    }

    /** State: "CLOSED" exactly when closed, the engine's state name otherwise. */
    function State(): (s: string)
      requires Valid()
      reads this, cptr
      ensures s == "CLOSED" <==> closed
      ensures !closed ==> s == EngineSpec.StateName(cptr.state)
    {
      if closed then "CLOSED" else EventLib.StateOf(cptr)
    }

    /**
     * Close: the first call destroys the engine, drops cptr and removes the
     * wrapper's registry entry; any later call does nothing. Never fails.
     */
    method Close(registry: Registry) returns (err: Option<string>)
      requires Valid() && registry.Valid()
      modifies this, registry, cptr
      ensures Valid() && registry.Valid() && closed && cptr == null && err == None
      ensures registry.nextCallbackID == old(registry.nextCallbackID)
      ensures old(closed) ==> registry.callbackMap == old(registry.callbackMap)
      ensures !old(closed) ==> RemovedFirstMatch(old(registry.callbackMap), registry.callbackMap, this)
      ensures !old(closed) ==> Unregistered(old(registry.callbackMap), registry.callbackMap, this)
      ensures !old(closed) ==>
        && old(cptr).View() == EngineSpec.Destroy(old(cptr).config, old(cptr.View())).next
        && old(cptr).trace == old(cptr.trace) + EngineSpec.Destroy(old(cptr).config, old(cptr.View())).effects
    {
      if closed {
        return None;
      }
      closed := true;
      if cptr != null {
        cptr.Destroy();
        cptr := null;
      }
      Unregister(registry, this);
      return None;
    }
  }

  /**
   * New: a nil config is an error; nil handlers become empty ones. The
   * wrapper is registered under nextCallbackID, which is then advanced,
   * before the engine is created; if creation fails, the entry is removed
   * again (the ID stays used).
   */
  method New(config: Option<Config>, handlers: Option<Handlers>, registry: Registry, memoryAvailable: bool)
    returns (r: Result<EventProcessor, string>)
    requires registry.Valid()
    modifies registry
    ensures registry.Valid()
    ensures config.None? ==>
      && r == Failure("config cannot be nil")
      && registry.callbackMap == old(registry.callbackMap)
      && registry.nextCallbackID == old(registry.nextCallbackID)
    ensures config.Some? ==> registry.nextCallbackID == old(registry.nextCallbackID) + 1
    ensures config.Some? && !memoryAvailable ==>
      r == Failure("failed to create processor") && registry.callbackMap == old(registry.callbackMap)
    ensures config.Some? && memoryAvailable ==>
      && r.Success? && fresh(r.value) && fresh(r.value.cptr)
      && r.value.Valid() && !r.value.closed
      && r.value.config == config.value && r.value.handlers == handlers.GetOr(NoHandlers)
      && ConfiguredFor(r.value.cptr.config, config.value, handlers.GetOr(NoHandlers))
      && r.value.cptr.View() == EngineSpec.Engine(EngineSpec.Idle, [], 0)
      && old(registry.nextCallbackID) !in old(registry.callbackMap)
      && registry.callbackMap == old(registry.callbackMap)[old(registry.nextCallbackID) := r.value]
  {
    if config.None? {
      return Failure("config cannot be nil");
    }
    var h := handlers.GetOr(NoHandlers);
    var ep := new EventProcessor(config.value, h);
    var callbackID := registry.nextCallbackID;
    registry.nextCallbackID := registry.nextCallbackID + 1;
    registry.callbackMap := registry.callbackMap[callbackID := ep];
    var engine := EventLib.Create(Some(EngineConfig(config.value, h)), memoryAvailable);
    if engine == null {
      registry.callbackMap := registry.callbackMap - {callbackID};
      assert registry.callbackMap == old(registry.callbackMap);
      return Failure("failed to create processor");
    }
    ep.cptr := engine;
    return Success(ep);
  }

  // ---------------------------------------------------------------------------
  // The adapters the C engine calls (through the cgo trampolines)

  /**
   * goHandleEvent: nothing happens without a registered wrapper with an
   * event handler; otherwise the handler is called once with the converted
   * event, and a panic is caught and logged at Error with the event type.
   */
  method HandleEvent(registry: Registry, id: int, ce: EngineSpec.Event)
    returns (called: Option<Event>, logged: seq<ZapEntry>)
    ensures var ep := GetProcessor(registry.callbackMap, id);
      ep == null || ep.handlers.onEvent.None? ==> called == None && logged == []
    ensures var ep := GetProcessor(registry.callbackMap, id);
      ep != null && ep.handlers.onEvent.Some? ==>
        && called == Some(ConvertEvent(ce))
        && (logged == [] <==> ep.handlers.onEvent.value(ConvertEvent(ce)).Returned?)
        && (logged != [] ==> |logged| == 1 && logged[0].level == Error
                             && ("panic", ep.handlers.onEvent.value(ConvertEvent(ce)).reason) in logged[0].fields
                             && ("event_type", TypeName(ce.kind)) in logged[0].fields)
  {
    var ep := GetProcessor(registry.callbackMap, id);
    if ep == null || ep.handlers.onEvent.None? {
      return None, [];
    }
    var event := ConvertEvent(ce);
    called := Some(event);
    logged := [];
    var outcome := ep.handlers.onEvent.value(event);
    if outcome.Panicked? {
      logged := [ZapEntry(Error, "Panic in event handler",
                          [("panic", outcome.reason), ("event_type", TypeName(event.kind))])];
    }
  }

  /**
   * goHandleFilter: 1 (allow) without a registered wrapper or without a
   * filter handler, and when the handler panics (the panic is logged once,
   * at Error, with its value);
   * otherwise 1 exactly when the handler returns true.
   */
  method HandleFilter(registry: Registry, id: int, ce: EngineSpec.Event)
    returns (allow: int, logged: seq<ZapEntry>)
    ensures allow == 0 || allow == 1
    ensures var ep := GetProcessor(registry.callbackMap, id);
      ep == null || ep.handlers.onFilter.None? ==> allow == 1 && logged == []
    ensures var ep := GetProcessor(registry.callbackMap, id);
      ep != null ==> (allow == 1 <==> FilterAllows(ep.handlers, ConvertEvent(ce)))
    ensures var ep := GetProcessor(registry.callbackMap, id);
      ep != null && ep.handlers.onFilter.Some? ==>
        && (logged != [] <==> ep.handlers.onFilter.value(ConvertEvent(ce)).Panicked?)
        && (logged != [] ==> |logged| == 1 && logged[0].level == Error
                             && ("panic", ep.handlers.onFilter.value(ConvertEvent(ce)).reason) in logged[0].fields)
  {
    var ep := GetProcessor(registry.callbackMap, id);
    if ep == null || ep.handlers.onFilter.None? {
      return 1, [];
    }
    var event := ConvertEvent(ce);
    var allowed := true;
    logged := [];
    match ep.handlers.onFilter.value(event) {
      case Panicked(reason) =>
        logged := [ZapEntry(Error, "Panic in filter handler", [("panic", reason)])];
        allowed := true;
      case Returned(b) =>
        allowed := b;
    }
    allow := if allowed then 1 else 0;
  }

  /**
   * goHandleStateChange: nothing happens without a registered wrapper with a
   * state-change handler; otherwise the handler is called once with the two
   * names, and a panic is caught and logged once, at Error, with its value.
   */
  method HandleStateChange(registry: Registry, id: int, oldState: string, newState: string)
    returns (called: Option<(string, string)>, logged: seq<ZapEntry>)
    ensures var ep := GetProcessor(registry.callbackMap, id);
      ep == null || ep.handlers.onStateChange.None? ==> called == None && logged == []
    ensures var ep := GetProcessor(registry.callbackMap, id);
      ep != null && ep.handlers.onStateChange.Some? ==>
        && called == Some((oldState, newState))
        && (logged == [] <==> ep.handlers.onStateChange.value(oldState, newState).Returned?)
        && (logged != [] ==> |logged| == 1 && logged[0].level == Error
                             && ("panic", ep.handlers.onStateChange.value(oldState, newState).reason) in logged[0].fields)
  {
    var ep := GetProcessor(registry.callbackMap, id);
    if ep == null || ep.handlers.onStateChange.None? {
      return None, [];
    }
    called := Some((oldState, newState));
    logged := [];
    var outcome := ep.handlers.onStateChange.value(oldState, newState);
    if outcome.Panicked? {
      logged := [ZapEntry(Error, "Panic in state change handler", [("panic", outcome.reason)])];
    }
  }

  predicate KnownLevel(level: string) {
    level == "DEBUG" || level == "INFO" || level == "WARN" || level == "ERROR"
  }

  /** The zap level goHandleLog uses: the matching one, or Info for an unknown level string. */
  function LevelFor(level: string): (z: ZapLevel)
    ensures z == Debug <==> level == "DEBUG"
    ensures z == Warn <==> level == "WARN"
    ensures z == Error <==> level == "ERROR"
    ensures z == Info <==> level == "INFO" || !KnownLevel(level)
  {
    match level
    case "DEBUG" => Debug
    case "INFO" => Info
    case "WARN" => Warn
    case "ERROR" => Error
    case _ => Info
  }

  /**
   * goHandleLog: without a registered wrapper nothing is logged; otherwise
   * exactly one entry, with the message, at the mapped level, and carrying
   * the original level string when it is not one of the four known ones.
   */
  function HandleLog(registry: Registry, id: int, level: string, message: string): (logged: seq<ZapEntry>)
    reads registry
    ensures GetProcessor(registry.callbackMap, id) == null ==> logged == []
    ensures GetProcessor(registry.callbackMap, id) != null ==>
      && |logged| == 1
      && logged[0].message == message
      && logged[0].level == LevelFor(level)
      && (logged[0].fields == [] <==> KnownLevel(level))
      && (!KnownLevel(level) ==> ("level", level) in logged[0].fields)
  {
    if GetProcessor(registry.callbackMap, id) == null then []
    else if KnownLevel(level) then [ZapEntry(LevelFor(level), message, [])]
    else [ZapEntry(Info, message, [("level", level)])]
  }
}
