/**
 * The event processor of eventlib/eventlib.c as an object whose fields are
 * updated in place. The linked queue from queue_head to queue_tail is the
 * sequence `queue`; `queueSize` is the separately maintained counter, and
 * Valid() states that the two agree and that a bounded queue stays within
 * its bound. `trace` records every callback invocation in order.
 *
 * Each method is proved to take the object from View() to the next engine
 * of the matching EngineSpec function and to append exactly that
 * function's effects to the trace.
 */
module EventLib {
  import opened Options
  import opened EngineSpec

  class Processor {
    const config: Config
    var state: Lifecycle
    var queue: seq<Event>
    var queueSize: nat
    var eventsProcessed: nat
    var trace: seq<Effect>

    ghost predicate Valid()
      reads this
    {
      && queueSize == |queue|
      && (config.maxQueueSize > 0 ==> queueSize <= config.maxQueueSize)
    }

    /** The abstract engine this object stands for. */
    function View(): Engine
      reads this
    {
      Engine(state, queue, eventsProcessed)
    }

    /** The initialisation part of event_processor_create. */
    constructor (cfg: Config)
      ensures Valid() && config == cfg
      ensures View() == EngineSpec.Create(cfg).next && trace == EngineSpec.Create(cfg).effects
    {
      config := cfg;
      state := Idle;
      queue := [];
      queueSize := 0;
      eventsProcessed := 0;
      trace := [];
      new;
      LogMessage("INFO", Created(NameOr(cfg.name)));
    }

    /** log_message */
    method LogMessage(level: string, msg: LogMsg)
      modifies this`trace
      ensures trace == old(trace) + Log(config, level, msg)
    {
      if !config.enableLogging || !config.hasOnLog {
        return;
      }
      trace := trace + [Logged(level, msg)];
    }

    /** change_state */
    method ChangeState(newState: Lifecycle)
      requires Valid()
      modifies this`state, this`trace
      ensures Valid()
      ensures View() == EngineSpec.ChangeState(config, old(View()), newState).next
      ensures trace == old(trace) + EngineSpec.ChangeState(config, old(View()), newState).effects
    {
      if state == newState {
        return;
      }
      var oldName := StateName(state);
      var newName := StateName(newState);
      LogMessage("INFO", StateChange(oldName, newName));
      state := newState;
      if config.hasOnStateChange {
        trace := trace + [StateChanged(oldName, newName, state)];
      }
    }

    /** event_processor_push */
    method Push(kind: int, source: Option<string>, data: Option<seq<Byte>>, len: nat) returns (ok: bool)
      requires Valid()
      requires data.Some? ==> len <= |data.value|
      modifies this`queue, this`queueSize, this`trace
      ensures Valid()
      ensures ok == EngineSpec.Push(config, old(View()), kind, source, data, len).0
      ensures View() == EngineSpec.Push(config, old(View()), kind, source, data, len).1.next
      ensures trace == old(trace) + EngineSpec.Push(config, old(View()), kind, source, data, len).1.effects
    {
      if config.maxQueueSize > 0 && queueSize >= config.maxQueueSize {
        LogMessage("WARN", QueueFull(queueSize));
        return false;
      }
      var node := MakeEvent(kind, source, data, len);
      if config.onFilter.Some? {
        if !config.onFilter.value(node) {
          LogMessage("DEBUG", FilteredOut);
          return true;
        }
      }
      queue := queue + [node];
      queueSize := queueSize + 1;
      LogMessage("DEBUG", Queued(kind, queueSize));
      ok := true;
    }

    /** event_processor_process */
    method Process()
      requires Valid()
      modifies this`queue, this`queueSize, this`eventsProcessed, this`trace
      ensures Valid()
      ensures View() == EngineSpec.Process(config, old(View())).next
      ensures trace == old(trace) + EngineSpec.Process(config, old(View())).effects
    {
      if queue == [] {
        return;
      }
      if state != Running {
        LogMessage("WARN", NotRunning);
        return;
      }
      var node := queue[0];
      queue := queue[1..];
      queueSize := queueSize - 1;
      LogMessage("DEBUG", Processing(node.kind));
      if config.hasOnEvent {
        trace := trace + [Delivered(node, queueSize, eventsProcessed)];
      }
      eventsProcessed := eventsProcessed + 1;
    }

    /**
     * event_processor_process_all with the exit it evidently needs: the loop
     * also stops after a call that consumed nothing, which happens exactly
     * when the processor is not running (the loop as written is
     * EngineSpec.ProcessAllAsWritten).
     */
    method ProcessAll()
      requires Valid()
      modifies this`queue, this`queueSize, this`eventsProcessed, this`trace
      ensures Valid()
      ensures View() == EngineSpec.ProcessAll(config, old(View())).next
      ensures trace == old(trace) + EngineSpec.ProcessAll(config, old(View())).effects
    {
      ghost var e0 := View();
      ghost var d0 := Drain(config, e0);
      ghost var t0 := trace;
      var count := 0;
      while queue != []
        invariant Valid()
        invariant Drain(config, View()).1.next == d0.1.next
        invariant count + Drain(config, View()).0 == d0.0
        invariant trace + Drain(config, View()).1.effects == t0 + d0.1.effects
        decreases |queue|
      {
        ghost var before := View();
        ghost var t := trace;
        var sizeBefore := queueSize;
        Process();
        if queueSize == sizeBefore {
          DrainStall(config, before);
          break;
        }
        DrainStep(config, before);
        AppendAssoc(t, EngineSpec.Process(config, before).effects, Drain(config, View()).1.effects);
        count := count + 1;
      }
      if queue == [] {
        DrainDone(config, View());
        assert trace + [] == trace;
      }
      ghost var tail := if count > 0 then Log(config, "INFO", ProcessedCount(count)) else [];
      assert EngineSpec.ProcessAll(config, e0) == Step(d0.1.next, d0.1.effects + tail);
      if count > 0 {
        LogMessage("INFO", ProcessedCount(count));
      }
      AppendAssoc(t0, d0.1.effects, tail);
    }

    /** event_processor_clear_queue */
    method ClearQueue()
      requires Valid()
      modifies this`queue, this`queueSize, this`trace
      ensures Valid()
      ensures View() == Clear(config, old(View())).next
      ensures trace == old(trace) + Clear(config, old(View())).effects
    {
      var cleared := 0;
      while queue != []
        invariant cleared + |queue| == |old(queue)|
        invariant trace == old(trace)
        decreases |queue|
      {
        queue := queue[1..];
        cleared := cleared + 1;
      }
      queueSize := 0;
      if cleared > 0 {
        LogMessage("INFO", Cleared(cleared));
      }
    }

    /** event_processor_start */
    method Start()
      requires Valid()
      modifies this`state, this`trace
      ensures Valid()
      ensures View() == EngineSpec.ChangeState(config, old(View()), Running).next
      ensures trace == old(trace) + EngineSpec.ChangeState(config, old(View()), Running).effects
    {
      ChangeState(Running);
    }

    /** event_processor_stop */
    method Stop()
      requires Valid()
      modifies this`state, this`trace
      ensures Valid()
      ensures View() == EngineSpec.ChangeState(config, old(View()), Stopped).next
      ensures trace == old(trace) + EngineSpec.ChangeState(config, old(View()), Stopped).effects
    {
      ChangeState(Stopped);
    }

    /** event_processor_destroy, up to releasing the memory. */
    method Destroy()
      requires Valid()
      modifies this`queue, this`queueSize, this`trace
      ensures Valid()
      ensures View() == EngineSpec.Destroy(config, old(View())).next
      ensures trace == old(trace) + EngineSpec.Destroy(config, old(View())).effects
    {
      LogMessage("INFO", Destroying(NameOr(config.name)));
      ClearQueue();
    }
  }

  /**
   * event_processor_create: NULL for a NULL config, and NULL when the
   * allocation of the processor fails (`memoryAvailable` is false).
   */
  method Create(config: Option<Config>, memoryAvailable: bool) returns (p: Processor?)
    ensures p == null <==> config.None? || !memoryAvailable
    ensures p != null ==> fresh(p) && p.Valid() && p.config == config.value
    ensures p != null ==> p.View() == Engine(Idle, [], 0) && p.trace == EngineSpec.Create(config.value).effects
  {
    if config.None? {
      return null;
    }
    if !memoryAvailable {
      return null;
    }
    p := new Processor(config.value);
  }

  /** event_processor_get_state: "INVALID" for a NULL processor, a state name otherwise. */
  function StateOf(p: Processor?): (name: string)
    reads p
    ensures name == "INVALID" <==> p == null
    ensures p != null ==> name == StateName(p.state)
  {
    if p == null then "INVALID" else StateName(p.state)
  }

  /** event_processor_queue_size: 0 for a NULL processor, the queue's length otherwise. */
  function QueueSizeOf(p: Processor?): (n: nat)
    reads p
    ensures p == null ==> n == 0
    ensures p != null && p.Valid() ==> n == |p.queue|
    ensures p != null && p.Valid() && p.config.maxQueueSize > 0 ==> n <= p.config.maxQueueSize
  {
    if p == null then 0 else p.queueSize
  }

  /** event_processor_events_processed: 0 for a NULL processor. */
  function EventsProcessedOf(p: Processor?): (n: nat)
    reads p
    ensures p == null ==> n == 0
    ensures p != null ==> n == p.View().processed
  {
    if p == null then 0 else p.eventsProcessed
  }
}
