# eventlib in Dafny

This project models **eventlib**, a small event-processing engine written in C, together with its Go binding.

The engine (`eventlib/eventlib.c`) owns:
- a FIFO queue of events, which is a linked list with a separately kept size counter;
- a lifecycle of IDLE, RUNNING and STOPPED;
- a counter of processed events;
- four optional callbacks: event, log, filter and state change.

A push checks capacity, copies the event, asks the filter, then appends at the tail. Process removes the head only when RUNNING, hands it to the event callback, then counts it. Clear drops every queued event without dispatching it. Start and stop change the state, and notify only on a real change.

The Go binding (`eventlibgo/`) has three parts:
- a wrapper with a `closed` flag around one engine;
- a global registry that maps callback IDs back to wrappers;
- the adapters the engine calls into. They convert events, fail open when the filter panics, and map log levels.

## Files

- `options.dfy`: module `Options`, holding `Option` and `Result`.
- `engine_spec.dfy`: module `EngineSpec`, a functional specification of the engine.
  - An `Engine` value holds state, queue and counter.
  - Every operation maps an engine to a `Step`: the next engine plus the callback invocations made on the way, in order.
  - Callback invocations are `Effect`s: `Logged`, `Delivered` and `StateChanged`.
  - The lemmas hold for one call or for any sequence of calls (`Run`): FIFO order, capacity, counting, and the callback rules.
- `eventlib.dfy`: module `EventLib`, the engine as a class `Processor`.
  - Its fields are updated in place: `state`, `queue`, `queueSize`, `eventsProcessed` and the callback `trace`.
  - Each method is proved to move `View()` to the next engine of the matching `EngineSpec` function, and to append exactly that function's effects to `trace`.
  - `Valid()` states that `queueSize` equals the queue length and that a bounded queue stays within its bound.
- `go_types.dfy`: module `GoTypes`, covering `eventlibgo/types.go`: the event type constants and names, the Go `Event`, and the handler types. A handler call ends in an `Outcome`, which is `Returned(v)` or `Panicked(reason)`.
- `eventlibgo.dfy`: module `EventLibGo`, covering `eventlibgo/eventlib.go` and `eventlibgo/callbacks.go`.
  - These two files form one Go package: the registry refers to wrappers and the adapters read the registry.
  - The wrapper `EventProcessor` holds an `EventLib.Processor?`.
  - The registry is a `Registry` object with `callbackMap` and `nextCallbackID`.

## Model

| member | source | states |
|---|---|---|
| EngineSpec.StateName | eventlib/eventlib.c:53-66 | each lifecycle state has its own name, and the name determines the state |
| EngineSpec.Log | eventlib/eventlib.c:69-83 | the log callback is reached exactly when logging is enabled and the log callback is set; it is then called once, with the level and message |
| EngineSpec.MakeEvent | eventlib/eventlib.c:176-196 | the queued node keeps the type, source and length; payload bytes are copied only for a non-NULL pointer and a positive length, and then exactly the first `len` bytes |
| EngineSpec.Create | eventlib/eventlib.c:105-133 | a new engine is IDLE, with an empty queue and a zero counter; creation calls only the log callback, with exactly one INFO "created" entry naming the processor (or "unnamed") when logging is on |
| EngineSpec.Push | eventlib/eventlib.c:154-227 | success iff the queue is not full; a full queue changes nothing, even for events the filter would drop; when not full, the event is appended at the tail iff the filter admits it; state and counter are unchanged; only logs are emitted: a WARN "queue full" with the size, a DEBUG "filtered out", or a DEBUG "queued" with the type and new size, one per branch |
| EngineSpec.Process | eventlib/eventlib.c:230-264 | no-op on an empty queue or when not RUNNING; otherwise exactly the head is removed, delivered once if the event callback is set, and the counter rises by 1; an empty queue emits nothing, a non-RUNNING one exactly the WARN "not running", and a dispatch starts with the DEBUG "processing" entry for the head's type |
| EngineSpec.ProcessObservations | eventlib/eventlib.c:241-258 | the event callback sees the queue size after removal and the counter before its increment; process never notifies a state change |
| EngineSpec.Drain | eventlib/eventlib.c:272-277 | the corrected loop, which also stops after a call that consumed nothing: when RUNNING it empties the queue, counts one turn per queued event and raises the counter by the initial length; otherwise the engine is unchanged, and a non-empty queue draws the "not running" warning exactly once |
| EngineSpec.DrainFacts | eventlib/eventlib.c:272-277 | the corrected loop delivers exactly the queued events, in queue order, when RUNNING, and nothing otherwise; it never notifies a state change, and never logs while logging is off |
| EngineSpec.ProcessAll | eventlib/eventlib.c:267-283 | corrected process_all: the state is kept; when RUNNING the queue ends empty and the counter rises by the initial queue length; otherwise the engine is unchanged; a RUNNING, non-empty run ends with the INFO "processed" entry giving the number of events |
| EngineSpec.ProcessAllSpec | eventlib/eventlib.c:267-283 | the callbacks of corrected process_all: when not RUNNING, only the "not running" warning, once, and only on a non-empty queue; when RUNNING, every queued event is delivered in insertion order (if on_event is set); never a state-change notification; no log while logging is off |
| EngineSpec.ProcessAllAsWritten | eventlib/eventlib.c:272-277 | the loop as written, cut off after `fuel` turns: it only ever stops early on an empty queue |
| EngineSpec.AsWrittenNeverExits | eventlib/eventlib.c:272-277 | as written, with a non-empty queue and a processor that is not RUNNING, every turn leaves the engine unchanged and the loop uses all its fuel, so it never exits |
| EngineSpec.AsWrittenHangsOnIdle | eventlib/eventlib.c:267-283 | concrete witness: an IDLE engine with one event keeps it after any number of turns, while the corrected version leaves the engine unchanged and logs the warning once |
| EngineSpec.AsWrittenAgreesWhenRunning | eventlib/eventlib.c:267-283 | when RUNNING, the loop as written and the corrected loop compute the same result |
| EngineSpec.Clear | eventlib/eventlib.c:316-340 | the queue becomes empty; state and counter are unchanged; nothing is delivered; the only effect is the INFO "cleared" entry with the number of removed events, and only when some were removed |
| EngineSpec.Destroy | eventlib/eventlib.c:136-151 | destroy logs, then clears: the queue becomes empty; state and counter are unchanged; the effects are the INFO "destroying" entry naming the processor, followed by those of clear |
| EngineSpec.ChangeState | eventlib/eventlib.c:86-102 | the state becomes the target, and queue and counter are unchanged; nothing happens when the state is already the target; otherwise the effects start with the INFO "state change" entry with both names, and the state-change callback is called once with the old and new names, and it sees the state already updated |
| EngineSpec.ChangeStateTwiceNotifiesOnce | eventlib/eventlib.c:302-314 | a second start (or stop) in a row does nothing, so the pair notifies at most once, and only on a real change |
| EngineSpec.ApplyFacts | eventlib/eventlib.c:154-340 | per call, for every configuration: the counter rises by the number of events taken off the queue; on_event receives exactly those when set, and nothing otherwise; taken plus queued equals queued plus admitted (a clear drops events instead); the bound is kept; notifications are real changes; nothing is logged while logging is off |
| EngineSpec.RunCountsDeliveries | eventlib/eventlib.c:248-258 | over any sequence of calls and for every configuration, the counter rises by exactly the number of events taken off the queue; on_event receives exactly those events, in order, when set, and nothing otherwise |
| EngineSpec.RunFifo | eventlib/eventlib.c:211-222 | FIFO, for every configuration: without a clear, the events taken off the queue, followed by those still queued, are the initially queued events followed by every admitted event, in push order |
| EngineSpec.RunDeliversInOrder | eventlib/eventlib.c:241-256 | FIFO as on_event sees it: with on_event set and no clear, the events it received, followed by those still queued, are the initially queued events followed by every admitted event |
| EngineSpec.RunConservesEvents | eventlib/eventlib.c:241-248 | no event is taken off the queue twice: taken plus still queued never exceeds initially queued plus admitted |
| EngineSpec.RejectingFilterAdmitsNothing | eventlib/eventlib.c:198-209 | a filter that drops everything admits nothing over any sequence of calls: taken plus still queued never exceeds the initial queue |
| EngineSpec.RunKeepsCapacity | eventlib/eventlib.c:164-169 | with a bounded queue, no sequence of calls takes the queue past its bound |
| EngineSpec.RunCallbackDiscipline | eventlib/eventlib.c:69-102 | over any sequence of calls, the state-change callback only ever reports a real change, and the log callback is never reached while logging is off |
| EventLib.Processor.constructor | eventlib/eventlib.c:114-132 | the fields equal `EngineSpec.Create`'s engine, and the trace holds its effects |
| EventLib.Processor.LogMessage | eventlib/eventlib.c:69-83 | appends exactly `EngineSpec.Log`'s effects to the trace |
| EventLib.Processor.ChangeState | eventlib/eventlib.c:86-102 | the new fields and the trace extension are those of `EngineSpec.ChangeState`; `Valid()` is kept |
| EventLib.Processor.Push | eventlib/eventlib.c:154-227 | the result, the new fields and the trace extension are those of `EngineSpec.Push`; the size counter stays equal to the queue length and within the bound |
| EventLib.Processor.Process | eventlib/eventlib.c:230-264 | the new fields and the trace extension are those of `EngineSpec.Process`; `Valid()` is kept |
| EventLib.Processor.ProcessAll | eventlib/eventlib.c:267-283 | the loop, which also stops after a call that consumed nothing, takes the fields and the trace to those of `EngineSpec.ProcessAll` |
| EventLib.Processor.ClearQueue | eventlib/eventlib.c:316-340 | the loop drops every node; the fields and the trace extension are those of `EngineSpec.Clear`, and the size counter is 0 |
| EventLib.Processor.Start | eventlib/eventlib.c:302-307 | `EngineSpec.ChangeState` to RUNNING |
| EventLib.Processor.Stop | eventlib/eventlib.c:309-314 | `EngineSpec.ChangeState` to STOPPED |
| EventLib.Processor.Destroy | eventlib/eventlib.c:136-151 | the fields and the trace extension are those of `EngineSpec.Destroy` |
| EventLib.Create | eventlib/eventlib.c:105-133 | NULL exactly for a NULL config or a failed allocation; otherwise a fresh, valid processor that is IDLE, with an empty queue and a zero counter |
| EventLib.StateOf | eventlib/eventlib.c:286-289 | "INVALID" exactly for NULL, the state's name otherwise |
| EventLib.QueueSizeOf | eventlib/eventlib.c:291-294 | 0 for NULL; otherwise the queue length, within the bound when bounded |
| EventLib.EventsProcessedOf | eventlib/eventlib.c:296-299 | 0 for NULL, the counter otherwise |
| GoTypes.TypeName | eventlibgo/types.go:13-26 | 0, 1, 2 and 3 map to DATA, CONNECT, DISCONNECT and ERROR, each name only from its value; every other value maps to UNKNOWN |
| GoTypes.TypeNameInjective | eventlibgo/types.go:6-26 | String is injective on the four constants |
| EventLibGo.SizeT | eventlibgo/eventlib.go:117 | `C.size_t` keeps a non-negative size and wraps a negative one modulo 2^64 |
| EventLibGo.CEnum | eventlibgo/eventlib.go:187 | `C.event_type_t` keeps a value below 2^32 and reduces every other modulo 2^32 |
| EventLibGo.CString | eventlibgo/eventlib.go:177 | the C string is the longest prefix before the first NUL, and is the whole string when it has no NUL |
| EventLibGo.ConvertEvent | eventlibgo/callbacks.go:36-45 | the Go event keeps the type; a NULL source becomes ""; Data is set iff the data pointer is non-NULL and `data_len > 0`, and then holds the first `data_len` bytes |
| EventLibGo.PayloadPtr | eventlibgo/eventlib.go:180-183 | the data pointer is non-NULL iff the slice is non-nil and non-empty, and then points at the slice's bytes |
| EventLibGo.PushedEventRoundTrip | eventlibgo/eventlib.go:177-191 | what the handlers see of a pushed event: the type as 32-bit unsigned, the source up to its first NUL, and an empty payload as nil; an event without those features comes back unchanged |
| EventLibGo.FilterAllows | eventlibgo/callbacks.go:103-119 | the filter drops an event iff a filter handler is set and returns false; a missing handler or a panic allows |
| EventLibGo.EngineConfig | eventlibgo/eventlib.go:33-46 | create_processor_go sets all four callbacks, converts name and bound, and its filter decides exactly as `FilterAllows` on the converted event |
| EventLibGo.Registry.constructor | eventlibgo/callbacks.go:15-19 | the registry starts empty, with the next ID 0 |
| EventLibGo.GetProcessor | eventlibgo/callbacks.go:22-27 | the registered wrapper for the ID, or nil iff the ID is absent |
| EventLibGo.Unregister | eventlibgo/eventlib.go:278-285 | the ID loop removes the first entry for the wrapper and leaves every other entry intact |
| EventLibGo.EventProcessor.constructor | eventlibgo/eventlib.go:98-102 | the new wrapper keeps the configuration and handlers, has no engine yet and is open |
| EventLibGo.EventProcessor.Start | eventlibgo/eventlib.go:143-153 | closed: the "processor is closed" error, engine untouched; open: no error, and the engine steps by `EngineSpec.ChangeState` to RUNNING |
| EventLibGo.EventProcessor.Stop | eventlibgo/eventlib.go:156-166 | closed: the "processor is closed" error; open: no error, and the engine steps by `EngineSpec.ChangeState` to STOPPED |
| EventLibGo.EventProcessor.Push | eventlibgo/eventlib.go:169-198 | closed: the "processor is closed" error; open: the engine steps by `EngineSpec.Push` on the converted arguments, with an error iff the engine push fails, so a filter drop is a success |
| EventLibGo.EventProcessor.Process | eventlibgo/eventlib.go:201-210 | closed: no-op; open: the engine steps by `EngineSpec.Process` |
| EventLibGo.EventProcessor.ProcessAll | eventlibgo/eventlib.go:213-222 | closed: no-op; open: the engine steps by the corrected `EngineSpec.ProcessAll` |
| EventLibGo.EventProcessor.QueueSize | eventlibgo/eventlib.go:225-234 | 0 when closed, the engine's queue length otherwise |
| EventLibGo.EventProcessor.EventsProcessed | eventlibgo/eventlib.go:237-246 | 0 when closed, the engine's counter otherwise |
| EventLibGo.EventProcessor.State | eventlibgo/eventlib.go:249-258 | "CLOSED" exactly when closed, the engine's state name otherwise |
| EventLibGo.EventProcessor.Close | eventlibgo/eventlib.go:261-291 | never fails; a second call changes nothing; the first destroys the engine (`EngineSpec.Destroy`), drops it, and removes exactly this wrapper's registry entry |
| EventLibGo.New | eventlibgo/eventlib.go:84-140 | nil config: error, registry untouched; otherwise nil handlers become empty ones and the next ID is used and advanced; a failed creation removes the entry again; success registers a fresh, open, IDLE wrapper under an ID not used before |
| EventLibGo.HandleEvent | eventlibgo/callbacks.go:29-58 | no call without a registered wrapper with an event handler; otherwise one call with the converted event, and a panic is contained and logged as exactly one Error entry carrying the panic value and the type name |
| EventLibGo.HandleFilter | eventlibgo/callbacks.go:85-120 | returns 0 or 1; 1 without a wrapper or a filter handler; otherwise 1 iff `FilterAllows`; a panic is contained, logged as exactly one Error entry carrying the panic value, and allows |
| EventLibGo.HandleStateChange | eventlibgo/callbacks.go:122-142 | no call without a registered wrapper with a state-change handler; otherwise one call with both names, and a panic is contained and logged as exactly one Error entry carrying the panic value |
| EventLibGo.LevelFor | eventlibgo/callbacks.go:70-82 | DEBUG, WARN and ERROR map to their levels iff given; INFO and every unknown level map to Info |
| EventLibGo.HandleLog | eventlibgo/callbacks.go:60-83 | nothing without a registered wrapper; otherwise exactly one entry with the message at the mapped level, carrying the original level string iff that level is unknown |

## Left out

- Memory management is not modelled: `malloc`, `calloc`, `strdup` and `free`. The one allocation failure modelled is `event_processor_create`'s, as the `memoryAvailable` parameter, because the Go `New` rollback depends on it. Push's allocation failures are not modelled: the node, the source copy and the payload copy.
- The message formatting of `log_message` is not modelled: `vsnprintf` into a 256-byte buffer. A log entry is a level plus a `LogMsg` value naming the message and its arguments.
- The linked list is modelled as a sequence. Node relinking, `queue_tail` and freeing nodes are not modelled.
- `size_t` overflow of `queue_size` and `events_processed` is not modelled: the counters are unbounded naturals.
- The NULL-processor guards of the C mutators are not modelled. A processor is never NULL in the model, since every engine is reached through a non-NULL pointer. The NULL cases of the getters are modelled.
- The "UNKNOWN" branch of `state_to_string` is not modelled, because no lifecycle value reaches it.
- The engine's `user_data` appears only as the registry ID that the Go adapters receive.
- Concurrency is not modelled: the wrapper's `sync.RWMutex` and the registry's `callbackMu`. Every operation runs to completion before the next starts. The Go `Push`, `Process` and `ProcessAll` take only the read lock (eventlibgo/eventlib.go:170, 202, 214), although each changes the C engine. Two of them can therefore run on one engine at the same time and race on its queue, size counter and processed counter. A sequential model cannot show this race.
- Re-entrant calls from a callback into the engine or the wrapper are not modelled.
- `runtime.SetFinalizer` and `finalize` are not modelled, because the garbage collector decides when they run.
- The zap messages of `New` and `Close` ("created", "closed") are not modelled. The adapters' logging is modelled as `ZapEntry` values.
- The `C.int` cast of `data_len` in `C.GoBytes` is not modelled: the payload is assumed shorter than 2^31 bytes.
- EventLibGo.EngineConfig: the engine's filter is modelled as the wrapper's own `FilterAllows`. The real trampoline looks the wrapper up in the registry at each call; `HandleFilter` models that lookup separately. No invariant ties an open wrapper to its registry entry.
- The C filter and the Go handlers are modelled as pure functions of their arguments. A handler that keeps state between calls, or answers differently for the same event, cannot be expressed.
- Handler aliasing: `New` stores the caller's `*Handlers` pointer without copying it (eventlibgo/eventlib.go:88-101), and the adapters read its fields again on every callback (eventlibgo/callbacks.go:32, 88, 125). The model keeps the handlers as a value fixed at `New`, so it cannot show a caller who edits the struct afterwards and thereby changes what the adapters call.
- EventLibGo.Unregister: Go ranges over the map in an unspecified order, and the model visits IDs in ascending order. The registry holds each wrapper under at most one ID (`Registry.Valid`), so both orders remove the same entry.
- EventLibGo.EventProcessor.ProcessAll: it calls the corrected engine loop. On a non-empty queue that is not RUNNING, the original never returns and logs the warning on every turn (see Findings).

## Findings

| source | as written | input that shows it | evidently intended | confidence | as-written member | corrected member |
|---|---|---|---|---|---|---|
| eventlib/eventlib.c:272-277 | `event_processor_process_all` loops while the queue is non-empty. Each turn calls `event_processor_process`, which returns without dequeuing when the processor is not RUNNING (eventlib/eventlib.c:235-239). | An IDLE (or STOPPED) processor with one queued event: the loop never exits, and it logs "Processor not running" on every turn. | Stop when the processor is not RUNNING: process nothing, leave the queue intact, and log the "Processor not running" warning once. | high, not executed | EngineSpec.AsWrittenNeverExits | EngineSpec.ProcessAllSpec |
