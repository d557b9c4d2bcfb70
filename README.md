# synth-sdk tracing engine, modelled in Dafny

This project models the core of the synth-sdk tracing engine:

- **The per-call trace wrapper** (`trace_system_sync`, `trace_system_async`, `trace_system`, `track_result`).
  - Each traced call checks the receiver's identity, installs that identity, and optionally creates and publishes an event (`manage_event="create"`).
  - It records the bound parameters and the result, then consolidates the collector's raw records into typed inputs and outputs per origin.
  - It builds the call's compute steps and attaches them, optionally ends the active event of its type (`manage_event="end"`), and tears down.
  - Each wrapper is a method over explicit state. The state is the execution context (thread-local storage or context variables), the state collector, and the event store, seen as the deliveries it received plus an opaque partition counter. Each method is proved equal to a big-step function (`SyncCall` / `AsyncCall`) from the state before the call to the outcome and the state after it.
- **The trace data model and its `to_dict` serialisers**: compute steps, events, partition elements, system traces, training questions, reward signals and datasets. These are datatypes and pure functions.
- **The `event_scope` bracket**: it opens an event, publishes it, and on every exit closes it, clears it, and stores it when an instance id is known. This is the bracket as intended: as written, `events/scope.py` cannot be imported (see `Scope.WithEventScope` under "## Left out").
- **The upload side**:
  - the `UploadValidator` checks on the JSON-like trace and dataset trees, and `validate_upload`;
  - `createPayload` and `format_upload_output`;
  - the two passes of `upload_helper` that close every open event before upload;
  - the API-key check and the empty-trace check.

Files:

| file | module | contents |
|---|---|---|
| values.dfy | `Values` | Python values, truthiness, `in`, `str(int)`, list filtering |
| abstractions.dfy | `Abstractions` | data model and serialisers |
| runtime.dfy | `Runtime` | execution context, state collector, event store, exceptions |
| decorators.dfy | `Decorators` | the wrappers, `trace_system`, `track_result` |
| scope.dfy | `Scope` | `event_scope` |
| upload.dfy | `Upload` | validators, formatters, close passes, `upload_helper` |

What is an input to the model:

- **Clock readings** are caller-supplied naturals.
- **The wrapped function** is a `BodyRun`: the records it adds to the collector and how it ends (a return value or an exception).
- **`inspect.signature(...).bind`** is the `binding` of a `Call`: the bound parameters in signature order, or the TypeError of a failed bind.
- **`get_system_id`**, **`os.getenv("SYNTH_API_KEY")`** and **`event_store.get_system_traces()`** are values passed in.
- **Whether the collector refuses a value** is the predicate `Collector.accepts`.

Where the code and the written design disagree, the model follows the code:

- **Event shape.** `Event(...)` is called with `system_instance_id` and a single `agent_compute_step` (decorators.py:90-100, scope.py:37-45), and the wrappers also pass `system_name` and `system_id` (decorators.py:98-99). The dataclass declares `system_id` and an `agent_compute_steps` list instead (abstractions.py:82-89). The model uses the dataclass shape without the identity field, which is never serialised or read back. Writing the single agent slot becomes `agentComputeSteps := [step]`.
- **`event_order`.** It is not unique within an event. Both steps one call builds get `len(environment_compute_steps) + 2`, computed before the environment step is appended.
- **The synchronous wrapper never stores the event it created.** Its `finally` only deletes `_local.system_instance_id`, even when the wrapped function raises. Only the asynchronous wrapper flushes an unclosed created event at teardown.
- **A created event stays in the active-events map after the call.** With `manage_event="end"`, a call's own steps are not attached to anything, since it creates no event.
- **`add_event` arity.** The wrappers and the scope pass three identity arguments. `upload_helper` passes only a system id. `Delivery.args` records whatever the caller passed.

## Model

| member | source | states |
|---|---|---|
| Values.FilterKeepsAll | synth_sdk/tracing/abstractions.py:40-49 | a filtering comprehension keeps the whole list, and keeps its length, iff every element passes the test |
| Values.FilterPartition | synth_sdk/tracing/abstractions.py:40-57 | the kept items and the warned-about items together are exactly the original items |
| Values.FilterAppend | synth_sdk/tracing/abstractions.py:40-49 | filtering a concatenation is the concatenation of the filtered parts, in order |
| Abstractions.ItemDicts | synth_sdk/tracing/abstractions.py:40-48 | one `__dict__` per kept item |
| Abstractions.StepDicts | synth_sdk/tracing/abstractions.py:97-102 | one dict per compute step |
| Abstractions.EventDicts | synth_sdk/tracing/abstractions.py:114 | one dict per event of a partition element |
| Abstractions.PartitionDicts | synth_sdk/tracing/abstractions.py:127 | one dict per partition element |
| Abstractions.SerialisedInputsAppend | synth_sdk/tracing/abstractions.py:40-43 | the serialised inputs of a concatenation are the concatenation of the serialised parts: order is kept |
| Abstractions.SerialisedOutputsAppend | synth_sdk/tracing/abstractions.py:46-49 | the same for outputs |
| Abstractions.ItemDictsAppend | synth_sdk/tracing/abstractions.py:40-49 | `__dict__` mapping distributes over concatenation |
| Abstractions.SerialisedInputsSkip | synth_sdk/tracing/abstractions.py:40-54 | an item that is not an input dataclass is dropped (only warned about) and changes nothing else in the list |
| Abstractions.SerialisedOutputsSkip | synth_sdk/tracing/abstractions.py:46-57 | the same for outputs |
| Abstractions.ComputeStepToDictProperties | synth_sdk/tracing/abstractions.py:38-65 | exactly the five keys; `event_order`, `compute_began` and `compute_ended` copied; each serialised list no longer than its source, and as long as it iff every item is serialisable |
| Abstractions.EventToDictProperties | synth_sdk/tracing/abstractions.py:91-103 | header fields copied; one step dict per agent and environment step, in order and with equal length; `closed` is None iff the event is open |
| Abstractions.SystemTraceToDictProperties | synth_sdk/tracing/abstractions.py:111-129 | partition order and per-partition event order and count preserved; `current_partition_index` defaults to 0 |
| Abstractions.DatasetToDictProperties | synth_sdk/tracing/abstractions.py:137-168 | count and order of questions and signals preserved; every question and signal dict has all of its keys, also for None values |
| Runtime.ContextState.WithActive | synth_sdk/tracing/decorators.py:80-82 | the new state's active-events map of the backend is the given map; the other backend's map and every identity field are unchanged |
| Runtime.ExecutionContext.SetCurrentEvent | synth_sdk/tracing/decorators.py:110 | the event becomes the active one of its type in the backend; nothing else changes |
| Runtime.ExecutionContext.ClearCurrentEvent | synth_sdk/tracing/events/scope.py:52 | the type no longer has an active event; nothing else changes |
| Runtime.ExecutionContext.SetActiveEvents | synth_sdk/tracing/decorators.py:461-463 | the backend's active map is replaced; nothing else changes |
| Runtime.Collector.Initialize | synth_sdk/tracing/decorators.py:78 | the collector's buffer is empty at the start of a call |
| Runtime.Collector.TrackState | synth_sdk/tracing/decorators.py:119-121 | a refused value raises and records nothing; an accepted one is appended to the list of its role |
| Runtime.Collector.Absorb | synth_sdk/tracing/decorators.py:124 | the wrapped function's own records are appended |
| Runtime.Collector.GetTracedData | synth_sdk/tracing/decorators.py:130 | hands over all records by role and drains the buffer |
| Runtime.EventStore.IncrementPartition | synth_sdk/tracing/decorators.py:101-106 | returns the store's counter; delivers nothing |
| Runtime.EventStore.AddEvent | synth_sdk/tracing/decorators.py:232-237 | appends exactly one delivery; the counter is unchanged |
| Decorators.ResolveInstance | synth_sdk/tracing/decorators.py:55-68 | the instance is a truthy `__self__` or else the first argument; failure iff there is no receiver or it lacks `system_instance_id` or `system_name`; the no-arguments message iff there is no receiver |
| Decorators.ParamRecords | synth_sdk/tracing/decorators.py:116-121 | one record per parameter |
| Decorators.InputTracking | synth_sdk/tracing/decorators.py:114-121 | no more records than parameters; a reported refusal is a value the collector refuses |
| Decorators.TrackInputs | synth_sdk/tracing/decorators.py:114-121 | the loop appends exactly the records of `InputTracking` and stops at the refused value; outputs untouched |
| Decorators.InputTrackingAllAccepted | synth_sdk/tracing/decorators.py:116-121 | with every value accepted, one record per non-`self` parameter, in signature order |
| Decorators.ParamRecordsCons | synth_sdk/tracing/decorators.py:116-121 | records of a leading parameter come first |
| Decorators.InputTrackingRefused | synth_sdk/tracing/decorators.py:119-121 | a refused parameter ends tracking after exactly the records of the parameters before it |
| Decorators.TupleRecords | synth_sdk/tracing/decorators.py:539-547 | at most one record per tuple element |
| Decorators.ResultRecords | synth_sdk/tracing/decorators.py:548-555 | a non-tuple result gives exactly the record named `result` holding the value when the collector accepts it, and no record when it refuses it; a tuple gives at most one record per element |
| Decorators.TrackResult | synth_sdk/tracing/decorators.py:537-555 | the loop appends exactly `ResultRecords` to the outputs; inputs untouched |
| Decorators.TupleRecordsAppend | synth_sdk/tracing/decorators.py:541-547 | records of a split tuple are the records of its parts, the second part numbered on |
| Decorators.TupleRecordsSkipRefused | synth_sdk/tracing/decorators.py:542-547 | an element that fails to track is skipped and the others keep their indices |
| Decorators.TupleRecordsAllAccepted | synth_sdk/tracing/decorators.py:541-545 | a fully accepted tuple of length n gives `result_0 .. result_{n-1}` in order |
| Decorators.RecordInputItems | synth_sdk/tracing/decorators.py:140-162 | every item an input record becomes is an input dataclass |
| Decorators.RecordOutputItems | synth_sdk/tracing/decorators.py:164-179 | every item an output record becomes is an output dataclass |
| Decorators.InputItems | synth_sdk/tracing/decorators.py:140-162 | consolidated inputs are all serialisable |
| Decorators.OutputItems | synth_sdk/tracing/decorators.py:164-179 | consolidated outputs are all serialisable |
| Decorators.OrganizeInputs | synth_sdk/tracing/decorators.py:139-162 | the loop yields exactly the per-origin `InputItems` |
| Decorators.OrganizeOutputs | synth_sdk/tracing/decorators.py:164-179 | the loop yields exactly the per-origin `OutputItems` |
| Decorators.InputItemsAppend | synth_sdk/tracing/decorators.py:140-162 | output order follows record order |
| Decorators.OutputItemsAppend | synth_sdk/tracing/decorators.py:164-179 | output order follows record order |
| Decorators.ConsolidationOfOneRecord | synth_sdk/tracing/decorators.py:140-179 | variable record gives one Arbitrary item; message input gives MessageInputs, `{model_name}`, `{finetune: recorded or finetune_step}`; message output gives one MessageOutputs; other records and other origins give nothing |
| Decorators.InputItemsBackendIndependent | synth_sdk/tracing/decorators.py:157 | both wrappers consolidate alike: the synchronous `or` here and the asynchronous one at line 382 agree |
| Decorators.ConsolidatedStepsSerialiseFully | synth_sdk/tracing/decorators.py:139-179 | a wrapper-built step loses nothing in `ComputeStep.to_dict` |
| Decorators.BuildComputeSteps | synth_sdk/tracing/decorators.py:185-217 | the loop over the origins, agent first, equals the specification `AttachAll` |
| Decorators.AttachStepsShape | synth_sdk/tracing/decorators.py:185-217 | without an event nothing is attached; with one, an origin with inputs or outputs gets exactly one step (agent slot overwritten, environment appended), both with `event_order = len(environment_compute_steps) + 2`; header fields untouched |
| Decorators.CreatedEvent | synth_sdk/tracing/decorators.py:88-106 | an event iff `manage_event="create"`, opened at `compute_began`, not closed, no steps, partition index 0 or the store's new counter when `increment_partition` |
| Decorators.EndActiveEvent | synth_sdk/tracing/decorators.py:227-238 | the end path (and its asynchronous twin at lines 450-463) performed on the objects equals `EndActive` |
| Decorators.EndActiveProperties | synth_sdk/tracing/decorators.py:227-238 | in both wrappers (also lines 450-463), only an active event of the type is closed at `compute_ended`, delivered iff identity is present, and removed; other entries and identity untouched; no active event, no change |
| Decorators.OpenManagedEvent | synth_sdk/tracing/decorators.py:88-111 | the created event is `CreatedEvent` and published; nothing delivered; the counter moves only when asked |
| Decorators.RunTraced | synth_sdk/tracing/decorators.py:113-240 | the `try` block performed step by step equals `TryBlock` |
| Decorators.TracedCallSync | synth_sdk/tracing/decorators.py:53-248 | a synchronous call performed on the objects equals `SyncCall`; the counter moves only for an accepted call that creates and increments |
| Decorators.TracedCallAsync | synth_sdk/tracing/decorators.py:271-484 | the same for the asynchronous wrapper and `AsyncCall` |
| Decorators.TraceSystem | synth_sdk/tracing/decorators.py:492-534 | coroutine and async-generator functions get the asynchronous wrapper, others the synchronous one; the other arguments are passed on and `finetune_step` is True |
| Decorators.TraceSystemFinetuneAlwaysTrue | synth_sdk/tracing/decorators.py:509-532 | `finetune_step` is not forwarded and defaults to True (lines 44, 262), so through `trace_system`, consolidation equals the reference with every finetune flag true |
| Decorators.IdentityFailureChangesNothing | synth_sdk/tracing/decorators.py:55-75 | a failed identity check raises ValueError and leaves the whole state unchanged, in both wrappers |
| Decorators.TryBlockKeepsCreatedEvent | synth_sdk/tracing/decorators.py:113-240 | the block keeps the created event's header and never closes it; it delivers nothing unless it ends an event |
| Decorators.BodyExceptionReRaised | synth_sdk/tracing/decorators.py:241-243 | an exception of the wrapped function is re-raised unchanged by both wrappers |
| Decorators.SyncTeardown | synth_sdk/tracing/decorators.py:244-248 | `_local.system_instance_id` is deleted on every exit; the created event is never delivered |
| Decorators.AsyncTeardown | synth_sdk/tracing/decorators.py:469-484 | identity variables are restored; a created event is delivered exactly once, closed at teardown, with its header; without create or end nothing is delivered |
| Decorators.NormalReturn | synth_sdk/tracing/decorators.py:124-240 | a normal return hands back the result and drains the collector; a created event stays active (asynchronously: closed at teardown) |
| Scope.ReadIdentity | synth_sdk/tracing/events/scope.py:19-35 | identity from context variables when a loop runs, else from thread-local storage with None for a missing attribute |
| Scope.ScopeEvent | synth_sdk/tracing/events/scope.py:37-45 | the scope's event is open, of the scope's type, opened now, partition 0, no steps |
| Scope.EnterScope | synth_sdk/tracing/events/scope.py:19-46 | the event is published as the current one before the body runs |
| Scope.ExitScope | synth_sdk/tracing/events/scope.py:50-55 | the event is closed and cleared; stored iff the instance id read on entry is truthy |
| Scope.ScopeEffect | synth_sdk/tracing/events/scope.py:19-55 | after the scope the type has no active event, other entries are kept, exactly one delivery is added iff the instance id is truthy, and it is closed with the scope's identity |
| Scope.WithEventScope | synth_sdk/tracing/events/scope.py:10-55 | the body's outcome passes through unchanged, exception or not, and the state afterwards is `ScopeEffect` |
| Scope.ScopeWithoutIdentityStoresNothing | synth_sdk/tracing/events/scope.py:53-55 | without an instance id nothing is stored |
| Upload.MissingFields | synth_sdk/tracing/upload.py:204 | the missing fields in listed order, exactly; a non-container raises TypeError |
| Upload.NoneMissing | synth_sdk/tracing/upload.py:204-205 | no field is missing iff every field is present |
| Upload.FirstFailureProperties | synth_sdk/tracing/upload.py:172-208 | a checking loop passes iff every element passes, and a failure is that of the first failing element |
| Upload.ValidateTraces | synth_sdk/tracing/upload.py:167-210 | an empty list fails with its message; success returns the input unchanged; every error is a ValueError or TypeError |
| Upload.FirstFailureKeepsKind | synth_sdk/tracing/upload.py:172-208 | when every element's check raises only ValueError or TypeError, so does the loop over them |
| Upload.CheckPartKind | synth_sdk/tracing/upload.py:184-208 | the checks of one partition element, its event loop included, raise only ValueError or TypeError |
| Upload.CheckTraceKind | synth_sdk/tracing/upload.py:174-208 | the checks of one trace, its partition loop included, raise only ValueError or TypeError |
| Upload.ValidatorErrorsAreValueOrType | synth_sdk/tracing/upload.py:172-208 | the nested checks raise only ValueError or TypeError |
| Upload.CheckEventAccepts | synth_sdk/tracing/upload.py:197-208 | an event passes iff it has `event_type`, `opened`, `closed` and `partition_index` |
| Upload.CheckPartAccepts | synth_sdk/tracing/upload.py:184-208 | a partition element passes iff it is a dict with `partition_index` and a list `events` of passing events |
| Upload.CheckTraceAccepts | synth_sdk/tracing/upload.py:172-208 | a trace passes iff it has `system_id` and a list `partition` of passing elements |
| Upload.ValidateTracesAccepts | synth_sdk/tracing/upload.py:167-210 | `validate_traces` accepts iff the list is non-empty and every trace is well formed |
| Upload.ValidateDataset | synth_sdk/tracing/upload.py:212-241 | success returns the input unchanged; a missing `questions` raises ValueError |
| Upload.CheckSignalAccepts | synth_sdk/tracing/upload.py:233-239 | a signal passes iff it has `question_id`, `system_id` and `reward` |
| Upload.QuestionsAccepted | synth_sdk/tracing/upload.py:223-226 | the question loop passes iff every question has both `intent` and `criteria` |
| Upload.SignalsAccepted | synth_sdk/tracing/upload.py:233-239 | the reward-signal loop passes iff every signal has `question_id`, `system_id` and `reward` |
| Upload.ValidateDatasetAccepts | synth_sdk/tracing/upload.py:212-241 | `validate_dataset` accepts iff both lists are present and every question and signal is well formed |
| Upload.ValidateUpload | synth_sdk/tracing/upload.py:244-251 | True iff both validators pass; otherwise a ValueError prefixed `Upload validation failed: ` |
| Upload.TraceDictWellFormed | synth_sdk/tracing/upload.py:172-208 | `SystemTrace.to_dict` output always passes the per-trace checks |
| Upload.DatasetDictWellFormed | synth_sdk/tracing/upload.py:212-241 | `Dataset.to_dict` output always passes `validate_dataset` |
| Upload.TraceDicts | synth_sdk/tracing/upload.py:349 | one dict per trace |
| Upload.SerialisedUploadValidates | synth_sdk/tracing/upload.py:349-355 | with at least one trace, the serialised traces and dataset always pass `validate_upload` |
| Upload.CreatePayloadProperties | synth_sdk/tracing/upload.py:34-41 | one well-formed trace dict per trace, in order, with its system id and per-partition event counts; a well-formed dataset; with a trace, the payload passes `validate_upload` |
| Upload.FormatUploadOutputProperties | synth_sdk/tracing/upload.py:262-295 | one entry per question, signal and trace, in order; questions and signals equal their `to_dict` (a missing annotation is None); traces equal `to_dict` without `current_partition_index` |
| Upload.CloseEvent | synth_sdk/tracing/upload.py:339-340 | the event is closed afterwards; an event closed already is untouched; only `closed` changes |
| Upload.CloseEvents | synth_sdk/tracing/upload.py:338-340 | one event out per event in |
| Upload.ClosePartitions | synth_sdk/tracing/upload.py:337-340 | one element out per element in |
| Upload.CloseTraces | synth_sdk/tracing/upload.py:336-340 | one trace out per trace in |
| Upload.CloseTracesProperties | synth_sdk/tracing/upload.py:335-343 | after the pass no event has `closed = None`; ids, partitions and counts are kept, and events closed already are untouched |
| Upload.CloseTracesAppend | synth_sdk/tracing/upload.py:332-343 | the pass over stored plus passed traces is the pass over each, stored first |
| Upload.EventDeliveries | synth_sdk/tracing/upload.py:338-341 | at most one store per event, each under the trace's system id and closed at the pass time |
| Upload.PartitionDeliveries | synth_sdk/tracing/upload.py:337-341 | every store is under the trace's system id and closed at the pass time |
| Upload.TraceDeliveries | synth_sdk/tracing/upload.py:336-341 | every store has one identity argument and an event closed at the pass time |
| Upload.CloseEventsOf | synth_sdk/tracing/upload.py:338-341 | the innermost loop closes like `CloseEvents` and stores exactly `EventDeliveries` |
| Upload.ClosePartitionsOf | synth_sdk/tracing/upload.py:337-341 | the middle loop closes like `ClosePartitions` and stores exactly `PartitionDeliveries` |
| Upload.CloseTracesOf | synth_sdk/tracing/upload.py:335-343 | the outer loop closes like `CloseTraces` and stores exactly `TraceDeliveries` |
| Upload.InOrder | synth_sdk/tracing/upload.py:319 | one event per visited key |
| Upload.ActiveDeliveries | synth_sdk/tracing/upload.py:319-324 | nothing is stored without `_local.system_id`; every store is under it and closed at the pass time |
| Upload.StoreActiveEvents | synth_sdk/tracing/upload.py:319-328 | the loop over the active events stores exactly `ActiveDeliveries` |
| Upload.CloseActiveEvents | synth_sdk/tracing/upload.py:318-329 | the active pass stores exactly `ActiveDeliveries` and empties `_local.active_events`; nothing else changes |
| Upload.EmptyTracesErrorAsWritten | synth_sdk/tracing/upload.py:345-389 | the error raised for no traces is UnboundLocalError iff `verbose` |
| Upload.UploadResultAsWritten | synth_sdk/tracing/upload.py:345-389 | it fails with something other than ValueError iff `verbose` and there are no traces |
| Upload.EmptyTracesVerboseRaisesUnboundLocal | synth_sdk/tracing/upload.py:345-389 | with `verbose` and no traces, the code as written raises UnboundLocalError, unlike without `verbose` |
| Upload.UploadResult | synth_sdk/tracing/upload.py:345-389 | no traces iff ValueError "No system traces found"; every error is a ValueError; with traces the upload succeeds and sends exactly them |
| Upload.UploadHelper | synth_sdk/tracing/upload.py:310-389 | a missing or empty key raises ValueError and changes nothing; otherwise active events are cleared, the stores are those of both passes in order, and the result is `UploadResult` of the closed stored-then-passed traces |
| Upload.UploadSendsClosedTraces | synth_sdk/tracing/upload.py:332-348 | an empty combined list iff ValueError; what is sent is fully closed, stored traces first |

## Left out

- Network and object-storage export (`send_system_traces_s3`, its wrapper, `get_upload_id`, the server response): I/O and foreign libraries. `UploadOutput` holds what would be sent and the formatted arrays, not the response.
- `validate_json`: a call of `json.dumps`, a foreign function.
- `is_event_loop_running` and `asyncio.get_running_loop`: the scope takes `loopRunning` as a parameter.
- Thread and task isolation of `_local` and the context variables: the model has one explicit execution context per call.
- Cancellation and suspension at the `await`: the asynchronous wrapper's body is one step.
- `inspect` introspection: the bound parameters are given as a list, and the TypeError of a failed bind is a fixed stand-in.
- Floating-point `time.time()`: timestamps are naturals. The active pass reads the clock once for all events, not once per event.
- Logging, `log_result` and `show_payload` printing: output only.
- The store, `manage.py`, the trackers and `local.py` are not part of this model. `increment_partition` and `add_event` promise only what is stated above, and `track_state`'s refusal is the predicate `accepts`. The behaviour the model gives these collaborators is assumed, as listed in the five lines below.
- Runtime.Collector.TrackState: `track_state` called without an `io_type` (the wrappers' calls) is assumed to file parameters as inputs and results as outputs, and to record nothing when it raises.
- Runtime.Collector.Initialize: `initialize()` is assumed to empty the record buffer of both roles.
- Runtime.Collector.GetTracedData: `get_traced_data()` is assumed to return every buffered record by role and to leave the buffer empty.
- Runtime.ExecutionContext.SetCurrentEvent / Runtime.ExecutionContext.ClearCurrentEvent: `set_current_event` / `clear_current_event` are assumed to write the backend's active-events map keyed by `event_type`, and to touch nothing else.
- Runtime.ContextState: an unset context variable is assumed to read as None (`Null`), and an absent `_local` attribute as missing, read through `getattr(..., None)`.
- Upload.UploadHelper: models the corrected result; the verbose UnboundLocalError path (`verbose=True` with no traces) is only in Upload.UploadResultAsWritten, and the method has no `verbose` input.
- A failing `add_event` inside the active pass's `try` is not modelled: the stand-in store never raises.
- The registry `event_scope` uses: `set_current_event` / `clear_current_event` are taken to be those of `events/manage.py`, called without a decorator type, and the registry that call chooses is not part of this model, so the scope takes it as a parameter (`registry`).
- Scope.WithEventScope: models the bracket as intended, with `clear_current_event` taken from `events/manage.py`. As written, `events/scope.py:5` imports `clear_current_event` from `synth_sdk.tracing.decorators`, which neither defines nor imports that name (it imports only `set_current_event`, at `decorators.py:17`). So importing the module raises ImportError and `event_scope` never runs. The model does not represent import-time failure.
- Decorators.TraceSystem: async-generator functions are sent to the asynchronous wrapper (`decorators.py:509`), whose `await func(*args, **kwargs)` (`decorators.py:349`) raises TypeError on an async generator object. So every such call fails at the `await`. The model's body outcome (`BodyRun`) is free and does not force that TypeError.
- Nested traced calls inside the wrapped function: the body only adds collector records.
- Event objects being shared by reference between the active map, the store and the passed traces: events are values. The wrapper writes every change of the created event through to its map entry. The close passes return the closed traces instead of mutating them in place. One visible consequence: when the passed `traces` are the store's own trace objects, the code closes and stores each open event once, because the second visit finds it already closed; the model, given `logged + traces` as separate values, stores such an event twice (`TraceDeliveries`).
- Upload.StoreActiveEvents: dict iteration order (insertion order) is not tracked. The caller supplies the visiting order (`VisitOrder`).
- Pydantic coercion and its model classes: the traces and dataset arrive as dicts. `TrainingQuestion`, `RewardSignal` and `Dataset` are plain datatypes.
- Upload.ValidateUpload: pydantic v1 semantics are assumed. Both validators run, a TypeError in a validator is reported like a ValueError, and the report layout is a rendering of pydantic's `str(ValidationError)`. Under pydantic v2 a TypeError would escape unwrapped.
- Which Python version's UnboundLocalError wording applies: the 3.11+ wording is used.
- Every `to_dict` being a pure function of the object's state (equal results on repeated calls, object unchanged) holds by construction of Dafny functions, so it has no separate lemma.
- `Values.PyContains` models `in` for strings, lists, tuples and dicts; `in` on custom container types is not modelled.
- Decorators.TracedCallSync / Decorators.TracedCallAsync: `increment_partition` is stated only as returning the store's new counter. No gap-free or increasing index is claimed.

## Findings

| source | as written | input that shows it | evidently intended | confidence | as-written member | corrected member |
|---|---|---|---|---|---|---|
| synth_sdk/tracing/upload.py:345-389 | the empty check raises ValueError inside the `try`, and with `verbose` the handler prints `traces_dict`, which is bound only after the check | `upload_helper(dataset, [], verbose=True)` with an empty store and a set API key | the ValueError "No system traces found" is re-raised whatever `verbose` is | high (not executed) | Upload.UploadResultAsWritten | Upload.UploadResult |
