/** One traced call of the wrappers built by `trace_system_sync` and
    `trace_system_async`, the `trace_system` dispatch and `track_result`.

    The specification of a call is the big-step function `SyncCall` /
    `AsyncCall` from the state before the call (a `World`) to the outcome
    and the state after it; the methods `TracedCallSync` / `TracedCallAsync`
    perform the same call step by step on the objects of `Runtime` and are
    proved to agree with it. The lemmas at the end state what a call
    promises in terms of these functions. */
module Decorators {
  import opened Values
  import opened Abstractions
  import opened Runtime

  // ---------------------------------------------------------------------
  // Decorator arguments and the inputs of one call

  /** `manage_event`; the wrappers treat "lazy_end" like None. */
  datatype ManageEvent = NoManagement | Create | End | LazyEnd

  datatype Config = Config(
    origin: Origin,
    eventType: string,
    logResult: bool,
    manageEvent: ManageEvent,
    incrementPartition: bool,
    verbose: bool,
    finetuneStep: bool)

  /** What the wrapped function does, as far as the wrapper can see: the
      records it adds to the collector itself (via `track_lm` and
      `track_state`) and how it ends. */
  datatype BodyRun = BodyRun(inputs: seq<Record>, outputs: seq<Record>, outcome: Outcome)

  /** One invocation of the wrapper.
      - `boundSelf`: `func.__self__`, None when the attribute is absent;
      - `args`: the positional arguments;
      - `binding`: the bound parameters after `apply_defaults`, in signature
        order, or None when binding raises TypeError;
      - `derivedSystemId`: what `get_system_id(system_name)` returns. */
  datatype Call = Call(
    boundSelf: Option<Value>,
    args: seq<Value>,
    binding: Option<seq<(string, Value)>>,
    derivedSystemId: Value,
    body: BodyRun)

  /** The three clock readings of a call: `compute_began`, `compute_ended`
      and the reading in the asynchronous `finally`. */
  datatype Clock = Clock(began: nat, ended: nat, teardown: nat)

  /** Everything a call reads and writes: the execution context, the
      collector's buffer and the store's deliveries. */
  datatype World = World(ctx: ContextState, inputs: seq<Record>, outputs: seq<Record>, delivered: seq<Delivery>)

  function Snapshot(ctx: ExecutionContext, tracker: Collector, store: EventStore): World
    reads ctx, tracker, store
  {
    World(ctx.State(), tracker.inputs, tracker.outputs, store.delivered)
  }

  /** Stand-in for the TypeError `Signature.bind` raises. */
  const BindError := TypeError("arguments do not match the signature")

  // ---------------------------------------------------------------------
  // Identity

  const NoArgumentsMessage := "Instance method expected, but no arguments were passed."

  function MissingAttributeMessage(attr: string): string {
    "Instance missing required attribute '" + attr + "'"
  }

  /** The instance: a truthy `func.__self__`, else the first positional argument. */
  function Receiver(call: Call): Option<Value> {
    if call.boundSelf.Some? && Truthy(call.boundSelf.value) then call.boundSelf
    else if call.args != [] then Some(call.args[0])
    else None
  }

  /** The identity check that precedes everything else in both wrappers. */
  function ResolveInstance(call: Call): (r: Result<Value, PyException>)
    ensures r.Success? ==> Receiver(call) == Some(r.value)
    ensures r.Success? ==> HasAttr(r.value, "system_instance_id") && HasAttr(r.value, "system_name")
    ensures r.Failure? <==> (Receiver(call).None?
                            || !HasAttr(Receiver(call).value, "system_instance_id")
                            || !HasAttr(Receiver(call).value, "system_name"))
    ensures r == Failure(ValueError(NoArgumentsMessage)) <==> Receiver(call).None?
    ensures Receiver(call).None? <==> call.args == [] && (call.boundSelf.None? || !Truthy(call.boundSelf.value))
  {
    match Receiver(call)
    case None => Failure(ValueError(NoArgumentsMessage))
    case Some(instance) =>
      if !HasAttr(instance, "system_instance_id") then
        Failure(ValueError(MissingAttributeMessage("system_instance_id")))
      else if !HasAttr(instance, "system_name") then
        Failure(ValueError(MissingAttributeMessage("system_name")))
      else Success(instance)
  }

  /** Whether the end path stores the event: `hasattr(_local,
      "system_instance_id")` in the synchronous wrapper, a truthy
      `system_instance_id_var` in the asynchronous one. */
  predicate HasIdentity(b: Backend, s: ContextState) {
    match b
    case ThreadLocal => s.localInstanceId.Some?
    case ContextVars => Truthy(s.instanceIdVar)
  }

  // ---------------------------------------------------------------------
  // Input and result tracking

  predicate NotSelf(p: (string, Value)) {
    p.0 != "self"
  }

  /** One variable record per parameter, in order. */
  function ParamRecords(params: seq<(string, Value)>, origin: Origin): (r: seq<Record>)
    ensures |r| == |params|
  {
    seq(|params|, i requires 0 <= i < |params| => VariableRecord(origin, params[i].0, params[i].1))
  }

  /** The outcome of the input-tracking loop: the records it added and the
      value the tracker refused (its exception ends the loop), if any. */
  datatype Tracking = Tracking(records: seq<Record>, refused: Option<Value>)

  function InputTracking(binding: seq<(string, Value)>, origin: Origin, accepts: Value -> bool): (r: Tracking)
    ensures |r.records| <= |binding|
    ensures r.refused.Some? ==> !accepts(r.refused.value)
    decreases |binding|
  {
    if binding == [] then Tracking([], None)
    else if binding[0].0 == "self" then InputTracking(binding[1..], origin, accepts)
    else if !accepts(binding[0].1) then Tracking([], Some(binding[0].1))
    else
      var rest := InputTracking(binding[1..], origin, accepts);
      Tracking([VariableRecord(origin, binding[0].0, binding[0].1)] + rest.records, rest.refused)
  }

  /** Records the bound parameters, skipping `self`; stops at the first
      value the tracker refuses and returns it. */
  method TrackInputs(tracker: Collector, binding: seq<(string, Value)>, origin: Origin) returns (refused: Option<Value>)
    modifies tracker
    ensures tracker.inputs == old(tracker.inputs) + InputTracking(binding, origin, tracker.accepts).records
    ensures refused == InputTracking(binding, origin, tracker.accepts).refused
    ensures tracker.outputs == old(tracker.outputs)
  {
    ghost var added: seq<Record> := [];
    ghost var whole := InputTracking(binding, origin, tracker.accepts);
    var i := 0;
    while i < |binding|
      invariant 0 <= i <= |binding|
      invariant tracker.inputs == old(tracker.inputs) + added
      invariant tracker.outputs == old(tracker.outputs)
      invariant whole.records == added + InputTracking(binding[i..], origin, tracker.accepts).records
      invariant whole.refused == InputTracking(binding[i..], origin, tracker.accepts).refused
    {
      ghost var rest := binding[i..];
      assert rest[0] == binding[i] && rest[1..] == binding[i + 1..];
      var (name, value) := binding[i];
      if name != "self" {
        var accepted := tracker.TrackState(name, value, origin, Input);
        if !accepted {
          return Some(value);
        }
        added := added + [VariableRecord(origin, name, value)];
      }
      i := i + 1;
    }
    refused := None;
  }

  /** With every value accepted, one record per parameter other than
      `self`, in signature order. */
  lemma {:induction false} InputTrackingAllAccepted(binding: seq<(string, Value)>, origin: Origin, accepts: Value -> bool)
    requires forall i :: 0 <= i < |binding| ==> accepts(binding[i].1)
    ensures InputTracking(binding, origin, accepts) == Tracking(ParamRecords(Filter(NotSelf, binding), origin), None)
    decreases |binding|
  {
    if binding != [] {
      InputTrackingAllAccepted(binding[1..], origin, accepts);
      var rest := Filter(NotSelf, binding[1..]);
      if NotSelf(binding[0]) {
        assert Filter(NotSelf, binding) == [binding[0]] + rest;
        ParamRecordsCons(binding[0], rest, origin);
      } else {
        assert Filter(NotSelf, binding) == rest;
      }
    }
  }

  lemma ParamRecordsCons(p: (string, Value), params: seq<(string, Value)>, origin: Origin)
    ensures ParamRecords([p] + params, origin) == [VariableRecord(origin, p.0, p.1)] + ParamRecords(params, origin)
  {
    var r := ParamRecords([p] + params, origin);
    forall i | 1 <= i < |r|
      ensures r[i] == ParamRecords(params, origin)[i - 1]
    {
      assert ([p] + params)[i] == params[i - 1];
    }
  }

  /** A refused parameter ends the tracking: the records are those of the
      parameters before it, and the refused value is reported. */
  lemma {:induction false} InputTrackingRefused(binding: seq<(string, Value)>, origin: Origin, accepts: Value -> bool, k: nat)
    requires k < |binding| && binding[k].0 != "self" && !accepts(binding[k].1)
    requires forall i :: 0 <= i < k ==> !NotSelf(binding[i]) || accepts(binding[i].1)
    ensures InputTracking(binding, origin, accepts)
         == Tracking(ParamRecords(Filter(NotSelf, binding[..k]), origin), Some(binding[k].1))
    decreases k
  {
    if k == 0 {
      assert binding[..0] == [];
    } else {
      var tail := binding[1..];
      assert tail[..k - 1] == binding[..k][1..];
      assert forall i :: 0 <= i < k - 1 ==> tail[i] == binding[i + 1];
      InputTrackingRefused(tail, origin, accepts, k - 1);
      var rest := Filter(NotSelf, tail[..k - 1]);
      assert binding[..k][0] == binding[0];
      if NotSelf(binding[0]) {
        assert Filter(NotSelf, binding[..k]) == [binding[0]] + rest;
        ParamRecordsCons(binding[0], rest, origin);
      } else {
        assert Filter(NotSelf, binding[..k]) == rest;
      }
    }
  }

  function ResultName(i: nat): string {
    "result_" + NatToDecimal(i)
  }

  /** The records `track_result` adds for tuple elements numbered from
      `start` on: each accepted element gives `result_<index>`, a refused
      one is skipped (its exception is caught and logged). */
  function TupleRecords(items: seq<Value>, start: nat, origin: Origin, accepts: Value -> bool): (r: seq<Record>)
    ensures |r| <= |items|
    decreases |items|
  {
    if items == [] then []
    else
      var n := |items| - 1;
      TupleRecords(items[..n], start, origin, accepts)
      + (if accepts(items[n]) then [VariableRecord(origin, ResultName(start + n), items[n])] else [])
  }

  /** The records `track_result` adds: the tuple elements numbered from 0,
      or else the single value under the name `result` when the collector
      accepts it and nothing when it refuses it. */
  function ResultRecords(result: Value, origin: Origin, accepts: Value -> bool): (r: seq<Record>)
    ensures !result.Tuple? ==> |r| <= 1
    ensures !result.Tuple? && accepts(result) ==> r == [VariableRecord(origin, "result", result)]
    ensures !result.Tuple? && !accepts(result) ==> r == []
    ensures result.Tuple? ==> |r| <= |result.elems|
  {
    if result.Tuple? then TupleRecords(result.elems, 0, origin, accepts)
    else if accepts(result) then [VariableRecord(origin, "result", result)]
    else []
  }

  /** `track_result(result, tracker, origin)`. */
  method TrackResult(result: Value, tracker: Collector, origin: Origin)
    modifies tracker
    ensures tracker.outputs == old(tracker.outputs) + ResultRecords(result, origin, tracker.accepts)
    ensures tracker.inputs == old(tracker.inputs)
  {
    if result.Tuple? {
      var i := 0;
      while i < |result.elems|
        invariant 0 <= i <= |result.elems|
        invariant tracker.outputs == old(tracker.outputs) + TupleRecords(result.elems[..i], 0, origin, tracker.accepts)
        invariant tracker.inputs == old(tracker.inputs)
      {
        assert result.elems[..i + 1][..i] == result.elems[..i];
        var accepted := tracker.TrackState(ResultName(i), result.elems[i], origin, Output);
        // a refused element is only logged; the loop goes on
        i := i + 1;
      }
      assert result.elems[..i] == result.elems;
    } else {
      var accepted := tracker.TrackState("result", result, origin, Output);
    }
  }

  lemma {:induction false} TupleRecordsAppend(a: seq<Value>, b: seq<Value>, start: nat, origin: Origin, accepts: Value -> bool)
    ensures TupleRecords(a + b, start, origin, accepts)
         == TupleRecords(a, start, origin, accepts) + TupleRecords(b, start + |a|, origin, accepts)
    decreases |b|
  {
    if b == [] {
      assert a + b == a;
    } else {
      var n := |b| - 1;
      assert (a + b)[..|a| + n] == a + b[..n];
      assert (a + b)[|a| + n] == b[n];
      TupleRecordsAppend(a, b[..n], start, origin, accepts);
    }
  }

  /** An element that fails to track does not stop the others: they keep
      their own indices. */
  lemma TupleRecordsSkipRefused(a: seq<Value>, x: Value, b: seq<Value>, start: nat, origin: Origin, accepts: Value -> bool)
    requires !accepts(x)
    ensures TupleRecords(a + [x] + b, start, origin, accepts)
         == TupleRecords(a, start, origin, accepts) + TupleRecords(b, start + |a| + 1, origin, accepts)
  {
    TupleRecordsAppend(a + [x], b, start, origin, accepts);
    TupleRecordsAppend(a, [x], start, origin, accepts);
    assert TupleRecords([x], start + |a|, origin, accepts) == [];
  }

  /** A tuple whose elements are all accepted gives `result_0 ..
      result_{n-1}`, one per element, in order. */
  lemma {:induction false} TupleRecordsAllAccepted(items: seq<Value>, start: nat, origin: Origin, accepts: Value -> bool)
    requires forall i :: 0 <= i < |items| ==> accepts(items[i])
    ensures |TupleRecords(items, start, origin, accepts)| == |items|
    ensures forall i :: 0 <= i < |items| ==>
      TupleRecords(items, start, origin, accepts)[i] == VariableRecord(origin, ResultName(start + i), items[i])
    decreases |items|
  {
    if items != [] {
      var n := |items| - 1;
      TupleRecordsAllAccepted(items[..n], start, origin, accepts);
      var r := TupleRecords(items, start, origin, accepts);
      assert r == TupleRecords(items[..n], start, origin, accepts) + [VariableRecord(origin, ResultName(start + n), items[n])];
      forall i | 0 <= i < n
        ensures r[i] == VariableRecord(origin, ResultName(start + i), items[i])
      {
        assert items[..n][i] == items[i];
      }
    }
  }

  // ---------------------------------------------------------------------
  // Consolidation of the collector's records

  /** The finetune flag of a message input: `item["finetune"] or
      finetune_step` in the synchronous wrapper, `finetune_step or
      item["finetune"]` in the asynchronous one. */
  function EffectiveFinetune(b: Backend, recorded: bool, finetuneStep: bool): bool {
    match b
    case ThreadLocal => recorded || finetuneStep
    case ContextVars => finetuneStep || recorded
  }

  /** What one input record becomes. */
  function RecordInputItems(r: Record, b: Backend, finetuneStep: bool): (items: seq<IoItem>)
    ensures forall i :: 0 <= i < |items| ==> IsInputItem(items[i])
  {
    match r
    case VariableRecord(_, name, value) => [ArbitraryInputs(map[name := value])]
    case MessageRecord(_, messages, modelName, recorded) =>
      [MessageInputs(messages),
       ArbitraryInputs(map["model_name" := modelName]),
       ArbitraryInputs(map["finetune" := Bool(EffectiveFinetune(b, recorded, finetuneStep))])]
    case OtherRecord(_, _) => []
  }

  /** What one output record becomes. */
  function RecordOutputItems(r: Record): (items: seq<IoItem>)
    ensures forall i :: 0 <= i < |items| ==> IsOutputItem(items[i])
  {
    match r
    case VariableRecord(_, name, value) => [ArbitraryOutputs(map[name := value])]
    case MessageRecord(_, messages, _, _) => [MessageOutputs(messages)]
    case OtherRecord(_, _) => []
  }

  /** The typed inputs of one origin, in record order. */
  function InputItems(records: seq<Record>, origin: Origin, b: Backend, finetuneStep: bool): (items: seq<IoItem>)
    ensures forall i :: 0 <= i < |items| ==> IsInputItem(items[i])
    decreases |records|
  {
    if records == [] then []
    else
      var n := |records| - 1;
      InputItems(records[..n], origin, b, finetuneStep)
      + (if records[n].origin == origin then RecordInputItems(records[n], b, finetuneStep) else [])
  }

  /** The typed outputs of one origin, in record order. */
  function OutputItems(records: seq<Record>, origin: Origin): (items: seq<IoItem>)
    ensures forall i :: 0 <= i < |items| ==> IsOutputItem(items[i])
    decreases |records|
  {
    if records == [] then []
    else
      var n := |records| - 1;
      OutputItems(records[..n], origin)
      + (if records[n].origin == origin then RecordOutputItems(records[n]) else [])
  }

  /** The consolidation loop over the drained input records. */
  method OrganizeInputs(tracedInputs: seq<Record>, b: Backend, finetuneStep: bool)
    returns (agentInputs: seq<IoItem>, environmentInputs: seq<IoItem>)
    ensures agentInputs == InputItems(tracedInputs, Agent, b, finetuneStep)
    ensures environmentInputs == InputItems(tracedInputs, Environment, b, finetuneStep)
  {
    agentInputs, environmentInputs := [], [];
    var i := 0;
    while i < |tracedInputs|
      invariant 0 <= i <= |tracedInputs|
      invariant agentInputs == InputItems(tracedInputs[..i], Agent, b, finetuneStep)
      invariant environmentInputs == InputItems(tracedInputs[..i], Environment, b, finetuneStep)
    {
      assert tracedInputs[..i + 1][..i] == tracedInputs[..i];
      var item := tracedInputs[i];
      // an unhandled record kind yields nothing (it is only logged)
      var produced := RecordInputItems(item, b, finetuneStep);
      if item.origin == Agent {
        agentInputs := agentInputs + produced;
      } else {
        environmentInputs := environmentInputs + produced;
      }
      i := i + 1;
    }
    assert tracedInputs[..i] == tracedInputs;
  }

  /** The consolidation loop over the drained output records. */
  method OrganizeOutputs(tracedOutputs: seq<Record>)
    returns (agentOutputs: seq<IoItem>, environmentOutputs: seq<IoItem>)
    ensures agentOutputs == OutputItems(tracedOutputs, Agent)
    ensures environmentOutputs == OutputItems(tracedOutputs, Environment)
  {
    agentOutputs, environmentOutputs := [], [];
    var j := 0;
    while j < |tracedOutputs|
      invariant 0 <= j <= |tracedOutputs|
      invariant agentOutputs == OutputItems(tracedOutputs[..j], Agent)
      invariant environmentOutputs == OutputItems(tracedOutputs[..j], Environment)
    {
      assert tracedOutputs[..j + 1][..j] == tracedOutputs[..j];
      var item := tracedOutputs[j];
      var produced := RecordOutputItems(item);
      if item.origin == Agent {
        agentOutputs := agentOutputs + produced;
      } else {
        environmentOutputs := environmentOutputs + produced;
      }
      j := j + 1;
    }
    assert tracedOutputs[..j] == tracedOutputs;
  }

  /** Consolidation is compositional: the items of a concatenation are the
      items of its parts, in the same order. */
  lemma {:induction false} InputItemsAppend(a: seq<Record>, c: seq<Record>, origin: Origin, b: Backend, finetuneStep: bool)
    ensures InputItems(a + c, origin, b, finetuneStep)
         == InputItems(a, origin, b, finetuneStep) + InputItems(c, origin, b, finetuneStep)
    decreases |c|
  {
    if c == [] {
      assert a + c == a;
    } else {
      var n := |c| - 1;
      assert (a + c)[..|a| + n] == a + c[..n];
      assert (a + c)[|a| + n] == c[n];
      InputItemsAppend(a, c[..n], origin, b, finetuneStep);
    }
  }

  lemma {:induction false} OutputItemsAppend(a: seq<Record>, c: seq<Record>, origin: Origin)
    ensures OutputItems(a + c, origin) == OutputItems(a, origin) + OutputItems(c, origin)
    decreases |c|
  {
    if c == [] {
      assert a + c == a;
    } else {
      var n := |c| - 1;
      assert (a + c)[..|a| + n] == a + c[..n];
      assert (a + c)[|a| + n] == c[n];
      OutputItemsAppend(a, c[..n], origin);
    }
  }

  /** What a single record of the consolidated origin becomes; a record of
      the other origin contributes nothing. */
  lemma ConsolidationOfOneRecord(r: Record, origin: Origin, b: Backend, finetuneStep: bool)
    ensures r.origin != origin ==> InputItems([r], origin, b, finetuneStep) == [] && OutputItems([r], origin) == []
    ensures r.origin == origin && r.VariableRecord? ==>
      InputItems([r], origin, b, finetuneStep) == [ArbitraryInputs(map[r.name := r.value])]
      && OutputItems([r], origin) == [ArbitraryOutputs(map[r.name := r.value])]
    ensures r.origin == origin && r.MessageRecord? ==>
      InputItems([r], origin, b, finetuneStep)
        == [MessageInputs(r.messages),
            ArbitraryInputs(map["model_name" := r.modelName]),
            ArbitraryInputs(map["finetune" := Bool(r.finetune || finetuneStep)])]
      && OutputItems([r], origin) == [MessageOutputs(r.messages)]
    ensures r.OtherRecord? ==> InputItems([r], origin, b, finetuneStep) == [] && OutputItems([r], origin) == []
  {
    assert [r][..0] == [];
  }

  /** Both wrappers consolidate alike: the two orders of the `or` agree. */
  lemma {:induction false} InputItemsBackendIndependent(records: seq<Record>, origin: Origin, finetuneStep: bool)
    ensures InputItems(records, origin, ThreadLocal, finetuneStep) == InputItems(records, origin, ContextVars, finetuneStep)
    decreases |records|
  {
    if records != [] {
      var n := |records| - 1;
      InputItemsBackendIndependent(records[..n], origin, finetuneStep);
      assert RecordInputItems(records[n], ThreadLocal, finetuneStep) == RecordInputItems(records[n], ContextVars, finetuneStep);
    }
  }

  /** A compute step the wrapper builds loses nothing when serialised:
      every consolidated item is of a serialisable kind. */
  lemma ConsolidatedStepsSerialiseFully(
    tracedInputs: seq<Record>, tracedOutputs: seq<Record>, origin: Origin, b: Backend, finetuneStep: bool)
    ensures SerialisedInputs(InputItems(tracedInputs, origin, b, finetuneStep))
         == ItemDicts(InputItems(tracedInputs, origin, b, finetuneStep))
    ensures SerialisedOutputs(OutputItems(tracedOutputs, origin)) == ItemDicts(OutputItems(tracedOutputs, origin))
  {
    FilterKeepsAll(IsInputItem, InputItems(tracedInputs, origin, b, finetuneStep));
    FilterKeepsAll(IsOutputItem, OutputItems(tracedOutputs, origin));
  }

  // ---------------------------------------------------------------------
  // Compute steps

  /** `event_order`: one past the environment steps already on the event,
      plus one; 1 without an event. */
  function EventOrder(event: Option<Event>): int {
    if event.Some? then 1 + |event.value.environmentComputeSteps| + 1 else 1
  }

  function NewStep(origin: Origin, order: int, began: nat, ended: nat, ins: seq<IoItem>, outs: seq<IoItem>): ComputeStep {
    ComputeStep(if origin == Agent then AgentStep(None) else EnvironmentStep, order, began, ended, ins, outs)
  }

  /** One iteration of the step-building loop: an origin with inputs or
      outputs gets a step; with an event, an agent step takes the agent
      slot and an environment step is appended. */
  function AttachStep(event: Option<Event>, origin: Origin, ins: seq<IoItem>, outs: seq<IoItem>, began: nat, ended: nat): Option<Event> {
    if (ins == [] && outs == []) || event.None? then event
    else
      var step := NewStep(origin, EventOrder(event), began, ended, ins, outs);
      match origin
      case Agent => Some(event.value.(agentComputeSteps := [step]))
      case Environment => Some(event.value.(environmentComputeSteps := event.value.environmentComputeSteps + [step]))
  }

  /** The loop over the origins, agent first. */
  function AttachAll(event: Option<Event>, groups: seq<(Origin, seq<IoItem>, seq<IoItem>)>, began: nat, ended: nat): Option<Event>
    decreases |groups|
  {
    if groups == [] then event
    else AttachAll(AttachStep(event, groups[0].0, groups[0].1, groups[0].2, began, ended), groups[1..], began, ended)
  }

  function OriginGroups(agentInputs: seq<IoItem>, agentOutputs: seq<IoItem>,
                        environmentInputs: seq<IoItem>, environmentOutputs: seq<IoItem>): seq<(Origin, seq<IoItem>, seq<IoItem>)> {
    [(Agent, agentInputs, agentOutputs), (Environment, environmentInputs, environmentOutputs)]
  }

  method BuildComputeSteps(event: Option<Event>, agentInputs: seq<IoItem>, agentOutputs: seq<IoItem>,
                           environmentInputs: seq<IoItem>, environmentOutputs: seq<IoItem>, began: nat, ended: nat)
    returns (e: Option<Event>)
    ensures e == AttachAll(event, OriginGroups(agentInputs, agentOutputs, environmentInputs, environmentOutputs), began, ended)
  {
    var groups := OriginGroups(agentInputs, agentOutputs, environmentInputs, environmentOutputs);
    e := event;
    for k := 0 to |groups|
      invariant AttachAll(event, groups, began, ended) == AttachAll(e, groups[k..], began, ended)
    {
      assert groups[k..][1..] == groups[k + 1..];
      var (origin, ins, outs) := groups[k];
      if ins != [] || outs != [] {
        var order := EventOrder(e);
        var step := NewStep(origin, order, began, ended, ins, outs);
        if e.Some? {
          match origin
          case Agent => e := Some(e.value.(agentComputeSteps := [step]));
          case Environment => e := Some(e.value.(environmentComputeSteps := e.value.environmentComputeSteps + [step]));
        }
      }
    }
  }

  /** The shape of the built steps. Without an event nothing is attached.
      With one, each origin that has inputs or outputs gets exactly one
      step, and both steps carry the same `event_order`,
      `len(environment_compute_steps) + 2` taken before the call appended
      anything; everything else on the event is unchanged. */
  lemma AttachStepsShape(event: Option<Event>, agentInputs: seq<IoItem>, agentOutputs: seq<IoItem>,
                         environmentInputs: seq<IoItem>, environmentOutputs: seq<IoItem>, began: nat, ended: nat)
    ensures var e := AttachAll(event, OriginGroups(agentInputs, agentOutputs, environmentInputs, environmentOutputs), began, ended);
      && (event.None? ==> e.None?)
      && (event.Some? ==>
            var ev := event.value;
            var order := |ev.environmentComputeSteps| + 2;
            && e.Some?
            && e.value.eventType == ev.eventType && e.value.openedAt == ev.openedAt
            && e.value.closedAt == ev.closedAt && e.value.partitionIndex == ev.partitionIndex
            && e.value.agentComputeSteps
               == (if agentInputs == [] && agentOutputs == [] then ev.agentComputeSteps
                   else [ComputeStep(AgentStep(None), order, began, ended, agentInputs, agentOutputs)])
            && e.value.environmentComputeSteps
               == ev.environmentComputeSteps
                  + (if environmentInputs == [] && environmentOutputs == [] then []
                     else [ComputeStep(EnvironmentStep, order, began, ended, environmentInputs, environmentOutputs)]))
  {
    var groups := OriginGroups(agentInputs, agentOutputs, environmentInputs, environmentOutputs);
    var afterAgent := AttachStep(event, Agent, agentInputs, agentOutputs, began, ended);
    var afterEnvironment := AttachStep(afterAgent, Environment, environmentInputs, environmentOutputs, began, ended);
    assert groups[0] == (Agent, agentInputs, agentOutputs);
    assert AttachAll(event, groups, began, ended) == AttachAll(afterAgent, groups[1..], began, ended);
    assert groups[1..][0] == (Environment, environmentInputs, environmentOutputs);
    assert groups[1..][1..] == [];
    assert AttachAll(afterAgent, groups[1..], began, ended) == AttachAll(afterEnvironment, [], began, ended);
  }

  // ---------------------------------------------------------------------
  // Event management

  /** The event `manage_event="create"` builds; its partition index is the
      value the store's `increment_partition` returned when asked for. */
  function CreatedEvent(cfg: Config, began: nat, newIndex: int): (e: Option<Event>)
    ensures e.Some? <==> cfg.manageEvent == Create
    ensures e.Some? ==> e.value.eventType == cfg.eventType && e.value.openedAt == began && e.value.closedAt.None?
                        && e.value.partitionIndex == (if cfg.incrementPartition then newIndex else 0)
                        && e.value.agentComputeSteps == [] && e.value.environmentComputeSteps == []
  {
    if cfg.manageEvent == Create then
      Some(Event(cfg.eventType, began, None, if cfg.incrementPartition then newIndex else 0, [], []))
    else None
  }

  /** Makes `event` (if any) the active event of its type. */
  function Publish(b: Backend, s: ContextState, event: Option<Event>): ContextState {
    if event.Some? then s.WithActive(b, s.Active(b)[event.value.eventType := event.value]) else s
  }

  /** `manage_event="end"` after a normal return: the active event of the
      type is closed at `ended`, stored when identity is present, and
      removed from the active map. */
  function EndActive(b: Backend, s: ContextState, eventType: string, ended: nat, delivered: seq<Delivery>): (ContextState, seq<Delivery>) {
    if eventType !in s.Active(b) then (s, delivered)
    else
      var closed := s.Active(b)[eventType].(closedAt := Some(ended));
      (s.WithActive(b, s.Active(b) - {eventType}),
       if HasIdentity(b, s) then delivered + [Delivery(s.IdentityArgs(b), closed)] else delivered)
  }

  method EndActiveEvent(b: Backend, ctx: ExecutionContext, store: EventStore, eventType: string, ended: nat)
    modifies ctx, store
    ensures (ctx.State(), store.delivered) == EndActive(b, old(ctx.State()), eventType, ended, old(store.delivered))
    ensures store.partitionCounter == old(store.partitionCounter)
  {
    var active := ctx.ActiveEvents(b);
    if eventType in active {
      var current := active[eventType].(closedAt := Some(ended));
      if HasIdentity(b, ctx.State()) {
        store.AddEvent(ctx.State().IdentityArgs(b), current);
      }
      ctx.ClearCurrentEvent(b, eventType);
    }
  }

  /** The end path, stated on its own: with an active event of the type,
      exactly that event is closed at `ended`, it is delivered iff identity
      is present, it leaves the active map, and every other entry and the
      identity are untouched; without one, nothing happens. */
  lemma EndActiveProperties(b: Backend, s: ContextState, eventType: string, ended: nat, delivered: seq<Delivery>)
    ensures var (s', d') := EndActive(b, s, eventType, ended, delivered);
      && (eventType !in s.Active(b) ==> s' == s && d' == delivered)
      && (eventType in s.Active(b) ==>
            && s'.Active(b) == s.Active(b) - {eventType}
            && s'.IdentityArgs(b) == s.IdentityArgs(b)
            && (forall t :: t in s.Active(b) && t != eventType ==> t in s'.Active(b) && s'.Active(b)[t] == s.Active(b)[t])
            && d' == delivered
                     + (if HasIdentity(b, s) then [Delivery(s.IdentityArgs(b), s.Active(b)[eventType].(closedAt := Some(ended)))] else []))
  {
  }

  // ---------------------------------------------------------------------
  // One call: specification

  /** The `try` block after the event has been created and published:
      returns the outcome, the new world and the created event as the block
      leaves it. Changes to the created event are made on the very object
      the active map holds, so the map entry is updated with it. */
  function TryBlock(b: Backend, cfg: Config, call: Call, w: World, event: Option<Event>,
                    accepts: Value -> bool, clock: Clock): (Outcome, World, Option<Event>)
  {
    match call.binding
    case None => (Raised(BindError), w, event)
    case Some(binding) =>
      var t := InputTracking(binding, cfg.origin, accepts);
      var w1 := w.(inputs := w.inputs + t.records);
      if t.refused.Some? then (Raised(TrackingError(t.refused.value)), w1, event)
      else
        var w2 := w1.(inputs := w1.inputs + call.body.inputs, outputs := w1.outputs + call.body.outputs);
        match call.body.outcome
        case Raised(e) => (Raised(e), w2, event)
        case Returned(result) =>
          var ins := w2.inputs;
          var outs := w2.outputs + ResultRecords(result, cfg.origin, accepts);
          var groups := OriginGroups(InputItems(ins, Agent, b, cfg.finetuneStep), OutputItems(outs, Agent),
                                     InputItems(ins, Environment, b, cfg.finetuneStep), OutputItems(outs, Environment));
          var e := AttachAll(event, groups, clock.began, clock.ended);
          var ctx1 := Publish(b, w2.ctx, e);
          var (ctx2, d2) := if cfg.manageEvent == End then EndActive(b, ctx1, cfg.eventType, clock.ended, w2.delivered)
                            else (ctx1, w2.delivered);
          (Returned(result), World(ctx2, [], [], d2), e)
  }

  /** The identity the wrappers install. */
  function WithLocalIdentity(s: ContextState, instance: Value, systemId: Value): ContextState
    requires HasAttr(instance, "system_instance_id") && HasAttr(instance, "system_name")
  {
    s.(localInstanceId := Some(instance.attrs["system_instance_id"]),
       localSystemName := Some(instance.attrs["system_name"]),
       localSystemId := Some(systemId))
  }

  function WithVarIdentity(s: ContextState, instance: Value, systemId: Value): ContextState
    requires HasAttr(instance, "system_instance_id") && HasAttr(instance, "system_name")
  {
    s.(instanceIdVar := instance.attrs["system_instance_id"],
       systemNameVar := instance.attrs["system_name"],
       systemIdVar := systemId)
  }

  /** A call of the synchronous wrapper. `newIndex` is what the store's
      `increment_partition` returns, if the call asks for it. */
  function SyncCall(cfg: Config, call: Call, w: World, accepts: Value -> bool, clock: Clock, newIndex: int): (Outcome, World) {
    match ResolveInstance(call)
    case Failure(e) => (Raised(e), w)
    case Success(instance) =>
      var event := CreatedEvent(cfg, clock.began, newIndex);
      var ctx1 := Publish(ThreadLocal, WithLocalIdentity(w.ctx, instance, call.derivedSystemId), event);
      var (outcome, w2, _) := TryBlock(ThreadLocal, cfg, call, World(ctx1, [], [], w.delivered), event, accepts, clock);
      (outcome, w2.(ctx := w2.ctx.(localInstanceId := None)))
  }

  /** `not event.closed`: no close time yet, or the falsy time 0. */
  predicate Unclosed(e: Event) {
    e.closedAt.None? || e.closedAt == Some(0)
  }

  /** The asynchronous `finally`: an event this call created that is still
      unclosed is closed at `now` and delivered. */
  function FlushUnclosed(w: World, event: Option<Event>, now: nat): World {
    if event.Some? && Unclosed(event.value) then
      var closed := event.value.(closedAt := Some(now));
      w.(ctx := Publish(ContextVars, w.ctx, Some(closed)),
         delivered := w.delivered + [Delivery(w.ctx.IdentityArgs(ContextVars), closed)])
    else w
  }

  /** A call of the asynchronous wrapper. */
  function AsyncCall(cfg: Config, call: Call, w: World, accepts: Value -> bool, clock: Clock, newIndex: int): (Outcome, World) {
    match ResolveInstance(call)
    case Failure(e) => (Raised(e), w)
    case Success(instance) =>
      var event := CreatedEvent(cfg, clock.began, newIndex);
      var ctx1 := Publish(ContextVars, WithVarIdentity(w.ctx, instance, call.derivedSystemId), event);
      var (outcome, w2, final) := TryBlock(ContextVars, cfg, call, World(ctx1, [], [], w.delivered), event, accepts, clock);
      var w3 := FlushUnclosed(w2, final, clock.teardown);
      (outcome, w3.(ctx := w3.ctx.(instanceIdVar := w.ctx.instanceIdVar,
                                   systemNameVar := w.ctx.systemNameVar,
                                   systemIdVar := w.ctx.systemIdVar)))
  }

  // ---------------------------------------------------------------------
  // One call: the wrappers

  /** Creates, numbers and publishes the event of `manage_event="create"`. */
  method OpenManagedEvent(b: Backend, cfg: Config, ctx: ExecutionContext, store: EventStore, began: nat)
    returns (event: Option<Event>)
    modifies ctx, store
    ensures event == CreatedEvent(cfg, began, store.partitionCounter)
    ensures ctx.State() == Publish(b, old(ctx.State()), event)
    ensures store.delivered == old(store.delivered)
    ensures !(cfg.manageEvent == Create && cfg.incrementPartition) ==> store.partitionCounter == old(store.partitionCounter)
  {
    event := None;
    if cfg.manageEvent == Create {
      var created := Event(cfg.eventType, began, None, 0, [], []);
      if cfg.incrementPartition {
        var p := store.IncrementPartition(ctx.State().IdentityArgs(b));
        created := created.(partitionIndex := p);
      }
      ctx.SetCurrentEvent(b, created);
      event := Some(created);
    }
  }

  /** The `try` block, step by step. */
  method RunTraced(b: Backend, cfg: Config, call: Call, ctx: ExecutionContext, tracker: Collector, store: EventStore,
                   event: Option<Event>, clock: Clock)
    returns (outcome: Outcome, final: Option<Event>)
    modifies ctx, tracker, store
    ensures (outcome, Snapshot(ctx, tracker, store), final)
         == TryBlock(b, cfg, call, old(Snapshot(ctx, tracker, store)), event, tracker.accepts, clock)
    ensures store.partitionCounter == old(store.partitionCounter)
  {
    final := event;
    if call.binding.None? {
      return Raised(BindError), final;
    }
    var refused := TrackInputs(tracker, call.binding.value, cfg.origin);
    if refused.Some? {
      return Raised(TrackingError(refused.value)), final;
    }
    tracker.Absorb(call.body.inputs, call.body.outputs);
    if call.body.outcome.Raised? {
      // re-raised unchanged
      return call.body.outcome, final;
    }
    var result := call.body.outcome.value;
    TrackResult(result, tracker, cfg.origin);
    var tracedInputs, tracedOutputs := tracker.GetTracedData();
    var agentInputs, environmentInputs := OrganizeInputs(tracedInputs, b, cfg.finetuneStep);
    var agentOutputs, environmentOutputs := OrganizeOutputs(tracedOutputs);
    final := BuildComputeSteps(event, agentInputs, agentOutputs, environmentInputs, environmentOutputs, clock.began, clock.ended);
    if final.Some? {
      ctx.SetCurrentEvent(b, final.value);
    }
    if cfg.manageEvent == End {
      EndActiveEvent(b, ctx, store, cfg.eventType, clock.ended);
    }
    outcome := Returned(result);
  }

  /** The wrapper of `trace_system_sync`. */
  method TracedCallSync(cfg: Config, call: Call, ctx: ExecutionContext, tracker: Collector, store: EventStore, clock: Clock)
    returns (outcome: Outcome)
    modifies ctx, tracker, store
    ensures (outcome, Snapshot(ctx, tracker, store))
         == SyncCall(cfg, call, old(Snapshot(ctx, tracker, store)), tracker.accepts, clock, store.partitionCounter)
    ensures !(ResolveInstance(call).Success? && cfg.manageEvent == Create && cfg.incrementPartition)
            ==> store.partitionCounter == old(store.partitionCounter)
  {
    var resolved := ResolveInstance(call);
    if resolved.Failure? {
      return Raised(resolved.error);
    }
    var instance := resolved.value;
    ctx.localInstanceId := Some(instance.attrs["system_instance_id"]);
    ctx.localSystemName := Some(instance.attrs["system_name"]);
    ctx.localSystemId := Some(call.derivedSystemId);
    tracker.Initialize();
    var event := OpenManagedEvent(ThreadLocal, cfg, ctx, store, clock.began);
    var final;
    outcome, final := RunTraced(ThreadLocal, cfg, call, ctx, tracker, store, event, clock);
    // finally
    ctx.localInstanceId := None;
  }

  /** The wrapper of `trace_system_async`. */
  method TracedCallAsync(cfg: Config, call: Call, ctx: ExecutionContext, tracker: Collector, store: EventStore, clock: Clock)
    returns (outcome: Outcome)
    modifies ctx, tracker, store
    ensures (outcome, Snapshot(ctx, tracker, store))
         == AsyncCall(cfg, call, old(Snapshot(ctx, tracker, store)), tracker.accepts, clock, store.partitionCounter)
    ensures !(ResolveInstance(call).Success? && cfg.manageEvent == Create && cfg.incrementPartition)
            ==> store.partitionCounter == old(store.partitionCounter)
  {
    var resolved := ResolveInstance(call);
    if resolved.Failure? {
      return Raised(resolved.error);
    }
    var instance := resolved.value;
    var instanceToken, nameToken, systemIdToken := ctx.instanceIdVar, ctx.systemNameVar, ctx.systemIdVar;
    ctx.instanceIdVar := instance.attrs["system_instance_id"];
    ctx.systemNameVar := instance.attrs["system_name"];
    ctx.systemIdVar := call.derivedSystemId;
    tracker.Initialize();
    var event := OpenManagedEvent(ContextVars, cfg, ctx, store, clock.began);
    var final;
    outcome, final := RunTraced(ContextVars, cfg, call, ctx, tracker, store, event, clock);
    // finally
    if final.Some? && Unclosed(final.value) {
      var closed := final.value.(closedAt := Some(clock.teardown));
      ctx.SetCurrentEvent(ContextVars, closed);
      store.AddEvent(ctx.State().IdentityArgs(ContextVars), closed);
    }
    ctx.instanceIdVar, ctx.systemNameVar, ctx.systemIdVar := instanceToken, nameToken, systemIdToken;
  }

  // ---------------------------------------------------------------------
  // Dispatch

  /** What `trace_system` returns for a function: the wrapper it picks and
      the configuration it passes on. */
  datatype Decorated = Decorated(backend: Backend, config: Config)

  /** `trace_system`: coroutine and async-generator functions get the
      asynchronous wrapper, all others the synchronous one; `finetune_step`
      is not forwarded and so keeps its default, True. */
  function TraceSystem(isCoroutineFunction: bool, isAsyncGenFunction: bool, origin: Origin, eventType: string,
                       logResult: bool, manageEvent: ManageEvent, incrementPartition: bool, verbose: bool): (d: Decorated)
    ensures d.backend == ContextVars <==> isCoroutineFunction || isAsyncGenFunction
    ensures d.config.finetuneStep
    ensures d.config == Config(origin, eventType, logResult, manageEvent, incrementPartition, verbose, true)
  {
    Decorated(if isCoroutineFunction || isAsyncGenFunction then ContextVars else ThreadLocal,
              Config(origin, eventType, logResult, manageEvent, incrementPartition, verbose, true))
  }

  /** Through `trace_system` the finetune flag of every message input is
      true, whichever wrapper is chosen and whatever the record says. */
  lemma {:induction false} TraceSystemFinetuneAlwaysTrue(
    records: seq<Record>, origin: Origin, isCoroutineFunction: bool, isAsyncGenFunction: bool,
    eventType: string, logResult: bool, manageEvent: ManageEvent, incrementPartition: bool, verbose: bool)
    ensures var d := TraceSystem(isCoroutineFunction, isAsyncGenFunction, origin, eventType, logResult,
                                 manageEvent, incrementPartition, verbose);
      InputItems(records, origin, d.backend, d.config.finetuneStep) == FinetuneTrueItems(records, origin)
    decreases |records|
  {
    if records != [] {
      TraceSystemFinetuneAlwaysTrue(records[..|records| - 1], origin, isCoroutineFunction, isAsyncGenFunction,
                                    eventType, logResult, manageEvent, incrementPartition, verbose);
    }
  }

  /** Reference consolidation with every finetune flag true. */
  function FinetuneTrueItems(records: seq<Record>, origin: Origin): seq<IoItem>
    decreases |records|
  {
    if records == [] then []
    else
      var r := records[|records| - 1];
      FinetuneTrueItems(records[..|records| - 1], origin)
      + (if r.origin != origin then []
         else match r
           case VariableRecord(_, name, value) => [ArbitraryInputs(map[name := value])]
           case MessageRecord(_, messages, modelName, _) =>
             [MessageInputs(messages), ArbitraryInputs(map["model_name" := modelName]),
              ArbitraryInputs(map["finetune" := Bool(true)])]
           case OtherRecord(_, _) => [])
  }

  // ---------------------------------------------------------------------
  // What a call promises

  /** A failed identity check raises ValueError and changes nothing: no
      identity is written, no event created, nothing tracked or stored. */
  lemma IdentityFailureChangesNothing(cfg: Config, call: Call, w: World, accepts: Value -> bool, clock: Clock, newIndex: int)
    requires ResolveInstance(call).Failure?
    ensures SyncCall(cfg, call, w, accepts, clock, newIndex) == (Raised(ResolveInstance(call).error), w)
    ensures AsyncCall(cfg, call, w, accepts, clock, newIndex) == (Raised(ResolveInstance(call).error), w)
    ensures ResolveInstance(call).error.ValueError?
  {
  }

  /** The block never closes or drops the created event, and it delivers
      nothing unless it ends an event. */
  lemma {:induction false} TryBlockKeepsCreatedEvent(b: Backend, cfg: Config, call: Call, w: World, event: Option<Event>,
                                                     accepts: Value -> bool, clock: Clock)
    ensures var (_, w2, final) := TryBlock(b, cfg, call, w, event, accepts, clock);
      && final.Some? == event.Some?
      && (event.Some? ==> final.value.closedAt == event.value.closedAt && final.value.eventType == event.value.eventType
                          && final.value.openedAt == event.value.openedAt
                          && final.value.partitionIndex == event.value.partitionIndex)
      && (cfg.manageEvent != End ==> w2.delivered == w.delivered)
  {
    if call.binding.Some? && InputTracking(call.binding.value, cfg.origin, accepts).refused.None?
       && call.body.outcome.Returned? {
      var ins := w.inputs + InputTracking(call.binding.value, cfg.origin, accepts).records + call.body.inputs;
      var outs := w.outputs + call.body.outputs + ResultRecords(call.body.outcome.value, cfg.origin, accepts);
      AttachStepsShape(event, InputItems(ins, Agent, b, cfg.finetuneStep), OutputItems(outs, Agent),
                       InputItems(ins, Environment, b, cfg.finetuneStep), OutputItems(outs, Environment),
                       clock.began, clock.ended);
    }
  }

  /** An exception of the wrapped function is re-raised unchanged, by both wrappers. */
  lemma BodyExceptionReRaised(cfg: Config, call: Call, w: World, accepts: Value -> bool, clock: Clock, newIndex: int)
    requires ResolveInstance(call).Success?
    requires call.binding.Some? && InputTracking(call.binding.value, cfg.origin, accepts).refused.None?
    requires call.body.outcome.Raised?
    ensures SyncCall(cfg, call, w, accepts, clock, newIndex).0 == call.body.outcome
    ensures AsyncCall(cfg, call, w, accepts, clock, newIndex).0 == call.body.outcome
  {
  }

  /** After an identity check that passes, the synchronous wrapper always
      leaves `_local.system_instance_id` deleted, and never delivers an
      event it created itself. */
  lemma SyncTeardown(cfg: Config, call: Call, w: World, accepts: Value -> bool, clock: Clock, newIndex: int)
    requires ResolveInstance(call).Success?
    ensures SyncCall(cfg, call, w, accepts, clock, newIndex).1.ctx.localInstanceId.None?
    ensures cfg.manageEvent != End ==> SyncCall(cfg, call, w, accepts, clock, newIndex).1.delivered == w.delivered
  {
    var instance := ResolveInstance(call).value;
    var event := CreatedEvent(cfg, clock.began, newIndex);
    var ctx1 := Publish(ThreadLocal, WithLocalIdentity(w.ctx, instance, call.derivedSystemId), event);
    TryBlockKeepsCreatedEvent(ThreadLocal, cfg, call, World(ctx1, [], [], w.delivered), event, accepts, clock);
  }

  /** After an identity check that passes, the asynchronous wrapper always
      restores the three identity variables, and an event it created is
      delivered exactly once, closed at the teardown time, on every exit
      path; without a created event nothing is delivered unless an event
      is ended. */
  lemma AsyncTeardown(cfg: Config, call: Call, w: World, accepts: Value -> bool, clock: Clock, newIndex: int)
    requires ResolveInstance(call).Success?
    ensures var w' := AsyncCall(cfg, call, w, accepts, clock, newIndex).1;
      && w'.ctx.instanceIdVar == w.ctx.instanceIdVar
      && w'.ctx.systemNameVar == w.ctx.systemNameVar
      && w'.ctx.systemIdVar == w.ctx.systemIdVar
      && (cfg.manageEvent == Create ==>
            && |w'.delivered| == |w.delivered| + 1
            && w'.delivered[..|w.delivered|] == w.delivered
            && var last := w'.delivered[|w.delivered|].event;
               && last.eventType == cfg.eventType && last.openedAt == clock.began
               && last.closedAt == Some(clock.teardown)
               && last.partitionIndex == (if cfg.incrementPartition then newIndex else 0))
      && (cfg.manageEvent != Create && cfg.manageEvent != End ==> w'.delivered == w.delivered)
  {
    var instance := ResolveInstance(call).value;
    var event := CreatedEvent(cfg, clock.began, newIndex);
    var ctx1 := Publish(ContextVars, WithVarIdentity(w.ctx, instance, call.derivedSystemId), event);
    TryBlockKeepsCreatedEvent(ContextVars, cfg, call, World(ctx1, [], [], w.delivered), event, accepts, clock);
  }

  /** A call that returns normally hands back the function's result and
      leaves the collector drained; a created event stays active, carrying
      the call's steps. */
  lemma NormalReturn(cfg: Config, call: Call, w: World, accepts: Value -> bool, clock: Clock, newIndex: int)
    requires ResolveInstance(call).Success?
    requires call.binding.Some? && InputTracking(call.binding.value, cfg.origin, accepts).refused.None?
    requires call.body.outcome.Returned?
    ensures var (o, w') := SyncCall(cfg, call, w, accepts, clock, newIndex);
      o == call.body.outcome && w'.inputs == [] && w'.outputs == []
      && (cfg.manageEvent == Create ==>
            cfg.eventType in w'.ctx.localActiveEvents && w'.ctx.localActiveEvents[cfg.eventType].openedAt == clock.began)
    ensures var (o, w') := AsyncCall(cfg, call, w, accepts, clock, newIndex);
      o == call.body.outcome && w'.inputs == [] && w'.outputs == []
      && (cfg.manageEvent == Create ==>
            cfg.eventType in w'.ctx.activeEventsVar && w'.ctx.activeEventsVar[cfg.eventType].closedAt == Some(clock.teardown))
  {
    var instance := ResolveInstance(call).value;
    var event := CreatedEvent(cfg, clock.began, newIndex);
    var ctxS := Publish(ThreadLocal, WithLocalIdentity(w.ctx, instance, call.derivedSystemId), event);
    TryBlockKeepsCreatedEvent(ThreadLocal, cfg, call, World(ctxS, [], [], w.delivered), event, accepts, clock);
    var ctxA := Publish(ContextVars, WithVarIdentity(w.ctx, instance, call.derivedSystemId), event);
    TryBlockKeepsCreatedEvent(ContextVars, cfg, call, World(ctxA, [], [], w.delivered), event, accepts, clock);
  }
}
