/** The trace data model and its serialisers (`to_dict`). Every serialiser
    is a pure function from a value of the model to a Python dict, here a
    `map<string, Value>`; a dict nested in a list is wrapped in `Dict`. */
module Abstractions {
  import opened Values

  /** One chat message, e.g. `{"role": "user", "content": "..."}`. */
  type Message = map<string, string>

  /** An element of a compute step's input or output list. The source
      types these lists loosely, so any other object may end up in them;
      `Unserialisable` stands for such an object. */
  datatype IoItem =
    | MessageInputs(messages: seq<Message>)
    | ArbitraryInputs(inputs: map<string, Value>)
    | MessageOutputs(messages: seq<Message>)
    | ArbitraryOutputs(outputs: map<string, Value>)
    | Unserialisable(payload: Value)

  /** The two subclasses of ComputeStep; the agent one carries a model name
      that defaults to None. */
  datatype StepKind = AgentStep(modelName: Option<string>) | EnvironmentStep

  /** Timestamps are epoch seconds in the source; here caller-supplied naturals. */
  datatype ComputeStep = ComputeStep(
    kind: StepKind,
    eventOrder: int,
    computeBegan: nat,
    computeEnded: nat,
    computeInput: seq<IoItem>,
    computeOutput: seq<IoItem>)

  /** `closedAt` is None while the event is open. */
  datatype Event = Event(
    eventType: string,
    openedAt: nat,
    closedAt: Option<nat>,
    partitionIndex: int,
    agentComputeSteps: seq<ComputeStep>,
    environmentComputeSteps: seq<ComputeStep>)

  datatype EventPartitionElement = EventPartitionElement(partitionIndex: int, events: seq<Event>)

  datatype SystemTrace = SystemTrace(
    systemId: string,
    partition: seq<EventPartitionElement>,
    currentPartitionIndex: int := 0)

  datatype TrainingQuestion = TrainingQuestion(
    intent: string,
    criteria: string,
    questionId: Option<string> := None)

  /** `Union[float, int, bool]`. */
  datatype Reward = RealReward(r: real) | IntReward(i: int) | BoolReward(b: bool)

  datatype RewardSignal = RewardSignal(
    questionId: Option<string>,
    systemId: string,
    reward: Reward,
    annotation: Option<string>)

  datatype Dataset = Dataset(questions: seq<TrainingQuestion>, rewardSignals: seq<RewardSignal>)

  // ---------------------------------------------------------------------
  // Leaf conversions

  function OptionalStr(o: Option<string>): Value {
    match o
    case Some(s) => Str(s)
    case None => Null
  }

  function Timestamp(o: Option<nat>): Value {
    match o
    case Some(t) => Int(t)
    case None => Null
  }

  function RewardValue(r: Reward): Value {
    match r
    case RealReward(x) => Real(x)
    case IntReward(n) => Int(n)
    case BoolReward(b) => Bool(b)
  }

  function MessageValue(m: Message): Value {
    Dict(map k | k in m :: Str(m[k]))
  }

  function MessagesValue(ms: seq<Message>): Value {
    List(seq(|ms|, i requires 0 <= i < |ms| => MessageValue(ms[i])))
  }

  predicate IsInputItem(item: IoItem) {
    item.MessageInputs? || item.ArbitraryInputs?
  }

  predicate IsOutputItem(item: IoItem) {
    item.MessageOutputs? || item.ArbitraryOutputs?
  }

  /** `item.__dict__` of the four dataclasses. The last case is never
      reached: ComputeStepToDict filters such items out first. */
  function ItemDict(item: IoItem): Value {
    match item
    case MessageInputs(ms) => Dict(map["messages" := MessagesValue(ms)])
    case ArbitraryInputs(m) => Dict(map["inputs" := Dict(m)])
    case MessageOutputs(ms) => Dict(map["messages" := MessagesValue(ms)])
    case ArbitraryOutputs(m) => Dict(map["outputs" := Dict(m)])
    case Unserialisable(v) => v
  }

  function ItemDicts(items: seq<IoItem>): (r: seq<Value>)
    ensures |r| == |items|
  {
    seq(|items|, i requires 0 <= i < |items| => ItemDict(items[i]))
  }

  /** The serialised input list: the input dataclasses of `items`, in order. */
  function SerialisedInputs(items: seq<IoItem>): seq<Value> {
    ItemDicts(Filter(IsInputItem, items))
  }

  /** The serialised output list: the output dataclasses of `items`, in order. */
  function SerialisedOutputs(items: seq<IoItem>): seq<Value> {
    ItemDicts(Filter(IsOutputItem, items))
  }

  // ---------------------------------------------------------------------
  // to_dict

  function ComputeStepToDict(s: ComputeStep): map<string, Value> {
    map[
      "event_order" := Int(s.eventOrder),
      "compute_ended" := Int(s.computeEnded),
      "compute_began" := Int(s.computeBegan),
      "compute_input" := List(SerialisedInputs(s.computeInput)),
      "compute_output" := List(SerialisedOutputs(s.computeOutput))
    ]
  }

  function StepDicts(steps: seq<ComputeStep>): (r: seq<Value>)
    ensures |r| == |steps|
  {
    seq(|steps|, i requires 0 <= i < |steps| => Dict(ComputeStepToDict(steps[i])))
  }

  function EventToDict(e: Event): map<string, Value> {
    map[
      "event_type" := Str(e.eventType),
      "opened" := Int(e.openedAt),
      "closed" := Timestamp(e.closedAt),
      "partition_index" := Int(e.partitionIndex),
      "agent_compute_steps" := List(StepDicts(e.agentComputeSteps)),
      "environment_compute_steps" := List(StepDicts(e.environmentComputeSteps))
    ]
  }

  function EventDicts(events: seq<Event>): (r: seq<Value>)
    ensures |r| == |events|
  {
    seq(|events|, i requires 0 <= i < |events| => Dict(EventToDict(events[i])))
  }

  function PartitionToDict(p: EventPartitionElement): map<string, Value> {
    map[
      "partition_index" := Int(p.partitionIndex),
      "events" := List(EventDicts(p.events))
    ]
  }

  function PartitionDicts(ps: seq<EventPartitionElement>): (r: seq<Value>)
    ensures |r| == |ps|
  {
    seq(|ps|, i requires 0 <= i < |ps| => Dict(PartitionToDict(ps[i])))
  }

  function SystemTraceToDict(t: SystemTrace): map<string, Value> {
    map[
      "system_id" := Str(t.systemId),
      "partition" := List(PartitionDicts(t.partition)),
      "current_partition_index" := Int(t.currentPartitionIndex)
    ]
  }

  function QuestionToDict(q: TrainingQuestion): map<string, Value> {
    map[
      "intent" := Str(q.intent),
      "criteria" := Str(q.criteria),
      "question_id" := OptionalStr(q.questionId)
    ]
  }

  function SignalToDict(s: RewardSignal): map<string, Value> {
    map[
      "question_id" := OptionalStr(s.questionId),
      "system_id" := Str(s.systemId),
      "reward" := RewardValue(s.reward),
      "annotation" := OptionalStr(s.annotation)
    ]
  }

  function DatasetToDict(d: Dataset): map<string, Value> {
    map[
      "questions" := List(seq(|d.questions|, i requires 0 <= i < |d.questions| =>
        Dict(QuestionToDict(d.questions[i])))),
      "reward_signals" := List(seq(|d.rewardSignals|, i requires 0 <= i < |d.rewardSignals| =>
        Dict(SignalToDict(d.rewardSignals[i]))))
    ]
  }

  // ---------------------------------------------------------------------
  // Properties of the serialisers

  /** Serialising a concatenation of inputs is the concatenation of the
      serialisations: the kept items stay in their original order. */
  lemma SerialisedInputsAppend(a: seq<IoItem>, b: seq<IoItem>)
    ensures SerialisedInputs(a + b) == SerialisedInputs(a) + SerialisedInputs(b)
  {
    FilterAppend(IsInputItem, a, b);
    ItemDictsAppend(Filter(IsInputItem, a), Filter(IsInputItem, b));
  }

  lemma SerialisedOutputsAppend(a: seq<IoItem>, b: seq<IoItem>)
    ensures SerialisedOutputs(a + b) == SerialisedOutputs(a) + SerialisedOutputs(b)
  {
    FilterAppend(IsOutputItem, a, b);
    ItemDictsAppend(Filter(IsOutputItem, a), Filter(IsOutputItem, b));
  }

  lemma ItemDictsAppend(a: seq<IoItem>, b: seq<IoItem>)
    ensures ItemDicts(a + b) == ItemDicts(a) + ItemDicts(b)
  {
  }

  /** An item that is not an input dataclass is skipped and affects nothing
      else in the serialised list. */
  lemma SerialisedInputsSkip(a: seq<IoItem>, x: IoItem, b: seq<IoItem>)
    requires !IsInputItem(x)
    ensures SerialisedInputs(a + [x] + b) == SerialisedInputs(a + b)
  {
    assert a + [x] + b == a + ([x] + b);
    assert ([x] + b)[1..] == b;
    FilterAppend(IsInputItem, a, [x] + b);
    FilterAppend(IsInputItem, a, b);
  }

  lemma SerialisedOutputsSkip(a: seq<IoItem>, x: IoItem, b: seq<IoItem>)
    requires !IsOutputItem(x)
    ensures SerialisedOutputs(a + [x] + b) == SerialisedOutputs(a + b)
  {
    assert a + [x] + b == a + ([x] + b);
    assert ([x] + b)[1..] == b;
    FilterAppend(IsOutputItem, a, [x] + b);
    FilterAppend(IsOutputItem, a, b);
  }

  /** ComputeStep.to_dict copies the scalar fields, keeps exactly the input
      (output) dataclasses of compute_input (compute_output), never produces
      a longer list than its source, and drops nothing exactly when every
      item is serialisable. */
  lemma ComputeStepToDictProperties(s: ComputeStep)
    ensures var d := ComputeStepToDict(s);
      && d.Keys == {"event_order", "compute_ended", "compute_began", "compute_input", "compute_output"}
      && d["event_order"] == Int(s.eventOrder)
      && d["compute_began"] == Int(s.computeBegan)
      && d["compute_ended"] == Int(s.computeEnded)
      && |d["compute_input"].items| <= |s.computeInput|
      && |d["compute_output"].items| <= |s.computeOutput|
      && (|d["compute_input"].items| == |s.computeInput| <==>
            forall i :: 0 <= i < |s.computeInput| ==> IsInputItem(s.computeInput[i]))
      && (|d["compute_output"].items| == |s.computeOutput| <==>
            forall i :: 0 <= i < |s.computeOutput| ==> IsOutputItem(s.computeOutput[i]))
  {
    FilterKeepsAll(IsInputItem, s.computeInput);
    FilterKeepsAll(IsOutputItem, s.computeOutput);
  }

  /** Event.to_dict: one dict per agent and environment step, in order, and
      the four header fields copied. */
  lemma EventToDictProperties(e: Event)
    ensures var d := EventToDict(e);
      && d["event_type"] == Str(e.eventType)
      && d["opened"] == Int(e.openedAt)
      && d["closed"] == Timestamp(e.closedAt)
      && d["partition_index"] == Int(e.partitionIndex)
      && |d["agent_compute_steps"].items| == |e.agentComputeSteps|
      && |d["environment_compute_steps"].items| == |e.environmentComputeSteps|
      && (forall i :: 0 <= i < |e.agentComputeSteps| ==>
            d["agent_compute_steps"].items[i] == Dict(ComputeStepToDict(e.agentComputeSteps[i])))
      && (forall i :: 0 <= i < |e.environmentComputeSteps| ==>
            d["environment_compute_steps"].items[i] == Dict(ComputeStepToDict(e.environmentComputeSteps[i])))
      && (e.closedAt.None? <==> d["closed"] == Null)
  {
  }

  /** SystemTrace.to_dict keeps the partitions in order and each partition's
      events in order; a trace built without an index has index 0. */
  lemma SystemTraceToDictProperties(t: SystemTrace)
    ensures var d := SystemTraceToDict(t);
      && d["system_id"] == Str(t.systemId)
      && d["current_partition_index"] == Int(t.currentPartitionIndex)
      && |d["partition"].items| == |t.partition|
      && forall i :: 0 <= i < |t.partition| ==>
           && d["partition"].items[i].fields["partition_index"] == Int(t.partition[i].partitionIndex)
           && |d["partition"].items[i].fields["events"].items| == |t.partition[i].events|
           && forall j :: 0 <= j < |t.partition[i].events| ==>
                d["partition"].items[i].fields["events"].items[j] == Dict(EventToDict(t.partition[i].events[j]))
    ensures SystemTrace(t.systemId, t.partition).currentPartitionIndex == 0
  {
  }

  /** Dataset.to_dict keeps the count and order of questions and signals,
      and every entry has all of its keys, also when a value is None. */
  lemma DatasetToDictProperties(d: Dataset)
    ensures var r := DatasetToDict(d);
      && |r["questions"].items| == |d.questions|
      && |r["reward_signals"].items| == |d.rewardSignals|
      && (forall i :: 0 <= i < |d.questions| ==>
            r["questions"].items[i] == Dict(QuestionToDict(d.questions[i]))
            && r["questions"].items[i].fields.Keys == {"intent", "criteria", "question_id"})
      && (forall i :: 0 <= i < |d.rewardSignals| ==>
            r["reward_signals"].items[i] == Dict(SignalToDict(d.rewardSignals[i]))
            && r["reward_signals"].items[i].fields.Keys == {"question_id", "system_id", "reward", "annotation"})
  {
  }
}
