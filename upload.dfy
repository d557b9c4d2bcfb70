/** The upload side of the tracing engine: the structural validators the
    upload format must pass, the payload and output formatters, and the
    pass in `upload_helper` that closes every open event before upload. */
module Upload {
  import opened Values
  import opened Abstractions
  import opened Runtime

  // ---------------------------------------------------------------------
  // The Python operations the validators rely on

  /** The values `key in v` works on; for every other one it raises. */
  predicate IsContainer(v: Value) {
    v.Dict? || v.List? || v.Tuple? || v.Str?
  }

  /** `key in v` holds (and did not raise). */
  predicate HasKey(v: Value, key: string) {
    PyContains(v, key) == Some(true)
  }

  /** The TypeError message of `key in v` for a non-container. */
  function NotIterableMessage(v: Value): string {
    "argument of type '" + TypeName(v) + "' is not iterable"
  }

  /** The TypeError message of `v[key]` for a string key on a value that is
      not a dict. */
  function SubscriptMessage(v: Value): string {
    match v
    case List(_) => "list indices must be integers or slices, not str"
    case Tuple(_) => "tuple indices must be integers or slices, not str"
    case Str(_) => "string indices must be integers, not 'str'"
    case _ => "'" + TypeName(v) + "' object is not subscriptable"
  }

  /** The field names `f` with `f not in v`. */
  function Absent(v: Value): string -> bool {
    f => !HasKey(v, f)
  }

  /** `[f for f in fields if f not in v]`: the missing fields in their
      listed order, or the TypeError of the first test on a non-container. */
  function MissingFields(v: Value, fields: seq<string>): (r: Result<seq<string>, PyException>)
    ensures r.Failure? <==> fields != [] && !IsContainer(v)
    ensures r.Failure? ==> r.error == TypeError(NotIterableMessage(v))
    ensures r.Success? ==> r.value == Filter(Absent(v), fields)
    decreases |fields|
  {
    if fields == [] then Success([])
    else
      match PyContains(v, fields[0])
      case None => Failure(TypeError(NotIterableMessage(v)))
      case Some(present) =>
        match MissingFields(v, fields[1..])
        case Failure(e) => Failure(e)
        case Success(rest) => Success((if present then [] else [fields[0]]) + rest)
  }

  /** A list comprehension over `fields` is empty exactly when no field is missing. */
  lemma NoneMissing(v: Value, fields: seq<string>)
    requires IsContainer(v)
    ensures MissingFields(v, fields) == Success([]) <==> forall i :: 0 <= i < |fields| ==> HasKey(v, fields[i])
  {
    var r := Filter(Absent(v), fields);
    if r != [] {
      assert r[0] in fields && Absent(v)(r[0]);
    }
  }

  /** The first failure of `check` over `xs`, in order; None when all pass.
      This is a `for` loop whose body raises on the first bad element. */
  function FirstFailure<T>(check: T -> Option<PyException>, xs: seq<T>): (r: Option<PyException>)
    decreases |xs|
  {
    if xs == [] then None
    else if check(xs[0]).Some? then check(xs[0])
    else FirstFailure(check, xs[1..])
  }

  /** The loop passes exactly when every element passes, and when it fails
      it reports the failure of the first element that fails. */
  lemma {:induction false} FirstFailureProperties<T>(check: T -> Option<PyException>, xs: seq<T>)
    ensures FirstFailure(check, xs).None? <==> forall i :: 0 <= i < |xs| ==> check(xs[i]).None?
    ensures FirstFailure(check, xs).Some? ==>
              exists k :: 0 <= k < |xs| && FirstFailure(check, xs) == check(xs[k])
                          && forall i :: 0 <= i < k ==> check(xs[i]).None?
    decreases |xs|
  {
    if xs != [] {
      FirstFailureProperties(check, xs[1..]);
      if check(xs[0]).None? {
        assert forall i :: 1 <= i < |xs| ==> xs[i] == xs[1..][i - 1];
        if FirstFailure(check, xs).Some? {
          var k :| 0 <= k < |xs[1..]| && FirstFailure(check, xs[1..]) == check(xs[1..][k])
                   && forall i :: 0 <= i < k ==> check(xs[1..][i]).None?;
          assert FirstFailure(check, xs) == check(xs[k + 1]);
          assert forall i :: 0 <= i < k + 1 ==> check(xs[i]).None? by {
            forall i | 0 <= i < k + 1
              ensures check(xs[i]).None?
            {
              if i > 0 {
                assert xs[i] == xs[1..][i - 1];
              }
            }
          }
        }
      }
    }
  }

  // ---------------------------------------------------------------------
  // UploadValidator.validate_traces

  const EventFields: seq<string> := ["event_type", "opened", "closed", "partition_index"]

  /** One event of a partition element's `events` list. */
  function CheckEvent(e: Value): Option<PyException> {
    match MissingFields(e, EventFields)
    case Failure(err) => Some(err)
    case Success(missing) =>
      if missing == [] then None
      else Some(ValueError("Event missing required fields: " + StrListRepr(missing)))
  }

  /** One element of a trace's `partition` list. */
  function CheckPart(p: Value): Option<PyException> {
    if !IsContainer(p) then Some(TypeError(NotIterableMessage(p)))
    else if !HasKey(p, "partition_index") then Some(ValueError("Each partition element must have a partition_index"))
    else if !HasKey(p, "events") then Some(ValueError("Each partition element must have an events list"))
    else if !p.Dict? then Some(TypeError(SubscriptMessage(p)))
    else if !p.fields["events"].List? then Some(ValueError("Events must be a list"))
    else FirstFailure(CheckEvent, p.fields["events"].items)
  }

  /** One trace dict. */
  function CheckTrace(t: map<string, Value>): Option<PyException> {
    if "system_id" !in t then Some(ValueError("Each trace must have a system_id"))
    else if "partition" !in t then Some(ValueError("Each trace must have a partition"))
    else if !t["partition"].List? then Some(ValueError("Partition must be a list"))
    else FirstFailure(CheckPart, t["partition"].items)
  }

  const EmptyTracesMessage: string := "Traces list cannot be empty"

  /** `validate_traces`: the list itself on success, otherwise the first
      error in document order. */
  function ValidateTraces(traces: seq<map<string, Value>>): (r: Result<seq<map<string, Value>>, PyException>)
    ensures r.Success? ==> r.value == traces
    ensures traces == [] ==> r == Failure(ValueError(EmptyTracesMessage))
    ensures r.Failure? ==> r.error.ValueError? || r.error.TypeError?
  {
    if traces == [] then Failure(ValueError(EmptyTracesMessage))
    else
      match FirstFailure(CheckTrace, traces)
      case Some(e) => (ValidatorErrorsAreValueOrType(traces); Failure(e))
      case None => Success(traces)
  }

  /** No error, or one of the two kinds the validators raise. */
  predicate ValueOrTypeError(o: Option<PyException>) {
    o.None? || o.value.ValueError? || o.value.TypeError?
  }

  /** The loop's failure is one of its elements' failures, so it is of a
      kind every element's check keeps to. */
  lemma {:induction false} FirstFailureKeepsKind<T>(check: T -> Option<PyException>, xs: seq<T>)
    requires forall i :: 0 <= i < |xs| ==> ValueOrTypeError(check(xs[i]))
    ensures ValueOrTypeError(FirstFailure(check, xs))
    decreases |xs|
  {
    if xs != [] && check(xs[0]).None? {
      assert forall i :: 0 <= i < |xs[1..]| ==> xs[1..][i] == xs[i + 1];
      FirstFailureKeepsKind(check, xs[1..]);
    }
  }

  lemma CheckPartKind(p: Value)
    ensures ValueOrTypeError(CheckPart(p))
  {
    if IsContainer(p) && HasKey(p, "partition_index") && HasKey(p, "events") && p.Dict? && p.fields["events"].List? {
      var es := p.fields["events"].items;
      forall i | 0 <= i < |es|
        ensures ValueOrTypeError(CheckEvent(es[i]))
      {
      }
      FirstFailureKeepsKind(CheckEvent, es);
    }
  }

  lemma CheckTraceKind(t: map<string, Value>)
    ensures ValueOrTypeError(CheckTrace(t))
  {
    if "system_id" in t && "partition" in t && t["partition"].List? {
      var ps := t["partition"].items;
      forall i | 0 <= i < |ps|
        ensures ValueOrTypeError(CheckPart(ps[i]))
      {
        CheckPartKind(ps[i]);
      }
      FirstFailureKeepsKind(CheckPart, ps);
    }
  }

  /** Every error the trace checks raise is a ValueError or a TypeError. */
  lemma ValidatorErrorsAreValueOrType(traces: seq<map<string, Value>>)
    ensures ValueOrTypeError(FirstFailure(CheckTrace, traces))
  {
    forall i | 0 <= i < |traces|
      ensures ValueOrTypeError(CheckTrace(traces[i]))
    {
      CheckTraceKind(traces[i]);
    }
    FirstFailureKeepsKind(CheckTrace, traces);
  }

  /** An event dict the upload format accepts. */
  predicate EventWellFormed(e: Value) {
    HasKey(e, "event_type") && HasKey(e, "opened") && HasKey(e, "closed") && HasKey(e, "partition_index")
  }

  /** A partition element the upload format accepts. */
  predicate PartWellFormed(p: Value) {
    && p.Dict?
    && "partition_index" in p.fields
    && "events" in p.fields
    && p.fields["events"].List?
    && forall j :: 0 <= j < |p.fields["events"].items| ==> EventWellFormed(p.fields["events"].items[j])
  }

  /** A trace dict the upload format accepts. */
  predicate TraceWellFormed(t: map<string, Value>) {
    && "system_id" in t
    && "partition" in t
    && t["partition"].List?
    && forall i :: 0 <= i < |t["partition"].items| ==> PartWellFormed(t["partition"].items[i])
  }

  lemma CheckEventAccepts(e: Value)
    ensures CheckEvent(e).None? <==> EventWellFormed(e)
  {
    if IsContainer(e) {
      NoneMissing(e, EventFields);
      assert EventFields[0] == "event_type" && EventFields[1] == "opened";
      assert EventFields[2] == "closed" && EventFields[3] == "partition_index";
    }
  }

  lemma CheckPartAccepts(p: Value)
    ensures CheckPart(p).None? <==> PartWellFormed(p)
  {
    if p.Dict? && "partition_index" in p.fields && "events" in p.fields && p.fields["events"].List? {
      var es := p.fields["events"].items;
      FirstFailureProperties(CheckEvent, es);
      forall j | 0 <= j < |es| {
        CheckEventAccepts(es[j]);
      }
    }
  }

  lemma CheckTraceAccepts(t: map<string, Value>)
    ensures CheckTrace(t).None? <==> TraceWellFormed(t)
  {
    if "system_id" in t && "partition" in t && t["partition"].List? {
      var ps := t["partition"].items;
      FirstFailureProperties(CheckPart, ps);
      forall i | 0 <= i < |ps| {
        CheckPartAccepts(ps[i]);
      }
    }
  }

  /** `validate_traces` accepts exactly a non-empty list of well-formed traces. */
  lemma ValidateTracesAccepts(traces: seq<map<string, Value>>)
    ensures ValidateTraces(traces).Success? <==>
              traces != [] && forall i :: 0 <= i < |traces| ==> TraceWellFormed(traces[i])
  {
    FirstFailureProperties(CheckTrace, traces);
    forall i | 0 <= i < |traces| {
      CheckTraceAccepts(traces[i]);
    }
  }

  // ---------------------------------------------------------------------
  // UploadValidator.validate_dataset

  const DatasetFields: seq<string> := ["questions", "reward_signals"]
  const SignalFields: seq<string> := ["question_id", "system_id", "reward"]

  /** `"intent" not in question or "criteria" not in question`. */
  function CheckQuestion(q: Value): Option<PyException> {
    if !IsContainer(q) then Some(TypeError(NotIterableMessage(q)))
    else if !HasKey(q, "intent") || !HasKey(q, "criteria") then Some(ValueError("Each question must have intent and criteria"))
    else None
  }

  function CheckSignal(s: Value): Option<PyException> {
    match MissingFields(s, SignalFields)
    case Failure(err) => Some(err)
    case Success(missing) =>
      if missing == [] then None
      else Some(ValueError("Reward signal missing required fields: " + StrListRepr(missing)))
  }

  /** The checks of `validate_dataset`, in its order. */
  function CheckDataset(d: map<string, Value>): Option<PyException> {
    match MissingFields(Dict(d), DatasetFields)
    case Failure(err) => Some(err)
    case Success(missing) =>
      if missing != [] then Some(ValueError("Dataset missing required fields: " + StrListRepr(missing)))
      else if !d["questions"].List? then Some(ValueError("Questions must be a list"))
      else if FirstFailure(CheckQuestion, d["questions"].items).Some? then FirstFailure(CheckQuestion, d["questions"].items)
      else if !d["reward_signals"].List? then Some(ValueError("Reward signals must be a list"))
      else FirstFailure(CheckSignal, d["reward_signals"].items)
  }

  /** `validate_dataset`: the dict itself on success. */
  function ValidateDataset(d: map<string, Value>): (r: Result<map<string, Value>, PyException>)
    ensures r.Success? ==> r.value == d
    ensures "questions" !in d ==> r.Failure? && r.error.ValueError?
  {
    match CheckDataset(d)
    case Some(e) => Failure(e)
    case None => Success(d)
  }

  predicate QuestionWellFormed(q: Value) {
    HasKey(q, "intent") && HasKey(q, "criteria")
  }

  predicate SignalWellFormed(s: Value) {
    HasKey(s, "question_id") && HasKey(s, "system_id") && HasKey(s, "reward")
  }

  /** A dataset dict the upload format accepts. */
  predicate DatasetWellFormed(d: map<string, Value>) {
    && "questions" in d
    && "reward_signals" in d
    && d["questions"].List?
    && d["reward_signals"].List?
    && (forall i :: 0 <= i < |d["questions"].items| ==> QuestionWellFormed(d["questions"].items[i]))
    && (forall i :: 0 <= i < |d["reward_signals"].items| ==> SignalWellFormed(d["reward_signals"].items[i]))
  }

  lemma CheckSignalAccepts(s: Value)
    ensures CheckSignal(s).None? <==> SignalWellFormed(s)
  {
    if IsContainer(s) {
      NoneMissing(s, SignalFields);
      assert SignalFields[0] == "question_id" && SignalFields[1] == "system_id" && SignalFields[2] == "reward";
    }
  }

  lemma QuestionsAccepted(qs: seq<Value>)
    ensures FirstFailure(CheckQuestion, qs).None? <==> forall i :: 0 <= i < |qs| ==> QuestionWellFormed(qs[i])
  {
    FirstFailureProperties(CheckQuestion, qs);
  }

  lemma SignalsAccepted(ss: seq<Value>)
    ensures FirstFailure(CheckSignal, ss).None? <==> forall i :: 0 <= i < |ss| ==> SignalWellFormed(ss[i])
  {
    FirstFailureProperties(CheckSignal, ss);
    forall i | 0 <= i < |ss| {
      CheckSignalAccepts(ss[i]);
    }
  }

  /** `validate_dataset` accepts exactly a well-formed dataset dict. */
  lemma ValidateDatasetAccepts(d: map<string, Value>)
    ensures ValidateDataset(d).Success? <==> DatasetWellFormed(d)
  {
    NoneMissing(Dict(d), DatasetFields);
    assert DatasetFields[0] == "questions" && DatasetFields[1] == "reward_signals";
    if "questions" in d && "reward_signals" in d {
      if d["questions"].List? {
        QuestionsAccepted(d["questions"].items);
      }
      if d["reward_signals"].List? {
        SignalsAccepted(d["reward_signals"].items);
      }
    }
  }

  // ---------------------------------------------------------------------
  // validate_upload

  const UploadFailurePrefix: string := "Upload validation failed: "

  /** Pydantic's error type tag of a validator exception. */
  function ErrorTypeTag(e: PyException): string {
    if e.TypeError? then "type_error" else "value_error"
  }

  function ExceptionText(e: PyException): string {
    match e
    case ValueError(m) => m
    case TypeError(m) => m
    case UnboundLocalError(m) => m
    case TrackingError(_) => ""
    case OtherError(_, m) => m
  }

  /** The lines pydantic prints for each failed field, in field order. */
  function DisplayErrors(errors: seq<(string, PyException)>): string {
    if errors == [] then ""
    else
      errors[0].0 + "\n  " + ExceptionText(errors[0].1) + " (type=" + ErrorTypeTag(errors[0].1) + ")"
      + (if |errors| == 1 then "" else "\n" + DisplayErrors(errors[1..]))
  }

  /** `str(ValidationError)` for the model `UploadValidator`. */
  function ValidationReport(errors: seq<(string, PyException)>): string {
    NatToDecimal(|errors|) + " validation error" + (if |errors| == 1 then "" else "s")
    + " for UploadValidator\n" + DisplayErrors(errors)
  }

  /** The failed fields of `UploadValidator(traces=..., dataset=...)`;
      both validators run, each reporting its own first error. */
  function FieldErrors(traces: seq<map<string, Value>>, dataset: map<string, Value>): seq<(string, PyException)> {
    (if ValidateTraces(traces).Failure? then [("traces", ValidateTraces(traces).error)] else [])
    + (if ValidateDataset(dataset).Failure? then [("dataset", ValidateDataset(dataset).error)] else [])
  }

  /** `validate_upload`: True, or the ValueError wrapping the validation report. */
  function ValidateUpload(traces: seq<map<string, Value>>, dataset: map<string, Value>): (r: Result<bool, PyException>)
    ensures r.Success? <==> ValidateTraces(traces).Success? && ValidateDataset(dataset).Success?
    ensures r.Success? ==> r.value
    ensures r.Failure? ==> r.error.ValueError? && IsPrefix(UploadFailurePrefix, r.error.message)
  {
    var errors := FieldErrors(traces, dataset);
    if errors == [] then Success(true)
    else Failure(ValueError(UploadFailurePrefix + ValidationReport(errors)))
  }

  // ---------------------------------------------------------------------
  // What the serialisers produce passes the validators

  /** The dict of every `SystemTrace` is a well-formed trace. */
  lemma TraceDictWellFormed(t: SystemTrace)
    ensures TraceWellFormed(SystemTraceToDict(t))
  {
    var ps := SystemTraceToDict(t)["partition"].items;
    forall i | 0 <= i < |ps|
      ensures PartWellFormed(ps[i])
    {
      assert ps[i] == Dict(PartitionToDict(t.partition[i]));
      var es := ps[i].fields["events"].items;
      forall j | 0 <= j < |es|
        ensures EventWellFormed(es[j])
      {
        assert es[j] == Dict(EventToDict(t.partition[i].events[j]));
      }
    }
  }

  /** The dict of every `Dataset` is a well-formed dataset. */
  lemma DatasetDictWellFormed(d: Dataset)
    ensures DatasetWellFormed(DatasetToDict(d))
  {
    DatasetToDictProperties(d);
  }

  /** `[trace.to_dict() for trace in traces]`. */
  function TraceDicts(traces: seq<SystemTrace>): (r: seq<map<string, Value>>)
    ensures |r| == |traces|
  {
    seq(|traces|, i requires 0 <= i < |traces| => SystemTraceToDict(traces[i]))
  }

  /** Whatever the traces and the dataset, their dicts pass `validate_upload`
      as soon as there is at least one trace. */
  lemma SerialisedUploadValidates(traces: seq<SystemTrace>, dataset: Dataset)
    requires traces != []
    ensures ValidateUpload(TraceDicts(traces), DatasetToDict(dataset)) == Success(true)
  {
    var ts := TraceDicts(traces);
    forall i | 0 <= i < |ts|
      ensures TraceWellFormed(ts[i])
    {
      TraceDictWellFormed(traces[i]);
    }
    ValidateTracesAccepts(ts);
    DatasetDictWellFormed(dataset);
    ValidateDatasetAccepts(DatasetToDict(dataset));
  }

  // ---------------------------------------------------------------------
  // createPayload and format_upload_output

  /** `createPayload(dataset, traces)`. */
  function CreatePayload(dataset: Dataset, traces: seq<SystemTrace>): map<string, Value> {
    map[
      "traces" := List(seq(|traces|, i requires 0 <= i < |traces| => Dict(SystemTraceToDict(traces[i])))),
      "dataset" := Dict(DatasetToDict(dataset))
    ]
  }

  /** The payload holds one well-formed trace dict per trace, in order, each
      keeping its system id and per-partition event counts, and a
      well-formed dataset; with at least one trace it passes `validate_upload`. */
  lemma CreatePayloadProperties(dataset: Dataset, traces: seq<SystemTrace>)
    ensures var p := CreatePayload(dataset, traces);
      && p.Keys == {"traces", "dataset"}
      && |p["traces"].items| == |traces|
      && (forall i :: 0 <= i < |traces| ==>
            && p["traces"].items[i].Dict?
            && TraceWellFormed(p["traces"].items[i].fields)
            && p["traces"].items[i].fields["system_id"] == Str(traces[i].systemId)
            && |p["traces"].items[i].fields["partition"].items| == |traces[i].partition|
            && forall j :: 0 <= j < |traces[i].partition| ==>
                 |p["traces"].items[i].fields["partition"].items[j].fields["events"].items| == |traces[i].partition[j].events|)
      && DatasetWellFormed(p["dataset"].fields)
      && (traces != [] ==>
            ValidateUpload(seq(|traces|, i requires 0 <= i < |traces| => p["traces"].items[i].fields), p["dataset"].fields)
              == Success(true))
  {
    var p := CreatePayload(dataset, traces);
    forall i | 0 <= i < |traces|
      ensures && p["traces"].items[i].Dict?
              && TraceWellFormed(p["traces"].items[i].fields)
              && p["traces"].items[i].fields["system_id"] == Str(traces[i].systemId)
              && |p["traces"].items[i].fields["partition"].items| == |traces[i].partition|
              && forall j :: 0 <= j < |traces[i].partition| ==>
                   |p["traces"].items[i].fields["partition"].items[j].fields["events"].items| == |traces[i].partition[j].events|
    {
      assert p["traces"].items[i] == Dict(SystemTraceToDict(traces[i]));
      TraceDictWellFormed(traces[i]);
      SystemTraceToDictProperties(traces[i]);
    }
    DatasetDictWellFormed(dataset);
    if traces != [] {
      assert seq(|traces|, i requires 0 <= i < |traces| => p["traces"].items[i].fields) == TraceDicts(traces);
      SerialisedUploadValidates(traces, dataset);
    }
  }

  /** The three arrays `format_upload_output` returns. */
  datatype Formatted = Formatted(
    questions: seq<map<string, Value>>,
    rewardSignals: seq<map<string, Value>>,
    traces: seq<map<string, Value>>)

  function FormatQuestion(q: TrainingQuestion): map<string, Value> {
    map["intent" := Str(q.intent), "criteria" := Str(q.criteria), "question_id" := OptionalStr(q.questionId)]
  }

  /** A reward signal always has the `annotation` attribute, so the
      `hasattr` fallback never applies; an unset annotation is None. */
  function FormatSignal(s: RewardSignal): map<string, Value> {
    map[
      "system_id" := Str(s.systemId),
      "reward" := RewardValue(s.reward),
      "question_id" := OptionalStr(s.questionId),
      "annotation" := OptionalStr(s.annotation)
    ]
  }

  function FormatTrace(t: SystemTrace): map<string, Value> {
    map[
      "system_id" := Str(t.systemId),
      "partition" := List(seq(|t.partition|, j requires 0 <= j < |t.partition| =>
        Dict(map[
          "partition_index" := Int(t.partition[j].partitionIndex),
          "events" := List(seq(|t.partition[j].events|, k requires 0 <= k < |t.partition[j].events| =>
            Dict(EventToDict(t.partition[j].events[k]))))
        ])))
    ]
  }

  /** `format_upload_output(dataset, traces)`. */
  function FormatUploadOutput(dataset: Dataset, traces: seq<SystemTrace>): Formatted {
    Formatted(
      seq(|dataset.questions|, i requires 0 <= i < |dataset.questions| => FormatQuestion(dataset.questions[i])),
      seq(|dataset.rewardSignals|, i requires 0 <= i < |dataset.rewardSignals| => FormatSignal(dataset.rewardSignals[i])),
      seq(|traces|, i requires 0 <= i < |traces| => FormatTrace(traces[i])))
  }

  /** The formatted arrays have one entry per question, signal and trace, in
      order, and agree with the `to_dict` serialisers: questions and signals
      exactly (a missing annotation is None), traces up to the dropped
      `current_partition_index`. */
  lemma FormatUploadOutputProperties(dataset: Dataset, traces: seq<SystemTrace>)
    ensures var f := FormatUploadOutput(dataset, traces);
      && |f.questions| == |dataset.questions|
      && |f.rewardSignals| == |dataset.rewardSignals|
      && |f.traces| == |traces|
      && (forall i :: 0 <= i < |dataset.questions| ==> f.questions[i] == QuestionToDict(dataset.questions[i]))
      && (forall i :: 0 <= i < |dataset.rewardSignals| ==>
            f.rewardSignals[i] == SignalToDict(dataset.rewardSignals[i])
            && (dataset.rewardSignals[i].annotation.None? ==> f.rewardSignals[i]["annotation"] == Null))
      && (forall i :: 0 <= i < |traces| ==> f.traces[i] == SystemTraceToDict(traces[i]) - {"current_partition_index"})
  {
    var f := FormatUploadOutput(dataset, traces);
    forall i | 0 <= i < |traces|
      ensures f.traces[i] == SystemTraceToDict(traces[i]) - {"current_partition_index"}
    {
      var t := traces[i];
      var d := SystemTraceToDict(t) - {"current_partition_index"};
      assert f.traces[i]["partition"] == d["partition"] by {
        assert f.traces[i]["partition"].items == PartitionDicts(t.partition) by {
          forall j | 0 <= j < |t.partition|
            ensures f.traces[i]["partition"].items[j] == PartitionDicts(t.partition)[j]
          {
            assert f.traces[i]["partition"].items[j].fields["events"].items == EventDicts(t.partition[j].events);
          }
        }
      }
      assert f.traces[i].Keys == d.Keys;
    }
  }

  // ---------------------------------------------------------------------
  // The close pass of upload_helper

  /** An event whose `closed` is None gets `closed = now`; others are kept. */
  function CloseEvent(e: Event, now: nat): (r: Event)
    ensures r.closedAt.Some?
    ensures e.closedAt.Some? ==> r == e
    ensures r.(closedAt := e.closedAt) == e
  {
    if e.closedAt.None? then e.(closedAt := Some(now)) else e
  }

  function CloseEvents(es: seq<Event>, now: nat): (r: seq<Event>)
    ensures |r| == |es|
  {
    seq(|es|, k requires 0 <= k < |es| => CloseEvent(es[k], now))
  }

  function ClosePartitions(ps: seq<EventPartitionElement>, now: nat): (r: seq<EventPartitionElement>)
    ensures |r| == |ps|
  {
    seq(|ps|, j requires 0 <= j < |ps| => ps[j].(events := CloseEvents(ps[j].events, now)))
  }

  /** The traces after the pass: every event closed in place. */
  function CloseTraces(ts: seq<SystemTrace>, now: nat): (r: seq<SystemTrace>)
    ensures |r| == |ts|
  {
    seq(|ts|, i requires 0 <= i < |ts| => ts[i].(partition := ClosePartitions(ts[i].partition, now)))
  }

  /** No event of any trace has `closed = None`. */
  predicate AllClosed(ts: seq<SystemTrace>) {
    forall i, j, k :: 0 <= i < |ts| && 0 <= j < |ts[i].partition| && 0 <= k < |ts[i].partition[j].events| ==>
      ts[i].partition[j].events[k].closedAt.Some?
  }

  /** After the pass no event is open; the traces keep their ids, their
      partitions and their event counts, and every event that was closed
      already is untouched. */
  lemma CloseTracesProperties(ts: seq<SystemTrace>, now: nat)
    ensures AllClosed(CloseTraces(ts, now))
    ensures forall i :: 0 <= i < |ts| ==>
              var c := CloseTraces(ts, now)[i];
              && c.systemId == ts[i].systemId
              && c.currentPartitionIndex == ts[i].currentPartitionIndex
              && |c.partition| == |ts[i].partition|
              && forall j :: 0 <= j < |ts[i].partition| ==>
                   && c.partition[j].partitionIndex == ts[i].partition[j].partitionIndex
                   && |c.partition[j].events| == |ts[i].partition[j].events|
                   && forall k :: 0 <= k < |ts[i].partition[j].events| && ts[i].partition[j].events[k].closedAt.Some? ==>
                        c.partition[j].events[k] == ts[i].partition[j].events[k]
  {
  }

  /** The pass over `logged + passed` is the pass over each, stored traces first. */
  lemma CloseTracesAppend(a: seq<SystemTrace>, b: seq<SystemTrace>, now: nat)
    ensures CloseTraces(a + b, now) == CloseTraces(a, now) + CloseTraces(b, now)
  {
    assert forall i :: 0 <= i < |a + b| ==> CloseTraces(a + b, now)[i] == (CloseTraces(a, now) + CloseTraces(b, now))[i] by {
      forall i | 0 <= i < |a + b|
        ensures CloseTraces(a + b, now)[i] == (CloseTraces(a, now) + CloseTraces(b, now))[i]
      {
        if i >= |a| {
          assert (a + b)[i] == b[i - |a|];
        }
      }
    }
  }

  /** The stores of one partition's events: `add_event(system_id, event)`
      for each event that was open, closed at `now`. */
  function EventDeliveries(systemId: string, es: seq<Event>, now: nat): (r: seq<Delivery>)
    ensures |r| <= |es|
    ensures forall d :: 0 <= d < |r| ==> r[d].args == [Str(systemId)] && r[d].event.closedAt == Some(now)
    decreases |es|
  {
    if es == [] then []
    else
      var last := es[|es| - 1];
      EventDeliveries(systemId, es[..|es| - 1], now)
      + (if last.closedAt.None? then [Delivery([Str(systemId)], CloseEvent(last, now))] else [])
  }

  function PartitionDeliveries(systemId: string, ps: seq<EventPartitionElement>, now: nat): (r: seq<Delivery>)
    ensures forall d :: 0 <= d < |r| ==> r[d].args == [Str(systemId)] && r[d].event.closedAt == Some(now)
    decreases |ps|
  {
    if ps == [] then []
    else PartitionDeliveries(systemId, ps[..|ps| - 1], now) + EventDeliveries(systemId, ps[|ps| - 1].events, now)
  }

  /** Everything the pass stores, trace by trace, partition by partition. */
  function TraceDeliveries(ts: seq<SystemTrace>, now: nat): (r: seq<Delivery>)
    ensures forall d :: 0 <= d < |r| ==> |r[d].args| == 1 && r[d].event.closedAt == Some(now)
    decreases |ts|
  {
    if ts == [] then []
    else TraceDeliveries(ts[..|ts| - 1], now) + PartitionDeliveries(ts[|ts| - 1].systemId, ts[|ts| - 1].partition, now)
  }

  /** The innermost loop: the events of one partition element. */
  method CloseEventsOf(store: EventStore, systemId: string, events: seq<Event>, now: nat) returns (closed: seq<Event>)
    modifies store
    ensures closed == CloseEvents(events, now)
    ensures store.delivered == old(store.delivered) + EventDeliveries(systemId, events, now)
    ensures store.partitionCounter == old(store.partitionCounter)
  {
    closed := [];
    var k := 0;
    while k < |events|
      invariant 0 <= k <= |events|
      invariant |closed| == k && forall m :: 0 <= m < k ==> closed[m] == CloseEvent(events[m], now)
      invariant store.delivered == old(store.delivered) + EventDeliveries(systemId, events[..k], now)
      invariant store.partitionCounter == old(store.partitionCounter)
    {
      var event := events[k];
      if event.closedAt.None? {
        event := event.(closedAt := Some(now));
        store.AddEvent([Str(systemId)], event);
      }
      assert events[..k + 1][..k] == events[..k];
      closed := closed + [event];
      k := k + 1;
    }
    assert events[..k] == events;
  }

  /** The middle loop: the partition elements of one trace. */
  method ClosePartitionsOf(store: EventStore, systemId: string, partition: seq<EventPartitionElement>, now: nat)
    returns (closed: seq<EventPartitionElement>)
    modifies store
    ensures closed == ClosePartitions(partition, now)
    ensures store.delivered == old(store.delivered) + PartitionDeliveries(systemId, partition, now)
    ensures store.partitionCounter == old(store.partitionCounter)
  {
    closed := [];
    var j := 0;
    while j < |partition|
      invariant 0 <= j <= |partition|
      invariant |closed| == j && forall m :: 0 <= m < j ==> closed[m] == partition[m].(events := CloseEvents(partition[m].events, now))
      invariant store.delivered == old(store.delivered) + PartitionDeliveries(systemId, partition[..j], now)
      invariant store.partitionCounter == old(store.partitionCounter)
    {
      var events := CloseEventsOf(store, systemId, partition[j].events, now);
      assert partition[..j + 1][..j] == partition[..j];
      closed := closed + [partition[j].(events := events)];
      j := j + 1;
    }
    assert partition[..j] == partition;
  }

  /** The outer loop of the pass: every trace, with one reading of the clock. */
  method CloseTracesOf(store: EventStore, traces: seq<SystemTrace>, now: nat) returns (closed: seq<SystemTrace>)
    modifies store
    ensures closed == CloseTraces(traces, now)
    ensures store.delivered == old(store.delivered) + TraceDeliveries(traces, now)
    ensures store.partitionCounter == old(store.partitionCounter)
  {
    closed := [];
    var i := 0;
    while i < |traces|
      invariant 0 <= i <= |traces|
      invariant |closed| == i && forall m :: 0 <= m < i ==> closed[m] == traces[m].(partition := ClosePartitions(traces[m].partition, now))
      invariant store.delivered == old(store.delivered) + TraceDeliveries(traces[..i], now)
      invariant store.partitionCounter == old(store.partitionCounter)
    {
      var partition := ClosePartitionsOf(store, traces[i].systemId, traces[i].partition, now);
      assert traces[..i + 1][..i] == traces[..i];
      closed := closed + [traces[i].(partition := partition)];
      i := i + 1;
    }
    assert traces[..i] == traces;
  }

  // ---------------------------------------------------------------------
  // The active-events pass of upload_helper

  /** `order` visits every key of `m` exactly once. */
  ghost predicate VisitOrder(m: map<string, Event>, order: seq<string>) {
    && (forall k :: k in m <==> k in order)
    && (forall a, b :: 0 <= a < b < |order| ==> order[a] != order[b])
  }

  /** The events of `m` in the visiting order. */
  function InOrder(m: map<string, Event>, order: seq<string>): (r: seq<Event>)
    requires forall k :: k in order ==> k in m
    ensures |r| == |order|
  {
    seq(|order|, i requires 0 <= i < |order| => m[order[i]])
  }

  /** What the active-events pass stores: each open event, closed at `now`,
      under `_local.system_id` when that attribute exists. */
  function ActiveDeliveries(systemId: Option<Value>, es: seq<Event>, now: nat): (r: seq<Delivery>)
    ensures systemId.None? ==> r == []
    ensures forall d :: 0 <= d < |r| ==> r[d].args == [systemId.value] && r[d].event.closedAt == Some(now)
    decreases |es|
  {
    if es == [] then []
    else
      var last := es[|es| - 1];
      ActiveDeliveries(systemId, es[..|es| - 1], now)
      + (if last.closedAt.None? && systemId.Some? then [Delivery([systemId.value], CloseEvent(last, now))] else [])
  }

  /** The loop over `_local.active_events.items()`: each open event is
      closed at `now` and stored under `systemId` when there is one. `order`
      is the dict's iteration order, which the model does not track. */
  method StoreActiveEvents(store: EventStore, active: map<string, Event>, order: seq<string>,
                           systemId: Option<Value>, now: nat)
    requires VisitOrder(active, order)
    modifies store
    ensures store.delivered == old(store.delivered) + ActiveDeliveries(systemId, InOrder(active, order), now)
    ensures store.partitionCounter == old(store.partitionCounter)
  {
    for i := 0 to |order|
      invariant store.delivered == old(store.delivered) + ActiveDeliveries(systemId, InOrder(active, order[..i]), now)
      invariant store.partitionCounter == old(store.partitionCounter)
    {
      var event := active[order[i]];
      if event.closedAt.None? {
        event := event.(closedAt := Some(now));
        if systemId.Some? {
          store.AddEvent([systemId.value], event);
        }
      }
      assert InOrder(active, order[..i + 1])[..i] == InOrder(active, order[..i]);
    }
    assert order[..|order|] == order;
  }

  /** The active-events pass followed by `_local.active_events.clear()`. */
  method CloseActiveEvents(ctx: ExecutionContext, store: EventStore, order: seq<string>, now: nat)
    requires VisitOrder(ctx.localActiveEvents, order)
    modifies ctx, store
    ensures store.delivered == old(store.delivered)
              + ActiveDeliveries(old(ctx.localSystemId), InOrder(old(ctx.localActiveEvents), order), now)
    ensures ctx.State() == old(ctx.State()).(localActiveEvents := map[])
    ensures store.partitionCounter == old(store.partitionCounter)
  {
    StoreActiveEvents(store, ctx.localActiveEvents, order, ctx.localSystemId, now);
    ctx.SetActiveEvents(ThreadLocal, map[]);
  }

  // ---------------------------------------------------------------------
  // upload_helper

  const MissingKeyMessage: string := "SYNTH_API_KEY environment variable not set"
  const NoTracesMessage: string := "No system traces found"

  /** `if not api_key`: an unset or empty key is missing. */
  predicate KeyPresent(apiKey: Option<string>) {
    apiKey.Some? && apiKey.value != ""
  }

  /** What `upload_helper` hands back besides the server response: the
      traces it sent and the formatted arrays. */
  datatype UploadOutput = UploadOutput(sent: seq<SystemTrace>, formatted: Formatted)

  /** The `try` block after the close pass, as written: the empty check
      raises inside the `try`, and with `verbose` the handler reads
      `traces_dict`, which is not yet bound. */
  function EmptyTracesErrorAsWritten(verbose: bool): (e: PyException)
    ensures verbose <==> e.UnboundLocalError?
  {
    if verbose then UnboundLocalError("cannot access local variable 'traces_dict' where it is not associated with a value")
    else ValueError(NoTracesMessage)
  }

  /** The `try` block as written: it differs from `UploadResult` only in
      the empty case. */
  function UploadResultAsWritten(verbose: bool, dataset: Dataset, traces: seq<SystemTrace>): (r: Result<UploadOutput, PyException>)
    ensures r.Failure? && !r.error.ValueError? <==> verbose && traces == []
  {
    if traces == [] then Failure(EmptyTracesErrorAsWritten(verbose)) else UploadResult(dataset, traces)
  }

  /** With `verbose` and no traces at all the code raises UnboundLocalError,
      not the ValueError it raises without `verbose`. */
  lemma EmptyTracesVerboseRaisesUnboundLocal(dataset: Dataset)
    ensures UploadResultAsWritten(true, dataset, []).error.UnboundLocalError?
    ensures UploadResultAsWritten(false, dataset, []) == UploadResult(dataset, [])
    ensures UploadResultAsWritten(true, dataset, []) != UploadResult(dataset, [])
  {
  }

  /** The `try` block after the close pass, with the empty-trace error the
      code means to raise whatever `verbose` is: serialise, validate, and
      format. Sending is not modelled. */
  function UploadResult(dataset: Dataset, traces: seq<SystemTrace>): (r: Result<UploadOutput, PyException>)
    ensures traces == [] <==> r == Failure(ValueError(NoTracesMessage))
    ensures r.Failure? ==> r.error.ValueError?
    ensures traces != [] ==> r.Success? && r.value.sent == traces
  {
    if traces == [] then Failure(ValueError(NoTracesMessage))
    else
      SerialisedUploadValidates(traces, dataset);
      match ValidateUpload(TraceDicts(traces), DatasetToDict(dataset))
      case Failure(e) => Failure(e)
      case Success(_) => Success(UploadOutput(traces, FormatUploadOutput(dataset, traces)))
  }

  /** `upload_helper(dataset, traces)`, with the empty-traces handler as
      corrected in `UploadResult`; the `verbose` flag, whose only effect
      beyond printing is the UnboundLocalError of `UploadResultAsWritten`,
      is not an input. `apiKey` is the
      environment variable, `logged` what the store's
      `get_system_traces()` returns, `activeTime` and `passTime` the clock
      readings of the two passes and `activeOrder` the iteration order of
      `_local.active_events`. */
  method UploadHelper(ctx: ExecutionContext, store: EventStore, apiKey: Option<string>, dataset: Dataset,
                      traces: seq<SystemTrace>, logged: seq<SystemTrace>, activeOrder: seq<string>,
                      activeTime: nat, passTime: nat)
    returns (r: Result<UploadOutput, PyException>)
    requires VisitOrder(ctx.localActiveEvents, activeOrder)
    modifies ctx, store
    ensures !KeyPresent(apiKey) ==>
              && r == Failure(ValueError(MissingKeyMessage))
              && ctx.State() == old(ctx.State())
              && store.delivered == old(store.delivered)
    ensures KeyPresent(apiKey) ==>
              && r == UploadResult(dataset, CloseTraces(logged + traces, passTime))
              && ctx.State() == old(ctx.State()).(localActiveEvents := map[])
              && store.delivered == old(store.delivered)
                   + ActiveDeliveries(old(ctx.localSystemId), InOrder(old(ctx.localActiveEvents), activeOrder), activeTime)
                   + TraceDeliveries(logged + traces, passTime)
    ensures store.partitionCounter == old(store.partitionCounter)
  {
    if !KeyPresent(apiKey) {
      return Failure(ValueError(MissingKeyMessage));
    }
    CloseActiveEvents(ctx, store, activeOrder, activeTime);
    var all := logged + traces;
    var closed := CloseTracesOf(store, all, passTime);
    r := UploadResult(dataset, closed);
  }

  /** After the upload every event it sent is closed, the stored traces come
      first, and an empty combined list is the ValueError. */
  lemma UploadSendsClosedTraces(dataset: Dataset, traces: seq<SystemTrace>, logged: seq<SystemTrace>, now: nat)
    ensures var r := UploadResult(dataset, CloseTraces(logged + traces, now));
      && (logged + traces == [] <==> r == Failure(ValueError(NoTracesMessage)))
      && (r.Success? ==> AllClosed(r.value.sent)
                         && r.value.sent[..|logged|] == CloseTraces(logged, now)
                         && r.value.sent[|logged|..] == CloseTraces(traces, now))
  {
    CloseTracesProperties(logged + traces, now);
    CloseTracesAppend(logged, traces, now);
  }
}
