/** Explicit state for the collaborators the tracing core reads and writes:
    the per-thread / per-task execution context, the state collector
    (tracker) and the process-wide event store. Their own source files are
    not part of this model, so each is given only the behaviour the core
    relies on, and nothing more. */
module Runtime {
  import opened Values
  import opened Abstractions

  datatype Origin = Agent | Environment

  datatype Role = Input | Output

  /** Where identity and active events live: thread-local storage
      (`_local`, used by the synchronous wrapper) or context variables
      (used by the asynchronous wrapper). */
  datatype Backend = ThreadLocal | ContextVars

  /** The exceptions the core raises or passes on. */
  datatype PyException =
    | ValueError(message: string)
    | TypeError(message: string)
    | UnboundLocalError(message: string)
    | TrackingError(refused: Value)
    | OtherError(name: string, message: string)

  /** How a call ends: a normal return or an exception. */
  datatype Outcome = Returned(value: Value) | Raised(exception: PyException)

  /** A raw record of the collector: a tracked variable, a tracked LM
      message exchange, or anything else a tracker may hold. */
  datatype Record =
    | VariableRecord(origin: Origin, name: string, value: Value)
    | MessageRecord(origin: Origin, messages: seq<Message>, modelName: Value, finetune: bool)
    | OtherRecord(origin: Origin, fields: map<string, Value>)

  /** One call of `event_store.add_event`: its leading identity arguments
      (as many as the caller passed) and the event. */
  datatype Delivery = Delivery(args: seq<Value>, event: Event)

  /** The whole execution context at one moment. For thread-local storage,
      None means the attribute is absent; a context variable reads as Null
      when unset. An absent `active_events` attribute reads as the empty map. */
  datatype ContextState = ContextState(
    localInstanceId: Option<Value>,
    localSystemName: Option<Value>,
    localSystemId: Option<Value>,
    localActiveEvents: map<string, Event>,
    instanceIdVar: Value,
    systemNameVar: Value,
    systemIdVar: Value,
    activeEventsVar: map<string, Event>)
  {
    function Active(b: Backend): map<string, Event> {
      match b
      case ThreadLocal => localActiveEvents
      case ContextVars => activeEventsVar
    }

    /** The state with backend `b`'s active-events map replaced by `m`:
        the other backend's map and every identity field are untouched. */
    function WithActive(b: Backend, m: map<string, Event>): (s: ContextState)
      ensures s.Active(b) == m
      ensures forall c :: c != b ==> s.Active(c) == Active(c)
      ensures s.(localActiveEvents := localActiveEvents, activeEventsVar := activeEventsVar) == this
    {
      match b
      case ThreadLocal => this.(localActiveEvents := m)
      case ContextVars => this.(activeEventsVar := m)
    }

    /** The identity arguments the wrapper passes to the store:
        (system_name, system_id, system_instance_id) of the backend. */
    function IdentityArgs(b: Backend): seq<Value> {
      match b
      case ThreadLocal =>
        [localSystemName.GetOr(Null), localSystemId.GetOr(Null), localInstanceId.GetOr(Null)]
      case ContextVars => [systemNameVar, systemIdVar, instanceIdVar]
    }
  }

  class ExecutionContext {
    var localInstanceId: Option<Value>
    var localSystemName: Option<Value>
    var localSystemId: Option<Value>
    var localActiveEvents: map<string, Event>
    var instanceIdVar: Value
    var systemNameVar: Value
    var systemIdVar: Value
    var activeEventsVar: map<string, Event>

    constructor ()
      ensures State() == ContextState(None, None, None, map[], Null, Null, Null, map[])
    {
      localInstanceId, localSystemName, localSystemId, localActiveEvents := None, None, None, map[];
      instanceIdVar, systemNameVar, systemIdVar, activeEventsVar := Null, Null, Null, map[];
    }

    function State(): ContextState
      reads this
    {
      ContextState(localInstanceId, localSystemName, localSystemId, localActiveEvents,
                   instanceIdVar, systemNameVar, systemIdVar, activeEventsVar)
    }

    function ActiveEvents(b: Backend): map<string, Event>
      reads this
    {
      State().Active(b)
    }

    method SetActiveEvents(b: Backend, m: map<string, Event>)
      modifies this
      ensures State() == old(State()).WithActive(b, m)
    {
      match b
      case ThreadLocal => localActiveEvents := m;
      case ContextVars => activeEventsVar := m;
    }

    /** `set_current_event(event)`: registers the event as the active one
        of its event_type in the backend's active-events map. */
    method SetCurrentEvent(b: Backend, event: Event)
      modifies this
      ensures State() == old(State()).WithActive(b, old(State()).Active(b)[event.eventType := event])
    {
      SetActiveEvents(b, ActiveEvents(b)[event.eventType := event]);
    }

    /** `clear_current_event(event_type)`: the event_type no longer has an
        active event in the backend. */
    method ClearCurrentEvent(b: Backend, eventType: string)
      modifies this
      ensures State() == old(State()).WithActive(b, old(State()).Active(b) - {eventType})
    {
      SetActiveEvents(b, ActiveEvents(b) - {eventType});
    }
  }

  /** The state collector of one concurrency domain. Whether `track_state`
      refuses a value (raises) is the tracker's business; `accepts` says
      which values it takes. */
  class Collector {
    const accepts: Value -> bool
    var inputs: seq<Record>
    var outputs: seq<Record>

    constructor (accepts: Value -> bool)
      ensures this.accepts == accepts && inputs == [] && outputs == []
    {
      this.accepts := accepts;
      inputs, outputs := [], [];
    }

    /** `initialize()`: empties the buffer at the start of a call. */
    method Initialize()
      modifies this
      ensures inputs == [] && outputs == []
    {
      inputs, outputs := [], [];
    }

    /** `track_state(name, value, origin, io_type)`: appends one variable
        record to the list of its role, or refuses the value (ok false)
        and records nothing. */
    method TrackState(name: string, value: Value, origin: Origin, role: Role) returns (ok: bool)
      modifies this
      ensures ok == accepts(value)
      ensures inputs == old(inputs) + (if ok && role == Input then [VariableRecord(origin, name, value)] else [])
      ensures outputs == old(outputs) + (if ok && role == Output then [VariableRecord(origin, name, value)] else [])
    {
      ok := accepts(value);
      if ok {
        match role
        case Input => inputs := inputs + [VariableRecord(origin, name, value)];
        case Output => outputs := outputs + [VariableRecord(origin, name, value)];
      }
    }

    /** The records the wrapped function adds itself (through `track_lm`
        and `track_state`) while it runs. */
    method Absorb(ins: seq<Record>, outs: seq<Record>)
      modifies this
      ensures inputs == old(inputs) + ins && outputs == old(outputs) + outs
    {
      inputs, outputs := inputs + ins, outputs + outs;
    }

    /** `get_traced_data()`: hands over all records by role and empties the buffer. */
    method GetTracedData() returns (ins: seq<Record>, outs: seq<Record>)
      modifies this
      ensures ins == old(inputs) && outs == old(outputs)
      ensures inputs == [] && outputs == []
    {
      ins, outs := inputs, outputs;
      inputs, outputs := [], [];
    }
  }

  /** The event store, seen from outside: the sequence of `add_event` calls
      it has received and an opaque partition counter. */
  class EventStore {
    var delivered: seq<Delivery>
    var partitionCounter: int

    constructor (counter: int)
      ensures delivered == [] && partitionCounter == counter
    {
      delivered, partitionCounter := [], counter;
    }

    /** `increment_partition(system_name, system_id, system_instance_id)`:
        returns the store's new counter value; nothing is promised about
        how that value relates to earlier ones. */
    method IncrementPartition(args: seq<Value>) returns (p: int)
      modifies this
      ensures p == partitionCounter
      ensures delivered == old(delivered)
    {
      partitionCounter := partitionCounter + 1;
      p := partitionCounter;
    }

    /** `add_event(..., event)`: the store receives the event. */
    method AddEvent(args: seq<Value>, event: Event)
      modifies this
      ensures delivered == old(delivered) + [Delivery(args, event)]
      ensures partitionCounter == old(partitionCounter)
    {
      delivered := delivered + [Delivery(args, event)];
    }
  }
}
