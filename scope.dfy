/** The `event_scope(event_type)` context manager: it opens an event,
    publishes it as the current one, hands it to the body, and on every
    exit closes it, clears it and stores it when an instance id is known. */
module Scope {
  import opened Values
  import opened Abstractions
  import opened Runtime

  /** The identity the scope reads on entry. */
  datatype ScopeIdentity = ScopeIdentity(systemInstanceId: Value, systemId: Value, systemName: Value)

  /** What the scope holds between entry and exit. `registry` is the
      active-event map that `set_current_event` / `clear_current_event`
      use when called without a decorator type; which one that is lives in
      `manage.py`, which is not part of this model, so it is a parameter. */
  datatype OpenScope = OpenScope(eventType: string, event: Event, identity: ScopeIdentity, registry: Backend)

  /** Identity comes from the context variables when an event loop is
      running, otherwise from thread-local storage, a missing attribute
      reading as None. */
  function ReadIdentity(s: ContextState, loopRunning: bool): (id: ScopeIdentity)
    ensures loopRunning ==> id == ScopeIdentity(s.instanceIdVar, s.systemIdVar, s.systemNameVar)
    ensures !loopRunning ==> id.systemInstanceId == s.localInstanceId.GetOr(Null)
                             && id.systemId == s.localSystemId.GetOr(Null)
                             && id.systemName == s.localSystemName.GetOr(Null)
    ensures !loopRunning && s.localInstanceId.None? ==> !Truthy(id.systemInstanceId)
  {
    if loopRunning then ScopeIdentity(s.instanceIdVar, s.systemIdVar, s.systemNameVar)
    else ScopeIdentity(s.localInstanceId.GetOr(Null), s.localSystemId.GetOr(Null), s.localSystemName.GetOr(Null))
  }

  /** The event the scope opens at time `now`. */
  function ScopeEvent(eventType: string, now: nat): (e: Event)
    ensures e.eventType == eventType && e.openedAt == now && e.closedAt.None? && e.partitionIndex == 0
    ensures e.agentComputeSteps == [] && e.environmentComputeSteps == []
  {
    Event(eventType, now, None, 0, [], [])
  }

  /** Entering the scope: read identity, build the event, publish it. */
  method EnterScope(ctx: ExecutionContext, eventType: string, loopRunning: bool, registry: Backend, now: nat)
    returns (scope: OpenScope)
    modifies ctx
    ensures scope == OpenScope(eventType, ScopeEvent(eventType, now), ReadIdentity(old(ctx.State()), loopRunning), registry)
    ensures ctx.State() == old(ctx.State()).WithActive(registry, old(ctx.State()).Active(registry)[eventType := scope.event])
  {
    var s := ctx.State();
    var identity := if loopRunning then ScopeIdentity(ctx.instanceIdVar, ctx.systemIdVar, ctx.systemNameVar)
                    else ScopeIdentity(ctx.localInstanceId.GetOr(Null), ctx.localSystemId.GetOr(Null), ctx.localSystemName.GetOr(Null));
    var event := Event(eventType, now, None, 0, [], []);
    ctx.SetCurrentEvent(registry, event);
    scope := OpenScope(eventType, event, identity, registry);
  }

  /** The identity arguments of `add_event`, in its order. */
  function StoreArgs(id: ScopeIdentity): seq<Value> {
    [id.systemName, id.systemId, id.systemInstanceId]
  }

  /** Leaving the scope, whatever the way out: `current` is the event as
      the body left it. It is closed at `now`, its type is cleared, and it
      is stored iff the instance id read on entry is truthy. */
  method ExitScope(ctx: ExecutionContext, store: EventStore, scope: OpenScope, current: Event, now: nat)
    returns (closed: Event)
    modifies ctx, store
    ensures closed == current.(closedAt := Some(now))
    ensures ctx.State() == old(ctx.State()).WithActive(scope.registry, old(ctx.State()).Active(scope.registry) - {scope.eventType})
    ensures store.delivered == old(store.delivered)
              + (if Truthy(scope.identity.systemInstanceId) then [Delivery(StoreArgs(scope.identity), closed)] else [])
    ensures store.partitionCounter == old(store.partitionCounter)
  {
    closed := current.(closedAt := Some(now));
    ctx.ClearCurrentEvent(scope.registry, scope.eventType);
    if Truthy(scope.identity.systemInstanceId) {
      store.AddEvent(StoreArgs(scope.identity), closed);
    }
  }

  /** The whole scope as a function of the state before it: the active
      map and the deliveries after the body has run and the scope has
      exited. `edit` is what the body does to the event it is given. */
  function ScopeEffect(s: ContextState, delivered: seq<Delivery>, eventType: string, loopRunning: bool,
                       registry: Backend, openTime: nat, closeTime: nat, edit: Event -> Event): (r: (ContextState, seq<Delivery>))
    ensures eventType !in r.0.Active(registry)
    ensures forall t :: t in s.Active(registry) && t != eventType ==> t in r.0.Active(registry) && r.0.Active(registry)[t] == s.Active(registry)[t]
    ensures |r.1| == |delivered| + (if Truthy(ReadIdentity(s, loopRunning).systemInstanceId) then 1 else 0)
    ensures r.1[..|delivered|] == delivered
    ensures |r.1| > |delivered| ==>
              r.1[|delivered|].event.closedAt == Some(closeTime) && r.1[|delivered|].args == StoreArgs(ReadIdentity(s, loopRunning))
  {
    var id := ReadIdentity(s, loopRunning);
    var published := s.WithActive(registry, s.Active(registry)[eventType := ScopeEvent(eventType, openTime)]);
    var closed := edit(ScopeEvent(eventType, openTime)).(closedAt := Some(closeTime));
    (published.WithActive(registry, published.Active(registry) - {eventType}),
     if Truthy(id.systemInstanceId) then delivered + [Delivery(StoreArgs(id), closed)] else delivered)
  }

  /** `with event_scope(event_type) as event: <body>`. The body's effect on
      the event is `edit` and its outcome `bodyOutcome`, which the scope
      passes on unchanged, exception or not. */
  method WithEventScope(ctx: ExecutionContext, store: EventStore, eventType: string, loopRunning: bool, registry: Backend,
                        openTime: nat, closeTime: nat, edit: Event -> Event, bodyOutcome: Outcome)
    returns (outcome: Outcome)
    modifies ctx, store
    ensures outcome == bodyOutcome
    ensures (ctx.State(), store.delivered)
         == ScopeEffect(old(ctx.State()), old(store.delivered), eventType, loopRunning, registry, openTime, closeTime, edit)
    ensures store.partitionCounter == old(store.partitionCounter)
  {
    var scope := EnterScope(ctx, eventType, loopRunning, registry, openTime);
    ghost var published := ctx.State();
    var current := edit(scope.event);
    // try: yield event; finally:
    var closed := ExitScope(ctx, store, scope, current, closeTime);
    assert ctx.State() == published.WithActive(registry, published.Active(registry) - {eventType});
    assert closed == edit(ScopeEvent(eventType, openTime)).(closedAt := Some(closeTime));
    ghost var r := ScopeEffect(old(ctx.State()), old(store.delivered), eventType, loopRunning, registry, openTime, closeTime, edit);
    assert r.0 == ctx.State();
    assert r.1 == store.delivered;
    outcome := bodyOutcome;
  }

  /** Without an instance id, neither from the running loop's context
      variables nor from thread-local storage, the scope stores nothing. */
  lemma ScopeWithoutIdentityStoresNothing(s: ContextState, delivered: seq<Delivery>, eventType: string, loopRunning: bool,
                                          registry: Backend, openTime: nat, closeTime: nat, edit: Event -> Event)
    requires loopRunning ==> !Truthy(s.instanceIdVar)
    requires !loopRunning ==> s.localInstanceId.None? || !Truthy(s.localInstanceId.value)
    ensures ScopeEffect(s, delivered, eventType, loopRunning, registry, openTime, closeTime, edit).1 == delivered
  {
    var r := ScopeEffect(s, delivered, eventType, loopRunning, registry, openTime, closeTime, edit);
    assert |r.1| == |delivered|;
    assert r.1 == r.1[..|delivered|];
  }
}
