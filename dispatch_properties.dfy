/// What the dispatcher promises, stated about the specification of one
/// dispatch (`Dispatch.Execute`) and of a run of sequential dispatches
/// (`Dispatch.Run`).
module DispatchProperties {
  import opened Freakout
  import opened Dispatch

  /// A command that fails to deserialise faults the dispatch with the
  /// serializer's own exception and leaves the dispatcher's state, the cache
  /// included, exactly as it was.
  lemma DeserializationFailurePropagates(
    deserialize: OutboxCommand -> Result<Command>, services: Services, st: DispatcherState,
    outboxCommand: OutboxCommand, token: CancellationToken)
    requires deserialize(outboxCommand).Failure?
    ensures Execute(deserialize, services, st, outboxCommand, token)
         == Step(st, Faulted(deserialize(outboxCommand).error))
  {
  }

  /// Once a command deserialises, its runtime type is cached, whatever the
  /// handler then does, and an invoker already cached for it is the one kept.
  lemma CacheFilledBeforeInvoke(
    deserialize: OutboxCommand -> Result<Command>, services: Services, st: DispatcherState,
    outboxCommand: OutboxCommand, token: CancellationToken)
    requires deserialize(outboxCommand).Success?
    ensures var t := deserialize(outboxCommand).value.commandType;
            var s := Execute(deserialize, services, st, outboxCommand, token).state;
            t in s.invokers && (t in st.invokers ==> s.invokers[t] == st.invokers[t])
  {
  }

  /// The cache only grows: no entry is removed or replaced, the only key
  /// that can appear is the dispatched command's type, and `CreateInvoker`
  /// runs exactly when that type was absent.
  lemma CacheOnlyGrows(
    deserialize: OutboxCommand -> Result<Command>, services: Services, st: DispatcherState,
    outboxCommand: OutboxCommand, token: CancellationToken)
    ensures var s := Execute(deserialize, services, st, outboxCommand, token).state;
            && (forall t :: t in st.invokers ==> t in s.invokers && s.invokers[t] == st.invokers[t])
            && s.invokers.Keys
               == st.invokers.Keys + (if deserialize(outboxCommand).Success?
                                      then {deserialize(outboxCommand).value.commandType} else {})
            && s.created
               == st.created + (if deserialize(outboxCommand).Success?
                                   && deserialize(outboxCommand).value.commandType !in st.invokers
                                then multiset{deserialize(outboxCommand).value.commandType} else multiset{})
  {
  }

  /// One dispatch keeps the cache coherent and keeps `CreateInvoker` at
  /// exactly one call per cached type.
  lemma ExecuteKeepsConsistent(
    deserialize: OutboxCommand -> Result<Command>, services: Services, st: DispatcherState,
    outboxCommand: OutboxCommand, token: CancellationToken)
    requires Consistent(st.invokers, st.created)
    ensures var s := Execute(deserialize, services, st, outboxCommand, token).state;
            Consistent(s.invokers, s.created)
  {
    if deserialize(outboxCommand).Success? {
      var t := deserialize(outboxCommand).value.commandType;
      if t !in st.invokers {
        assert st.invokers[t := CreateInvoker(t)].Keys == st.invokers.Keys + {t};
        assert multiset(st.invokers.Keys + {t}) == multiset(st.invokers.Keys) + multiset{t};
      }
    }
  }

  /// The conversion inside a cached invoker never refuses a command that
  /// reached it through dispatch: the invoker found or created for the
  /// command's runtime type was built for that very type, so the dispatch is
  /// `ExecuteOutboxCommandGeneric` of the command's own type. An
  /// `InvalidCastException` can then only come from the handler itself.
  lemma CachedInvokerNeverMiscasts(
    deserialize: OutboxCommand -> Result<Command>, services: Services, st: DispatcherState,
    outboxCommand: OutboxCommand, token: CancellationToken)
    requires CacheCoherent(st.invokers)
    requires deserialize(outboxCommand).Success?
    ensures var command := deserialize(outboxCommand).value;
            var step := Execute(deserialize, services, st, outboxCommand, token);
            var e := ExecuteGeneric(services, command.commandType, command, token);
            && command.commandType in step.state.invokers
            && step.state.invokers[command.commandType].commandType == command.commandType
            && step.completion == e.completion
            && step.state.handled == st.handled + e.handled
            && step.state.events == st.events + e.enqueued
    ensures var step := Execute(deserialize, services, st, outboxCommand, token);
            step.completion.Faulted? && step.completion.exception.InvalidCastException? ==>
              |step.state.handled| == |st.handled| + 1
  {
  }

  /// With a handler registered for the command's runtime type, dispatch calls
  /// that handler once, with the deserialised command and the caller's token,
  /// and ends as the handler does: completed with its events enqueued, or
  /// faulted with the handler's own exception and nothing enqueued.
  lemma RoutesToRegisteredHandler(
    deserialize: OutboxCommand -> Result<Command>, services: Services, st: DispatcherState,
    outboxCommand: OutboxCommand, token: CancellationToken)
    requires CacheCoherent(st.invokers)
    requires deserialize(outboxCommand).Success?
    requires deserialize(outboxCommand).value.commandType in services
    ensures var command := deserialize(outboxCommand).value;
            var t := command.commandType;
            var step := Execute(deserialize, services, st, outboxCommand, token);
            && step.state.handled == st.handled + [HandlerCall(t, command, token)]
            && match services[t].handleAsync(command, token)
               case Handled(enqueued) =>
                 step.completion == RanToCompletion && step.state.events == st.events + enqueued
               case Threw(e) =>
                 step.completion == Faulted(e) && step.state.events == st.events
  {
  }

  /// With no handler registered for the command's runtime type, dispatch
  /// faults with an `InvalidOperationException` naming that type, and no
  /// handler runs.
  lemma MissingHandlerFails(
    deserialize: OutboxCommand -> Result<Command>, services: Services, st: DispatcherState,
    outboxCommand: OutboxCommand, token: CancellationToken)
    requires CacheCoherent(st.invokers)
    requires deserialize(outboxCommand).Success?
    requires deserialize(outboxCommand).value.commandType !in services
    ensures var step := Execute(deserialize, services, st, outboxCommand, token);
            && step.completion == Faulted(InvalidOperationException(deserialize(outboxCommand).value.commandType))
            && step.state.handled == st.handled
            && step.state.events == st.events
  {
  }

  /// The cache is transparent: with a coherent cache, one dispatch does what
  /// the cache-free reference does.
  lemma ExecuteMatchesDirect(
    deserialize: OutboxCommand -> Result<Command>, services: Services, st: DispatcherState,
    outboxCommand: OutboxCommand, token: CancellationToken)
    requires CacheCoherent(st.invokers)
    ensures var step := Execute(deserialize, services, st, outboxCommand, token);
            var e := Direct(deserialize, services, outboxCommand, token);
            && step.completion == e.completion
            && step.state.handled == st.handled + e.handled
            && step.state.events == st.events + e.enqueued
            && CacheCoherent(step.state.invokers)
  {
  }

  /// One step of a run: the first dispatch leaves a coherent state `next`
  /// from which the rest of the run starts, and it ends, calls handlers and
  /// enqueues events as the cache-free reference's first step `e` does.
  lemma RunStepMatchesDirect(
    deserialize: OutboxCommand -> Result<Command>, services: Services, st: DispatcherState,
    requests: seq<Request>)
    returns (next: DispatcherState, e: Effect)
    requires CacheCoherent(st.invokers)
    requires requests != []
    ensures var r := Run(deserialize, services, next, requests[1..]);
            var d := DirectRun(deserialize, services, requests[1..]);
            && Run(deserialize, services, st, requests) == Trace(r.state, [e.completion] + r.completions)
            && DirectRun(deserialize, services, requests)
               == Effects([e.completion] + d.completions, e.handled + d.handled, e.enqueued + d.enqueued)
            && next.handled == st.handled + e.handled
            && next.events == st.events + e.enqueued
            && CacheCoherent(next.invokers)
  {
    next := Execute(deserialize, services, st, requests[0].outboxCommand, requests[0].token).state;
    e := Direct(deserialize, services, requests[0].outboxCommand, requests[0].token);
    ExecuteMatchesDirect(deserialize, services, st, requests[0].outboxCommand, requests[0].token);
  }

  /// Over any run of sequential dispatches the cache is transparent: every
  /// dispatch ends as the cache-free reference's does, and handlers are
  /// called and events enqueued in the order the requests were made.
  lemma {:induction false} RunMatchesDirect(
    deserialize: OutboxCommand -> Result<Command>, services: Services, st: DispatcherState,
    requests: seq<Request>)
    requires CacheCoherent(st.invokers)
    ensures var r := Run(deserialize, services, st, requests);
            var d := DirectRun(deserialize, services, requests);
            && r.completions == d.completions
            && r.state.handled == st.handled + d.handled
            && r.state.events == st.events + d.enqueued
            && CacheCoherent(r.state.invokers)
    decreases |requests|
  {
    if requests != [] {
      var next, e := RunStepMatchesDirect(deserialize, services, st, requests);
      RunMatchesDirect(deserialize, services, next, requests[1..]);
      var d := DirectRun(deserialize, services, requests[1..]);
      AppendAssociative(st.handled, e.handled, d.handled);
      AppendAssociative(st.events, e.enqueued, d.enqueued);
    }
  }

  lemma AppendAssociative<T>(a: seq<T>, b: seq<T>, c: seq<T>)
    ensures a + b + c == a + (b + c)
  {
  }

  /// In a consistent state `CreateInvoker` has run once for each cached type
  /// and never for any other.
  lemma CreatedOncePerCachedType(invokers: map<TypeId, Invoker>, created: multiset<TypeId>)
    requires Consistent(invokers, created)
    ensures forall t :: created[t] == (if t in invokers then 1 else 0)
  {
  }

  /// The types cached after one dispatch: those cached before, plus the
  /// dispatched command's type when it deserialises.
  lemma ExecuteCachesDeserializedType(
    deserialize: OutboxCommand -> Result<Command>, services: Services, st: DispatcherState,
    outboxCommand: OutboxCommand, token: CancellationToken)
    ensures Execute(deserialize, services, st, outboxCommand, token).state.invokers.Keys
            == st.invokers.Keys + DeserializedTypes(deserialize, [Request(outboxCommand, token)])
  {
  }

  /// Over any run the types cached afterwards are those cached before plus
  /// those deserialised during it.
  lemma {:induction false} RunCachesDeserializedTypes(
    deserialize: OutboxCommand -> Result<Command>, services: Services, st: DispatcherState,
    requests: seq<Request>)
    ensures Run(deserialize, services, st, requests).state.invokers.Keys
            == st.invokers.Keys + DeserializedTypes(deserialize, requests)
    decreases |requests|
  {
    if requests != [] {
      var r0 := requests[0];
      var step := Execute(deserialize, services, st, r0.outboxCommand, r0.token);
      ExecuteCachesDeserializedType(deserialize, services, st, r0.outboxCommand, r0.token);
      RunCachesDeserializedTypes(deserialize, services, step.state, requests[1..]);
      assert DeserializedTypes(deserialize, requests)
          == DeserializedTypes(deserialize, [r0]) + DeserializedTypes(deserialize, requests[1..]);
    }
  }

  /// Over any run the cache stays coherent and `CreateInvoker` stays at
  /// exactly one call per cached type.
  lemma {:induction false} RunKeepsConsistent(
    deserialize: OutboxCommand -> Result<Command>, services: Services, st: DispatcherState,
    requests: seq<Request>)
    requires Consistent(st.invokers, st.created)
    ensures var s := Run(deserialize, services, st, requests).state;
            Consistent(s.invokers, s.created)
    decreases |requests|
  {
    if requests != [] {
      var r0 := requests[0];
      var step := Execute(deserialize, services, st, r0.outboxCommand, r0.token);
      ExecuteKeepsConsistent(deserialize, services, st, r0.outboxCommand, r0.token);
      RunKeepsConsistent(deserialize, services, step.state, requests[1..]);
    }
  }

  /// Over any run, `CreateInvoker` runs exactly once for each type that was
  /// cached before or deserialised during the run, and never for any other
  /// type; in particular at most once per type.
  lemma RunCreatesEachTypeOnce(
    deserialize: OutboxCommand -> Result<Command>, services: Services, st: DispatcherState,
    requests: seq<Request>)
    requires Consistent(st.invokers, st.created)
    ensures var s := Run(deserialize, services, st, requests).state;
            forall t :: s.created[t] == (if t in st.invokers || t in DeserializedTypes(deserialize, requests) then 1 else 0)
  {
    var s := Run(deserialize, services, st, requests).state;
    RunCachesDeserializedTypes(deserialize, services, st, requests);
    RunKeepsConsistent(deserialize, services, st, requests);
    CreatedOncePerCachedType(s.invokers, s.created);
  }

  /// Over any run the cache only grows: every entry present before the run
  /// is still there afterwards, unchanged.
  lemma {:induction false} RunOnlyGrowsCache(
    deserialize: OutboxCommand -> Result<Command>, services: Services, st: DispatcherState,
    requests: seq<Request>)
    ensures var s := Run(deserialize, services, st, requests).state;
            forall t :: t in st.invokers ==> t in s.invokers && s.invokers[t] == st.invokers[t]
    decreases |requests|
  {
    if requests != [] {
      var step := Execute(deserialize, services, st, requests[0].outboxCommand, requests[0].token);
      CacheOnlyGrows(deserialize, services, st, requests[0].outboxCommand, requests[0].token);
      RunOnlyGrowsCache(deserialize, services, step.state, requests[1..]);
    }
  }

  /// When every request deserialises to a command with a registered handler,
  /// the handlers are called one per request, in request order, each with
  /// its own request's command and token and routed by that command's type.
  lemma {:induction false} DirectRunCallsHandlersInOrder(
    deserialize: OutboxCommand -> Result<Command>, services: Services, requests: seq<Request>)
    requires forall i :: 0 <= i < |requests| ==>
               deserialize(requests[i].outboxCommand).Success? &&
               deserialize(requests[i].outboxCommand).value.commandType in services
    ensures var d := DirectRun(deserialize, services, requests);
            && |d.handled| == |d.completions| == |requests|
            && forall i :: 0 <= i < |requests| ==>
                 var command := deserialize(requests[i].outboxCommand).value;
                 d.handled[i] == HandlerCall(command.commandType, command, requests[i].token)
    decreases |requests|
  {
    if requests != [] {
      DirectRunCallsHandlersInOrder(deserialize, services, requests[1..]);
      var d := DirectRun(deserialize, services, requests);
      var rest := DirectRun(deserialize, services, requests[1..]);
      assert d.handled == [d.handled[0]] + rest.handled;
      forall i | 1 <= i < |requests|
        ensures var command := deserialize(requests[i].outboxCommand).value;
                d.handled[i] == HandlerCall(command.commandType, command, requests[i].token)
      {
        assert requests[1..][i - 1] == requests[i];
      }
    }
  }

  /// The dispatcher itself calls the handlers in request order: when every
  /// request deserialises to a command with a registered handler, a run adds
  /// one handler call per request, each with its own request's command and
  /// token and routed by that command's type.
  lemma RunCallsHandlersInOrder(
    deserialize: OutboxCommand -> Result<Command>, services: Services, st: DispatcherState,
    requests: seq<Request>)
    requires CacheCoherent(st.invokers)
    requires forall i :: 0 <= i < |requests| ==>
               deserialize(requests[i].outboxCommand).Success? &&
               deserialize(requests[i].outboxCommand).value.commandType in services
    ensures var r := Run(deserialize, services, st, requests);
            && |r.state.handled| == |st.handled| + |requests|
            && r.state.handled[..|st.handled|] == st.handled
            && forall i :: 0 <= i < |requests| ==>
                 var command := deserialize(requests[i].outboxCommand).value;
                 r.state.handled[|st.handled| + i] == HandlerCall(command.commandType, command, requests[i].token)
  {
    RunMatchesDirect(deserialize, services, st, requests);
    DirectRunCallsHandlersInOrder(deserialize, services, requests);
  }
}
