/// The dispatcher that turns a stored outbox command into a call of the one
/// handler registered for the command's runtime type, with its per-type cache
/// of invokers. The first half specifies one dispatch as a function of the
/// dispatcher's state; the second half is the dispatcher itself, a class whose
/// methods are proved to follow that specification.
module Dispatch {
  import opened Freakout

  /// The handler registrations the dependency injection container holds:
  /// the `ICommandHandler<T>` registered for each `T` (the last registration wins).
  type Services = map<TypeId, CommandHandler>

  /// The compiled delegate that `CreateInvoker` returns. All it captures is the
  /// command type it was built for.
  datatype Invoker = Invoker(commandType: TypeId)

  /// `CreateInvoker`: the invoker that converts its boxed argument to
  /// `commandType` and calls `ExecuteOutboxCommandGeneric<commandType>`.
  function CreateInvoker(commandType: TypeId): (r: Invoker)
    ensures r.commandType == commandType
  {
    Invoker(commandType)
  }

  /// What running a handler, or failing to, does: how the task ends, which
  /// handler calls were made and what was enqueued on the shared event queue.
  datatype Effect = Effect(completion: Completion, handled: seq<HandlerCall>, enqueued: seq<string>)

  /// `ExecuteOutboxCommandGeneric<T>`: resolve `ICommandHandler<T>` and await it
  /// with the given command and token.
  function ExecuteGeneric(services: Services, commandType: TypeId, command: Command, token: CancellationToken): Effect
  {
    if commandType !in services then
      Effect(Faulted(InvalidOperationException(commandType)), [], [])
    else
      var call := [HandlerCall(commandType, command, token)];
      match services[commandType].handleAsync(command, token)
      case Handled(enqueued) => Effect(RanToCompletion, call, enqueued)
      case Threw(e) => Effect(Faulted(e), call, [])
  }

  /// Calling an invoker: convert the boxed command to the invoker's type, then
  /// run the generic method for that type.
  function Invoke(invoker: Invoker, services: Services, command: Command, token: CancellationToken): Effect
  {
    if command.commandType != invoker.commandType then
      Effect(Faulted(InvalidCastException(command.commandType, invoker.commandType)), [], [])
    else
      ExecuteGeneric(services, invoker.commandType, command, token)
  }

  /// The dispatcher's observable state: the invoker cache, every type
  /// `CreateInvoker` was called for (with repetition), every handler call
  /// made, and the contents of the shared event queue.
  datatype DispatcherState = DispatcherState(
    invokers: map<TypeId, Invoker>,
    created: multiset<TypeId>,
    handled: seq<HandlerCall>,
    events: seq<string>)

  /// Every cached invoker is the one `CreateInvoker` builds for its key.
  ghost predicate CacheCoherent(invokers: map<TypeId, Invoker>) {
    forall t :: t in invokers ==> invokers[t] == CreateInvoker(t)
  }

  /// The cache is coherent and `CreateInvoker` ran exactly once for each
  /// cached type and for no other type.
  ghost predicate Consistent(invokers: map<TypeId, Invoker>, created: multiset<TypeId>) {
    CacheCoherent(invokers) && created == multiset(invokers.Keys)
  }

  /// The state after one dispatch and how the dispatch ended.
  datatype Step = Step(state: DispatcherState, completion: Completion)

  /// `ExecuteAsync`: deserialise, take the invoker for the command's runtime
  /// type from the cache (creating and caching it when absent), then call it.
  function Execute(
    deserialize: OutboxCommand -> Result<Command>, services: Services, st: DispatcherState,
    outboxCommand: OutboxCommand, token: CancellationToken): Step
  {
    match deserialize(outboxCommand)
    case Failure(e) => Step(st, Faulted(e))
    case Success(command) =>
      var t := command.commandType;
      var absent := t !in st.invokers;
      var invokers := if absent then st.invokers[t := CreateInvoker(t)] else st.invokers;
      var created := if absent then st.created + multiset{t} else st.created;
      var effect := Invoke(invokers[t], services, command, token);
      Step(DispatcherState(invokers, created, st.handled + effect.handled, st.events + effect.enqueued), effect.completion)
  }

  /// Reference dispatch without any cache: deserialise and run the generic
  /// method for the command's runtime type directly.
  function Direct(
    deserialize: OutboxCommand -> Result<Command>, services: Services,
    outboxCommand: OutboxCommand, token: CancellationToken): Effect
  {
    match deserialize(outboxCommand)
    case Failure(e) => Effect(Faulted(e), [], [])
    case Success(command) => ExecuteGeneric(services, command.commandType, command, token)
  }

  /// One awaited `ExecuteAsync` call.
  datatype Request = Request(outboxCommand: OutboxCommand, token: CancellationToken)

  /// The final state of a run of sequential dispatches and how each ended.
  datatype Trace = Trace(state: DispatcherState, completions: seq<Completion>)

  /// Dispatching the requests one after the other, each awaited before the next.
  function Run(
    deserialize: OutboxCommand -> Result<Command>, services: Services, st: DispatcherState,
    requests: seq<Request>): Trace
    decreases |requests|
  {
    if requests == [] then Trace(st, [])
    else
      var step := Execute(deserialize, services, st, requests[0].outboxCommand, requests[0].token);
      var rest := Run(deserialize, services, step.state, requests[1..]);
      Trace(rest.state, [step.completion] + rest.completions)
  }

  /// What the cache-free reference does for the same requests, in order.
  datatype Effects = Effects(completions: seq<Completion>, handled: seq<HandlerCall>, enqueued: seq<string>)

  function DirectRun(
    deserialize: OutboxCommand -> Result<Command>, services: Services, requests: seq<Request>): Effects
    decreases |requests|
  {
    if requests == [] then Effects([], [], [])
    else
      var e := Direct(deserialize, services, requests[0].outboxCommand, requests[0].token);
      var rest := DirectRun(deserialize, services, requests[1..]);
      Effects([e.completion] + rest.completions, e.handled + rest.handled, e.enqueued + rest.enqueued)
  }

  /// The runtime types of the requests whose command deserialises.
  function DeserializedTypes(deserialize: OutboxCommand -> Result<Command>, requests: seq<Request>): set<TypeId>
    decreases |requests|
  {
    if requests == [] then {}
    else
      var here := match deserialize(requests[0].outboxCommand)
        case Success(command) => {command.commandType}
        case Failure(_) => {};
      here + DeserializedTypes(deserialize, requests[1..])
  }

  /// The `ConcurrentQueue<string>` singleton that handlers enqueue to.
  class EventQueue {
    var items: seq<string>

    constructor ()
      ensures items == []
    {
      items := [];
    }

    method EnqueueAll(xs: seq<string>)
      modifies this
      ensures items == old(items) + xs
    {
      items := items + xs;
    }
  }

  /// The service provider the dispatcher's scope factory belongs to: the
  /// handler registrations and the singleton event queue.
  class ServiceProvider {
    const handlers: Services
    const events: EventQueue

    constructor (handlers: Services, events: EventQueue)
      ensures this.handlers == handlers && this.events == events
    {
      this.handlers := handlers;
      this.events := events;
    }
  }

  /// A resolution scope opened from the provider for one dispatch.
  class ServiceScope {
    const provider: ServiceProvider
    var disposed: bool

    constructor (provider: ServiceProvider)
      ensures this.provider == provider && !disposed
    {
      this.provider := provider;
      disposed := false;
    }

    /// `GetRequiredService<ICommandHandler<T>>`: the registered handler, or an
    /// `InvalidOperationException` naming the type when there is none.
    method GetRequiredService(serviceType: TypeId) returns (r: Result<CommandHandler>)
      requires !disposed
      ensures r.Success? <==> serviceType in provider.handlers
      ensures r.Success? ==> r.value == provider.handlers[serviceType]
      ensures r.Failure? ==> r.error == InvalidOperationException(serviceType)
    {
      if serviceType in provider.handlers {
        r := Success(provider.handlers[serviceType]);
      } else {
        r := Failure(InvalidOperationException(serviceType));
      }
    }

    method Dispose()
      modifies this
      ensures disposed
    {
      disposed := true;
    }
  }

  /// `FreakoutDispatcher`. Ghost fields record what the specification talks
  /// about: the `CreateInvoker` calls, the handler calls and every scope opened.
  class FreakoutDispatcher {
    const commandSerializer: OutboxCommand -> Result<Command>
    const serviceScopeFactory: ServiceProvider
    var invokers: map<TypeId, Invoker>
    ghost var created: multiset<TypeId>
    ghost var handled: seq<HandlerCall>
    ghost var scopes: seq<ServiceScope>

    ghost function State(): DispatcherState
      reads this, serviceScopeFactory.events
    {
      DispatcherState(invokers, created, handled, serviceScopeFactory.events.items)
    }

    /// The cache is consistent and every scope opened so far has been disposed.
    ghost predicate Valid()
      reads this, scopes
    {
      Consistent(invokers, created) && forall i :: 0 <= i < |scopes| ==> scopes[i].disposed
    }

    constructor (commandSerializer: OutboxCommand -> Result<Command>, serviceScopeFactory: ServiceProvider)
      ensures Valid()
      ensures this.commandSerializer == commandSerializer && this.serviceScopeFactory == serviceScopeFactory
      ensures State() == DispatcherState(map[], multiset{}, [], serviceScopeFactory.events.items)
      ensures scopes == []
    {
      this.commandSerializer := commandSerializer;
      this.serviceScopeFactory := serviceScopeFactory;
      invokers := map[];
      created := multiset{};
      handled := [];
      scopes := [];
    }

    /// `ExecuteAsync`. Opens one scope exactly when the command deserialises,
    /// and every scope is disposed again when the call returns.
    method ExecuteAsync(outboxCommand: OutboxCommand, cancellationToken: CancellationToken) returns (completion: Completion)
      requires Valid()
      modifies this, serviceScopeFactory.events
      ensures Valid()
      ensures var step := Execute(commandSerializer, serviceScopeFactory.handlers, old(State()), outboxCommand, cancellationToken);
              State() == step.state && completion == step.completion
      ensures |scopes| == |old(scopes)| + (if commandSerializer(outboxCommand).Success? then 1 else 0)
      ensures scopes[..|old(scopes)|] == old(scopes)
      ensures forall i :: |old(scopes)| <= i < |scopes| ==> fresh(scopes[i])
    {
      var deserialized := commandSerializer(outboxCommand);
      if deserialized.Failure? {
        return Faulted(deserialized.error);
      }
      var command := deserialized.value;
      var commandType := command.commandType;
      var invoker;
      if commandType in invokers {
        invoker := invokers[commandType];
      } else {
        invoker := CreateInvoker(commandType);
        invokers := invokers[commandType := invoker];
        created := created + multiset{commandType};
      }
      completion := CallInvoker(invoker, command, cancellationToken);
    }

    /// Calling the compiled invoker: the conversion of the boxed command to
    /// the invoker's type, then the generic method for that type.
    method CallInvoker(invoker: Invoker, command: Command, cancellationToken: CancellationToken) returns (completion: Completion)
      requires Valid()
      modifies this, serviceScopeFactory.events
      ensures Valid()
      ensures invokers == old(invokers) && created == old(created)
      ensures var effect := Invoke(invoker, serviceScopeFactory.handlers, command, cancellationToken);
              handled == old(handled) + effect.handled &&
              serviceScopeFactory.events.items == old(serviceScopeFactory.events.items) + effect.enqueued &&
              completion == effect.completion
      ensures |scopes| == |old(scopes)| + (if command.commandType == invoker.commandType then 1 else 0)
      ensures scopes[..|old(scopes)|] == old(scopes)
      ensures forall i :: |old(scopes)| <= i < |scopes| ==> fresh(scopes[i])
    {
      if command.commandType != invoker.commandType {
        return Faulted(InvalidCastException(command.commandType, invoker.commandType));
      }
      completion := ExecuteOutboxCommandGeneric(invoker.commandType, command, cancellationToken);
    }

    /// `ExecuteOutboxCommandGeneric<TCommand>`: a `using` scope around the
    /// resolution and the awaited handler call, disposed on every exit.
    method ExecuteOutboxCommandGeneric(commandType: TypeId, command: Command, cancellationToken: CancellationToken)
      returns (completion: Completion)
      requires Valid()
      modifies this, serviceScopeFactory.events
      ensures Valid()
      ensures invokers == old(invokers) && created == old(created)
      ensures var effect := ExecuteGeneric(serviceScopeFactory.handlers, commandType, command, cancellationToken);
              handled == old(handled) + effect.handled &&
              serviceScopeFactory.events.items == old(serviceScopeFactory.events.items) + effect.enqueued &&
              completion == effect.completion
      ensures |scopes| == |old(scopes)| + 1 && scopes[..|old(scopes)|] == old(scopes)
      ensures fresh(scopes[|old(scopes)|])
    {
      var scope := new ServiceScope(serviceScopeFactory);
      scopes := scopes + [scope];
      var handler := scope.GetRequiredService(commandType);
      if handler.Failure? {
        scope.Dispose();
        return Faulted(handler.error);
      }
      handled := handled + [HandlerCall(commandType, command, cancellationToken)];
      var outcome := handler.value.handleAsync(command, cancellationToken);
      match outcome {
        case Handled(enqueued) =>
          serviceScopeFactory.events.EnqueueAll(enqueued);
          completion := RanToCompletion;
        case Threw(e) =>
          completion := Faulted(e);
      }
      scope.Dispose();
    }
  }
}
