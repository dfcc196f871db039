# Freakout outbox dispatcher, modelled in Dafny

Freakout is a transactional-outbox library for .NET. Application code stores
an outbox command (headers plus a serialised payload) in the same database
transaction as its business data. Later, `FreakoutDispatcher.ExecuteAsync`
turns each stored command back into a typed command. It routes that command to
the one `ICommandHandler<T>` registered for the command's runtime type `T`. The
dispatcher keeps a `ConcurrentDictionary` from command type to a compiled
invoker, so the reflection work happens once per type.

This project models that dispatcher:

- `freakout.dfy` (module `Freakout`) holds the shared vocabulary. It has the
  stored `OutboxCommand`, in its base form and in the PostgreSQL form with id
  and time. It also has the deserialised `Command` (runtime type plus
  positional members), `CancellationToken`, the exceptions, and
  `CommandHandler`. A handler is a function from command and token to "handled,
  enqueuing these events" or "threw this exception".
- `serialization.dfy` (module `Serialization`) is a small command serializer.
  It stands in for the JSON serializer the tests use. It keeps the type name
  in a header and encodes the members in the payload. Its round trip is
  proved.
- `dispatch.dfy` (module `Dispatch`) has two parts. The first part is the
  specification of one dispatch as a function of the dispatcher's state:
  `CreateInvoker`, `Invoke` (the compiled delegate), `ExecuteGeneric`
  (`ExecuteOutboxCommandGeneric<T>`), `Execute` (`ExecuteAsync`) and `Run`
  (sequential dispatches). It also has a cache-free reference, `Direct` and
  `DirectRun`. The second part is the dispatcher itself:
  - the class `FreakoutDispatcher`, with its mutable `invokers` map;
  - the service scope it opens per dispatch;
  - the provider that holds the handler registrations and the event queue
    singleton the tests register.

  Ghost fields on the dispatcher record every `CreateInvoker` call, every
  handler call and every scope opened. `Valid()` says two things. First,
  every cached invoker was built for its own key, and `CreateInvoker` ran
  exactly once per cached type. Second, every scope opened has been disposed.
- `dispatch_properties.dfy` (module `DispatchProperties`) holds the lemmas.
  They cover the cache filling, monotonicity, at-most-once creation, routing,
  error propagation, and the transparency of the cache over any run of
  dispatches.
- `dispatch_tests.dfy` (module `DispatchTests`) has the repository's two
  dispatcher unit tests, as methods whose postconditions are the tests'
  assertions.

The dependency injection container is a map from command type to handler, so
the last registration wins. Resolving a type that has no registration fails
with `InvalidOperationException`, as `GetRequiredService` does. Handler
exceptions and serializer exceptions reach the caller unchanged, because the
code has no `try`/`catch`. The model therefore surfaces exactly the exceptions
the code throws: `InvalidOperationException` for a missing handler, and the
handler's or the serializer's own exception otherwise.

## Model

| member | source | states |
|---|---|---|
| `Dispatch.FreakoutDispatcher.constructor` | Freakout/Internals/Dispatch/FreakoutDispatcher.cs:11-13 | A new dispatcher has an empty invoker cache, has created no invoker, has called no handler and has opened no scope. |
| `Dispatch.FreakoutDispatcher.ExecuteAsync` | Freakout/Internals/Dispatch/FreakoutDispatcher.cs:15-23 | The new state and the completion are those of `Execute` applied to the old state. It opens one fresh scope exactly when the command deserialises. Every scope is disposed on return, and the cache invariant is kept. |
| `Dispatch.FreakoutDispatcher.CallInvoker` | Freakout/Internals/Dispatch/FreakoutDispatcher.cs:55-58 | Calling an invoker converts the command to the invoker's type. A mismatch faults with `InvalidCastException` and opens no scope. Otherwise it does what `ExecuteOutboxCommandGeneric` does for that type. The cache is untouched. |
| `Dispatch.FreakoutDispatcher.ExecuteOutboxCommandGeneric` | Freakout/Internals/Dispatch/FreakoutDispatcher.cs:25-32 | It opens one fresh scope and resolves `ICommandHandler<T>`. It calls that handler with the given command and token and ends as the handler ends. The scope is disposed on every exit path: success, missing handler, or handler exception. |
| `Dispatch.ServiceScope.GetRequiredService` | Freakout/Internals/Dispatch/FreakoutDispatcher.cs:29 | It returns the handler registered for the type, and succeeds exactly when one is registered. Otherwise it fails with an `InvalidOperationException` naming the type. |
| `Dispatch.ServiceScope.constructor` | Freakout/Internals/Dispatch/FreakoutDispatcher.cs:27 | A scope opened from the provider starts undisposed. |
| `Dispatch.ServiceScope.Dispose` | Freakout/Internals/Dispatch/FreakoutDispatcher.cs:27 | Leaving the `using` block disposes the scope. |
| `Dispatch.ServiceProvider.constructor` | Freakout.Tests/Dispatch/TestDefaultCommandDispatcher.cs:52 | The built provider holds exactly the registrations and the event queue singleton it was given. |
| `Dispatch.EventQueue.constructor` | Freakout.Tests/Dispatch/TestDefaultCommandDispatcher.cs:45 | The tests' event queue starts empty. |
| `Dispatch.EventQueue.EnqueueAll` | Freakout.Tests/Dispatch/TestDefaultCommandDispatcher.cs:144 | A handler's events are appended to the queue in order, after what was already there. |
| `DispatchProperties.DeserializationFailurePropagates` | Freakout/Internals/Dispatch/FreakoutDispatcher.cs:17-20 | If deserialisation fails, the dispatch faults with the serializer's own exception, and the whole state, cache included, is unchanged. |
| `DispatchProperties.CacheFilledBeforeInvoke` | Freakout/Internals/Dispatch/FreakoutDispatcher.cs:18-22 | Once a command deserialises, its runtime type is in the cache afterwards, whatever the handler does. An invoker already cached for that type is kept. |
| `DispatchProperties.CacheOnlyGrows` | Freakout/Internals/Dispatch/FreakoutDispatcher.cs:13-20 | No entry is removed or replaced. The new key set is the old one plus the dispatched command's type. `CreateInvoker` runs exactly when that type was absent. |
| `DispatchProperties.ExecuteKeepsConsistent` | Freakout/Internals/Dispatch/FreakoutDispatcher.cs:20 | One dispatch keeps every cached invoker built for its own key. It also keeps `CreateInvoker` at exactly one call per cached type. |
| `Dispatch.CreateInvoker` | Freakout/Internals/Dispatch/FreakoutDispatcher.cs:37-64 | The invoker built for a command type converts its argument to exactly that type and calls `ExecuteOutboxCommandGeneric` for that type. |
| `DispatchProperties.CachedInvokerNeverMiscasts` | Freakout/Internals/Dispatch/FreakoutDispatcher.cs:18-22 | With a coherent cache, a deserialised command meets an invoker built for its own runtime type. The conversion never refuses it, and the dispatch is `ExecuteOutboxCommandGeneric` of that type. An `InvalidCastException` outcome therefore comes only from a handler that was called. |
| `DispatchProperties.RoutesToRegisteredHandler` | Freakout/Internals/Dispatch/FreakoutDispatcher.cs:27-31 | With a handler registered for the runtime type, that handler is called once, with the deserialised command and the caller's token. The dispatch ends as the handler ends: completed with its events enqueued, or faulted with its own exception and nothing enqueued. |
| `DispatchProperties.MissingHandlerFails` | Freakout/Internals/Dispatch/FreakoutDispatcher.cs:29 | With no handler registered for the runtime type, the dispatch faults with `InvalidOperationException` naming that type. No handler is called and nothing is enqueued. |
| `DispatchProperties.ExecuteMatchesDirect` | Freakout/Internals/Dispatch/FreakoutDispatcher.cs:15-23 | With a coherent cache, one dispatch ends, calls handlers and enqueues events exactly as the cache-free reference does. The cache stays coherent. |
| `DispatchProperties.RunStepMatchesDirect` | Freakout/Internals/Dispatch/FreakoutDispatcher.cs:15-23 | The first dispatch of a run leaves a coherent cache and the state the rest of the run starts from. It ends, calls handlers and enqueues events as the cache-free reference's first step does. |
| `DispatchProperties.RunMatchesDirect` | Freakout/Internals/Dispatch/FreakoutDispatcher.cs:13-22 | Over any sequence of dispatches, the cache is transparent. Every completion, handler call and event matches the cache-free reference, in request order. |
| `DispatchProperties.RunCachesDeserializedTypes` | Freakout/Internals/Dispatch/FreakoutDispatcher.cs:18-20 | After a run, the cached types are those cached before plus the runtime types of all commands that deserialised. |
| `DispatchProperties.RunKeepsConsistent` | Freakout/Internals/Dispatch/FreakoutDispatcher.cs:13-20 | Over any run, the cache stays coherent and `CreateInvoker` stays at one call per cached type. |
| `DispatchProperties.CreatedOncePerCachedType` | Freakout/Internals/Dispatch/FreakoutDispatcher.cs:20 | In a consistent state, `CreateInvoker` has run once for each cached type and never for any other type. |
| `DispatchProperties.RunCreatesEachTypeOnce` | Freakout/Internals/Dispatch/FreakoutDispatcher.cs:20 | Over any run, `CreateInvoker` has run exactly once for each type that was cached before or seen during the run, and zero times for every other type. |
| `DispatchProperties.RunOnlyGrowsCache` | Freakout/Internals/Dispatch/FreakoutDispatcher.cs:13 | Every cache entry present before a run is still present afterwards, unchanged. |
| `DispatchProperties.DirectRunCallsHandlersInOrder` | Freakout.Tests/Dispatch/TestDefaultCommandDispatcher.cs:56-67 | When every request deserialises to a registered type, the handler calls are one per request, in request order. Each call gets its own request's command and token and is routed by that command's type. |
| `DispatchProperties.RunCallsHandlersInOrder` | Freakout.Tests/Dispatch/TestDefaultCommandDispatcher.cs:56-67 | When every request deserialises to a registered type, a run of the dispatcher keeps the earlier handler calls and adds one call per request, in request order. Each call gets its own request's command and token and is routed by that command's type. |
| `Serialization.Deserialize` | Freakout/Internals/Dispatch/FreakoutDispatcher.cs:17-18 | A command that deserialises has the runtime type named by the stored type header. |
| `Serialization.DecodeStringRoundTrip` | Freakout.Tests/Dispatch/TestDefaultCommandDispatcher.cs:131 | Decoding an encoded member returns that member and leaves the bytes after its separator untouched. |
| `Serialization.DecodeFieldsRoundTrip` | Freakout.Tests/Dispatch/TestDefaultCommandDispatcher.cs:131 | Decoding encoded members returns exactly those members. |
| `Serialization.RoundTrip` | Freakout.Tests/Dispatch/TestDefaultCommandDispatcher.cs:131 | Deserialising a serialised command gives back that command, with the same type and the same members. |
| `DispatchTests.GetOutboxCommand` | Freakout.Tests/Dispatch/TestDefaultCommandDispatcher.cs:131 | The tests' stored form of a command deserialises back to that command. |
| `DispatchTests.DispatchReachesRecordingHandler` | Freakout.Tests/Dispatch/TestDefaultCommandDispatcher.cs:142-152 | A stored command whose type is registered to a test handler completes. That handler's line for the command is the only thing enqueued. |
| `DispatchTests.ExecuteRecorded` | Freakout.Tests/Dispatch/TestDefaultCommandDispatcher.cs:56-59 | One awaited `ExecuteAsync` of a registered command completes. It appends exactly that handler's line to the event queue and keeps the dispatcher valid. |
| `DispatchTests.ExpectedLines` | Freakout.Tests/Dispatch/TestDefaultCommandDispatcher.cs:61-67 | The four expected strings are the test handlers' lines for the four dispatched commands. |
| `DispatchTests.CanDispatchStuff_GetNiceErrorWhenCommandHandlerIsNotRegistered` | Freakout.Tests/Dispatch/TestDefaultCommandDispatcher.cs:28-40 | With no handlers registered, dispatching `SomeCommand` faults with `InvalidOperationException` for that type, and nothing is enqueued. |
| `DispatchTests.CanDispatchStuff` | Freakout.Tests/Dispatch/TestDefaultCommandDispatcher.cs:42-68 | Four sequential dispatches of `AnotherCommand` and `ThirdCommand` leave exactly the four expected events on the queue, in call order. |

## Left out

- Reflection and expression trees in `CreateInvoker` (`GetMethod`, `MakeGenericMethod`, `Expression.*`, `Compile`) are runtime code generation. The invoker is modelled as a value that records its command type. The `ArgumentException` for a missing generic method cannot occur, because the method exists.
- The conversion inside the invoker is modelled as exact type equality. .NET also accepts a subtype, but the dispatcher always converts to the command's own runtime type, so the conversion never fails through `ExecuteAsync` (`DispatchProperties.CachedInvokerNeverMiscasts`).
- `ConcurrentDictionary` thread safety is not modelled. Two dispatches racing on a first-seen type can each run `CreateInvoker`. The model is sequential, so its "exactly once per type" holds only for sequential use.
- `async`/`Task` machinery is not modelled. A task is modelled by how it ends, `RanToCompletion` or `Faulted`. Cancellation is a token passed through unchanged. The dispatcher never inspects the token; a handler may throw `OperationCanceledException`.
- The JSON serializer (`SystemTextJsonCommandSerializer`) is not part of this model. `Serialization` stands in for it. It accepts any type name in the header, so it does not model "unknown type" failures from loading a .NET type.
- The dependency injection container (`ServiceCollection`, `IServiceScopeFactory`, lifetimes, disposing resolved services with the scope) is reduced to a map of registrations and a scope that records its disposal. `AddCommandHandler` is modelled as adding one registration, and the last registration for a type wins.
- Handlers are modelled as pure functions. Their effects are limited to enqueuing on the shared event queue or throwing. A handler that enqueues and then throws, or that has other side effects, is not modelled.
- `DefaultCommandDispatcher`, which the tests construct, is not part of this model. The tests are modelled against `FreakoutDispatcher`. A call without a token is modelled as passing `CancellationToken.None`.
- `FreakoutConfiguration` (an abstract service-registration hook and a one-minute default poll interval) has no logic and is not modelled. The polling loop that uses it lies outside the dispatcher and is not modelled.
- Draining a store, acknowledging, retrying and ordering within a store batch happen outside the dispatcher and are not modelled.
- `SqlServerFixtureBase` (starting a SQL Server test container) is test I/O and is not modelled.
- The `TakeTime` benchmark and its timing notes measure performance, not behaviour, and are not modelled.
