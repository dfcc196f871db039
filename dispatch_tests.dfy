/// The dispatcher's unit tests, as methods whose postconditions are the
/// tests' assertions: the commands are serialised, dispatched one after the
/// other through a fresh dispatcher, and the outcome is proved.
module DispatchTests {
  import opened Freakout
  import opened Serialization
  import opened Dispatch
  import DispatchProperties

  const SomeCommand: TypeId := "Freakout.Tests.Dispatch.TestDefaultCommandDispatcher+SomeCommand"
  const AnotherCommand: TypeId := "Freakout.Tests.Dispatch.TestDefaultCommandDispatcher+AnotherCommand"
  const ThirdCommand: TypeId := "Freakout.Tests.Dispatch.TestDefaultCommandDispatcher+ThirdCommand"

  /// The `Text` member of the test's single-member command records.
  function Text(command: Command): string {
    if |command.fields| > 0 then command.fields[0] else ""
  }

  /// A handler that enqueues "<name> called - text: <Text>" and completes.
  function RecordingHandler(name: string): CommandHandler {
    CommandHandler((command: Command, token: CancellationToken) => Handled([Line(name, command)]))
  }

  /// The line `RecordingHandler(name)` enqueues for a command.
  function Line(name: string, command: Command): string {
    name + " called - text: " + Text(command)
  }

  /// `AddCommandHandler`: register a handler as `ICommandHandler<commandType>`;
  /// a later registration for the same type replaces an earlier one.
  function AddCommandHandler(services: Services, commandType: TypeId, handler: CommandHandler): Services {
    services[commandType := handler]
  }

  /// `GetOutboxCommand`: the test's stored form of a command.
  method GetOutboxCommand(command: Command) returns (outboxCommand: OutboxCommand)
    ensures Deserialize(outboxCommand) == Success(command)
  {
    outboxCommand := Serialize(command);
    RoundTrip(command);
  }

  /// A stored command whose type is registered to a recording handler
  /// completes, and its line is the one thing enqueued.
  lemma DispatchReachesRecordingHandler(
    services: Services, st: DispatcherState, outboxCommand: OutboxCommand, command: Command, name: string)
    requires CacheCoherent(st.invokers)
    requires Deserialize(outboxCommand) == Success(command)
    requires command.commandType in services && services[command.commandType] == RecordingHandler(name)
    ensures var step := Execute(Deserialize, services, st, outboxCommand, NoneToken);
            step.completion == RanToCompletion && step.state.events == st.events + [Line(name, command)]
  {
    DispatchProperties.RoutesToRegisteredHandler(Deserialize, services, st, outboxCommand, NoneToken);
  }

  /// One awaited line of the test, `ExecuteAsync(GetOutboxCommand(command))`,
  /// for a command whose type is registered to a recording handler: the
  /// dispatch completes and enqueues that handler's line for the command.
  method ExecuteRecorded(dispatcher: FreakoutDispatcher, command: Command, name: string) returns (completion: Completion)
    requires dispatcher.Valid() && dispatcher.commandSerializer == Deserialize
    requires command.commandType in dispatcher.serviceScopeFactory.handlers
    requires dispatcher.serviceScopeFactory.handlers[command.commandType] == RecordingHandler(name)
    modifies dispatcher, dispatcher.serviceScopeFactory.events
    ensures dispatcher.Valid()
    ensures completion == RanToCompletion
    ensures dispatcher.serviceScopeFactory.events.items
            == old(dispatcher.serviceScopeFactory.events.items) + [Line(name, command)]
  {
    var outboxCommand := GetOutboxCommand(command);
    DispatchReachesRecordingHandler(dispatcher.serviceScopeFactory.handlers, dispatcher.State(), outboxCommand, command, name);
    completion := dispatcher.ExecuteAsync(outboxCommand, NoneToken);
  }

  /// The lines the test expects are the recording handlers' lines for its commands.
  lemma ExpectedLines()
    ensures Line("AnotherCommandHandler", Command(AnotherCommand, ["hej"]))
            == "AnotherCommandHandler called - text: hej"
    ensures Line("AnotherCommandHandler", Command(AnotherCommand, ["hej med dig"]))
            == "AnotherCommandHandler called - text: hej med dig"
    ensures Line("ThirdCommandHandler", Command(ThirdCommand, ["hej"]))
            == "ThirdCommandHandler called - text: hej"
    ensures Line("ThirdCommandHandler", Command(ThirdCommand, ["hej med dig"]))
            == "ThirdCommandHandler called - text: hej med dig"
  {
  }

  /// Dispatching a command whose type has no registered handler faults with
  /// an `InvalidOperationException` naming that type, and no handler runs.
  method CanDispatchStuff_GetNiceErrorWhenCommandHandlerIsNotRegistered() returns (completion: Completion, events: seq<string>)
    ensures completion == Faulted(InvalidOperationException(SomeCommand))
    ensures events == []
  {
    var queue := new EventQueue();
    var provider := new ServiceProvider(map[], queue);
    var dispatcher := new FreakoutDispatcher(Deserialize, provider);
    var outboxCommand := GetOutboxCommand(Command(SomeCommand, []));
    completion := dispatcher.ExecuteAsync(outboxCommand, NoneToken);
    events := queue.items;
  }

  /// Four sequential dispatches of two command types reach their handlers in
  /// call order, each routed by its own type.
  method CanDispatchStuff() returns (events: seq<string>)
    ensures events == [
      "AnotherCommandHandler called - text: hej",
      "AnotherCommandHandler called - text: hej med dig",
      "ThirdCommandHandler called - text: hej",
      "ThirdCommandHandler called - text: hej med dig"]
  {
    var queue := new EventQueue();
    var services := AddCommandHandler(map[], AnotherCommand, RecordingHandler("AnotherCommandHandler"));
    services := AddCommandHandler(services, ThirdCommand, RecordingHandler("ThirdCommandHandler"));
    var provider := new ServiceProvider(services, queue);
    var dispatcher := new FreakoutDispatcher(Deserialize, provider);

    var c1, c2 := Command(AnotherCommand, ["hej"]), Command(AnotherCommand, ["hej med dig"]);
    var c3, c4 := Command(ThirdCommand, ["hej"]), Command(ThirdCommand, ["hej med dig"]);
    assert AnotherCommand != ThirdCommand;
    var r1 := ExecuteRecorded(dispatcher, c1, "AnotherCommandHandler");
    var r2 := ExecuteRecorded(dispatcher, c2, "AnotherCommandHandler");
    var r3 := ExecuteRecorded(dispatcher, c3, "ThirdCommandHandler");
    var r4 := ExecuteRecorded(dispatcher, c4, "ThirdCommandHandler");
    events := queue.items;
    ExpectedLines();
  }
}
