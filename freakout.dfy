/// The vocabulary shared by the outbox and its dispatcher: stored outbox
/// commands, deserialised commands, handlers, cancellation tokens and the
/// exceptions that travel back to the caller.
module Freakout {

  /// A command's runtime type (what `GetType()` returns), named by its full type name.
  type TypeId = string

  /// One unsigned byte of a stored payload.
  type byte = b: int | 0 <= b < 0x100

  /// A 128-bit identifier.
  type Guid = g: nat | g < 0x1_0000_0000_0000_0000_0000_0000_0000_0000

  /// A point in time with its offset from UTC.
  datatype DateTimeOffset = DateTimeOffset(ticks: int, offsetMinutes: int)

  /// The stored form of a command. The base record carries only headers and
  /// payload; the PostgreSQL store adds the row's id and enqueue time. The
  /// dispatcher hands either form to the serializer, which reads headers and
  /// payload only.
  datatype OutboxCommand =
    | OutboxCommand(headers: map<string, string>, payload: seq<byte>)
    | NpgsqlOutboxCommand(id: Guid, time: DateTimeOffset, headers: map<string, string>, payload: seq<byte>)

  /// A deserialised command: its runtime type and the values of its
  /// positional record members, in declaration order.
  datatype Command = Command(commandType: TypeId, fields: seq<string>)

  /// An opaque cancellation token; the dispatcher only passes it through.
  datatype CancellationToken = CancellationToken(source: nat)

  /// `CancellationToken.None`.
  const NoneToken := CancellationToken(0)

  /// The exceptions the model distinguishes.
  datatype Exception =
    | SerializationException(message: string)
      // the dependency injection container has no `ICommandHandler<T>` for this `T`
    | InvalidOperationException(serviceType: TypeId)
      // a boxed command converted to a type it does not have
    | InvalidCastException(actualType: TypeId, targetType: TypeId)
    | OperationCanceledException(token: CancellationToken)
      // anything else a handler throws
    | ApplicationException(message: string)

  /// A value, or the exception thrown instead of producing it.
  datatype Result<T> = Success(value: T) | Failure(error: Exception)

  /// How an awaited task ended.
  datatype Completion = RanToCompletion | Faulted(exception: Exception)

  /// What one call of a handler's `HandleAsync` does: it either completes,
  /// having enqueued some events on the shared event queue, or throws.
  datatype HandlerOutcome = Handled(enqueued: seq<string>) | Threw(exception: Exception)

  /// An `ICommandHandler<T>`: its single operation, as a function of the
  /// command and the cancellation token it is given.
  datatype CommandHandler = CommandHandler(handleAsync: (Command, CancellationToken) -> HandlerOutcome)

  /// One call of `HandleAsync` on the handler resolved as `ICommandHandler<serviceType>`.
  datatype HandlerCall = HandlerCall(serviceType: TypeId, command: Command, token: CancellationToken)
}
