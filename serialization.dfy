/// A small command serializer standing in for the JSON serializer the
/// dispatcher is configured with. It keeps the command's type name in a
/// header and writes the command's members to the payload, each character as
/// three 7-bit bytes and each member closed by a separator byte that no
/// character byte can equal.
module Serialization {
  import opened Freakout

  /// The header that names the command's runtime type.
  const TypeHeader := "type"

  /// Closes each member in the payload; every character byte is below 0x80.
  const Separator: byte := 0xFF

  predicate IsScalarValue(n: int) {
    0 <= n < 0xD800 || 0xE000 <= n < 0x11_0000
  }

  function EncodeChar(ch: char): (r: seq<byte>)
    ensures |r| == 3
    ensures r[0] < 0x80 && r[1] < 0x80 && r[2] < 0x80
  {
    var n := ch as int;
    [n / 0x4000, n / 0x80 % 0x80, n % 0x80]
  }

  function DecodeChar(b0: byte, b1: byte, b2: byte): (r: Result<char>)
    ensures r.Success? ==> b0 < 0x80 && b1 < 0x80 && b2 < 0x80
  {
    var n := b0 as int * 0x4000 + b1 as int * 0x80 + b2 as int;
    if b0 < 0x80 && b1 < 0x80 && b2 < 0x80 && IsScalarValue(n) then Success(n as char)
    else Failure(SerializationException("invalid character"))
  }

  lemma DecodeEncodeChar(ch: char)
    ensures var e := EncodeChar(ch); DecodeChar(e[0], e[1], e[2]) == Success(ch)
  {
    var n := ch as int;
    var e := EncodeChar(ch);
    assert e[0] as int * 0x4000 + e[1] as int * 0x80 + e[2] as int == n;
  }

  function EncodeString(s: string): (r: seq<byte>)
    ensures |r| == 3 * |s|
    ensures Separator !in r
  {
    if s == [] then [] else EncodeChar(s[0]) + EncodeString(s[1..])
  }

  /// Reads one member up to and including its separator; returns the member
  /// and the bytes after the separator.
  function DecodeString(bytes: seq<byte>): (r: Result<(string, seq<byte>)>)
    ensures r.Success? ==> |r.value.1| < |bytes|
    decreases |bytes|
  {
    if |bytes| == 0 then Failure(SerializationException("unterminated member"))
    else if bytes[0] == Separator then Success(("", bytes[1..]))
    else if |bytes| < 3 then Failure(SerializationException("truncated character"))
    else
      match DecodeChar(bytes[0], bytes[1], bytes[2])
      case Failure(e) => Failure(e)
      case Success(ch) =>
        match DecodeString(bytes[3..])
        case Failure(e) => Failure(e)
        case Success((s, rest)) => Success(([ch] + s, rest))
  }

  function EncodeFields(fields: seq<string>): seq<byte>
  {
    if fields == [] then [] else EncodeString(fields[0]) + [Separator] + EncodeFields(fields[1..])
  }

  function DecodeFields(bytes: seq<byte>): Result<seq<string>>
    decreases |bytes|
  {
    if bytes == [] then Success([])
    else
      match DecodeString(bytes)
      case Failure(e) => Failure(e)
      case Success((field, rest)) =>
        match DecodeFields(rest)
        case Failure(e) => Failure(e)
        case Success(fields) => Success([field] + fields)
  }

  /// `ICommandSerializer.Serialize`: the stored form of a command.
  function Serialize(command: Command): OutboxCommand
  {
    OutboxCommand(map[TypeHeader := command.commandType], EncodeFields(command.fields))
  }

  /// `ICommandSerializer.Deserialize`: the command a stored form holds, whose
  /// runtime type is the one its type header names.
  function Deserialize(outboxCommand: OutboxCommand): (r: Result<Command>)
    ensures r.Success? ==> TypeHeader in outboxCommand.headers
    ensures r.Success? ==> r.value.commandType == outboxCommand.headers[TypeHeader]
  {
    if TypeHeader !in outboxCommand.headers then Failure(SerializationException("missing type header"))
    else
      match DecodeFields(outboxCommand.payload)
      case Failure(e) => Failure(e)
      case Success(fields) => Success(Command(outboxCommand.headers[TypeHeader], fields))
  }

  lemma {:induction false} DecodeStringRoundTrip(s: string, rest: seq<byte>)
    ensures DecodeString(EncodeString(s) + [Separator] + rest) == Success((s, rest))
    decreases |s|
  {
    var bytes := EncodeString(s) + [Separator] + rest;
    if s == [] {
      assert bytes == [Separator] + rest;
    } else {
      var e := EncodeChar(s[0]);
      assert bytes == e + (EncodeString(s[1..]) + [Separator] + rest);
      assert bytes[3..] == EncodeString(s[1..]) + [Separator] + rest;
      DecodeEncodeChar(s[0]);
      DecodeStringRoundTrip(s[1..], rest);
      assert [s[0]] + s[1..] == s;
    }
  }

  lemma {:induction false} DecodeFieldsRoundTrip(fields: seq<string>)
    ensures DecodeFields(EncodeFields(fields)) == Success(fields)
    decreases |fields|
  {
    if fields != [] {
      var rest := EncodeFields(fields[1..]);
      DecodeStringRoundTrip(fields[0], rest);
      DecodeFieldsRoundTrip(fields[1..]);
      assert [fields[0]] + fields[1..] == fields;
    }
  }

  /// Every command reaches the dispatcher as it was serialised.
  lemma RoundTrip(command: Command)
    ensures Deserialize(Serialize(command)) == Success(command)
  {
    DecodeFieldsRoundTrip(command.fields);
  }
}
