/** The incremental RESP2 request parser: bounded header lines, exact 64-bit lengths,
    multi-bulk framing, and command validation. */
module Parser {
  import opened Bytes

  const MAX_KEY_LENGTH: nat := 512
  const MAX_VALUE_LENGTH: nat := 1024 * 1024
  const MAX_BULK_LENGTH: nat := MAX_VALUE_LENGTH
  const MAX_ARRAY_ELEMENTS: nat := 3
  const MAX_HEADER_LENGTH: nat := 20
  const INT64_MAX: int := 0x7FFF_FFFF_FFFF_FFFF

  newtype int64 = x: int | -0x8000_0000_0000_0000 <= x <= 0x7FFF_FFFF_FFFF_FFFF

  datatype Category = MalformedFrame | FieldTooLarge | WrongArity | UnknownCommand | InvalidInteger

  datatype ProtocolError = ProtocolError(category: Category, message: string, recoverable: bool, consumed: nat)

  datatype Command =
    | Ping
    | Set(key: string, value: string)
    | Get(key: string)
    | Del(key: string)
    | Exists(key: string)
    | Expire(key: string, seconds: nat)
    | Ttl(key: string)

  datatype ParseResult =
    | Parsed(command: Command, consumed: nat)
    | NeedMoreData
    | Failed(error: ProtocolError)

  // Header lines -----------------------------------------------------------------------

  datatype Line = Found(content: string, consumed: nat) | LineNeedsMore | TooLong

  function ReadLine(s: string): (r: Line)
    ensures r.Found? ==>
              && |r.content| <= MAX_HEADER_LENGTH
              && r.consumed == |r.content| + 2 <= |s|
              && s[..r.consumed] == r.content + CRLF
              && CrlfFree(r.content)
  {
    match FindCrlf(s)
    case Some(pos) =>
      if pos > MAX_HEADER_LENGTH then TooLong
      else
        assert forall j | 0 <= j < pos :: CrlfAt(s[..pos], j) ==> CrlfAt(s, j);
        Found(s[..pos], pos + 2)
    case None =>
      if |s| > MAX_HEADER_LENGTH then TooLong else LineNeedsMore
  }

  // Integers ---------------------------------------------------------------------------

  /** What a length header or an EXPIRE argument means: exactly the nonempty digit strings
      whose value fits a signed 64-bit integer are numbers. */
  function IntegerOf(text: string): Option<nat> {
    if text != "" && AllDigits(text) && DecimalValue(text) <= INT64_MAX
    then Some(DecimalValue(text)) else None
  }

  /** The digit loop, in 64-bit arithmetic: the overflow guard is exact. */
  method ParseNonnegativeInteger(text: string) returns (r: Option<int64>)
    ensures r.Some? <==> IntegerOf(text).Some?
    ensures r.Some? ==> r.value as int == IntegerOf(text).value
    ensures r.Some? <==>
              && text != "" && (forall i | 0 <= i < |text| :: '0' <= text[i] <= '9')
              && DecimalValue(text) <= 0x7FFF_FFFF_FFFF_FFFF
    ensures r.Some? ==> AllDigits(text) && r.value as int == DecimalValue(text)
  {
    if text == "" {
      return None;
    }
    var value: int64 := 0;
    var i := 0;
    while i < |text|
      invariant 0 <= i <= |text|
      invariant AllDigits(text[..i])
      invariant value as int == DecimalValue(text[..i])
    {
      var c := text[i];
      if c < '0' || c > '9' {
        assert !IsDigit(text[i]);
        return None;
      }
      var digit: int64 := (c - '0') as int64;
      assert text[..i + 1][..i] == text[..i];
      if value > (0x7FFF_FFFF_FFFF_FFFF - digit) / 10 {
        if AllDigits(text) {
          DecimalValueBounds(text, i + 1);
        }
        return None;
      }
      value := value * 10 + digit;
      i := i + 1;
    }
    assert text[..i] == text;
    return Some(value);
  }

  // Framing ----------------------------------------------------------------------------

  /** Outcome of reading one syntactic unit from the front of the input. */
  datatype Read<T> = Done(value: T, consumed: nat) | More | Bad(error: ProtocolError)

  function Malformed(message: string): ProtocolError {
    ProtocolError(MalformedFrame, message, false, 0)
  }

  const FIELD_TOO_LARGE: ProtocolError :=
    ProtocolError(FieldTooLarge, "bulk string exceeds the maximum field size", false, 0)

  /** One `$<len>\r\n<body>\r\n` unit. */
  function ReadBulk(s: string): (r: Read<string>)
    ensures r.Done? ==>
              && 6 <= r.consumed <= |s|
              && |r.value| <= MAX_BULK_LENGTH
              && r.consumed <= |r.value| + MAX_HEADER_LENGTH + 5
    ensures r.Bad? ==> !r.error.recoverable && r.error.consumed == 0
  {
    if s == "" then More
    else if s[0] != '$' then Bad(Malformed("expected bulk string ('$')"))
    else
      match ReadLine(s[1..])
      case LineNeedsMore => More
      case TooLong => Bad(Malformed("bulk string length header too long"))
      case Found(content, lineLen) =>
        match IntegerOf(content)
        case None => Bad(Malformed("invalid bulk string length"))
        case Some(len) =>
          if len > MAX_BULK_LENGTH then Bad(FIELD_TOO_LARGE)
          else
            var start := 1 + lineLen;
            if |s| < start + len + 2 then More
            else if s[start + len] != '\r' || s[start + len + 1] != '\n' then
              Bad(Malformed("bulk string missing terminator"))
            else Done(s[start..start + len], start + len + 2)
  }

  /** Total length of a list of arguments. */
  function Size(args: seq<string>): nat {
    if args == [] then 0 else |args[0]| + Size(args[1..])
  }

  /** `k` consecutive bulk strings. */
  function ReadBulks(s: string, k: nat): (r: Read<seq<string>>)
    ensures r.Done? ==>
              && |r.value| == k
              && 6 * k <= r.consumed <= |s|
              && r.consumed <= Size(r.value) + k * (MAX_HEADER_LENGTH + 5)
              && forall i | 0 <= i < k :: |r.value[i]| <= MAX_BULK_LENGTH
    ensures r.Bad? ==> !r.error.recoverable && r.error.consumed == 0
  {
    if k == 0 then Done([], 0)
    else
      match ReadBulk(s)
      case More => More
      case Bad(e) => Bad(e)
      case Done(arg, n) =>
        match ReadBulks(s[n..], k - 1)
        case More => More
        case Bad(e) => Bad(e)
        case Done(rest, m) =>
          assert ([arg] + rest)[1..] == rest;
          Done([arg] + rest, n + m)
  }

  datatype ArrayHeader = Elements(count: nat, consumed: nat) | HeaderNeedsMore | HeaderBad(error: ProtocolError)

  /** The `*<count>\r\n` header. */
  function ReadArrayHeader(s: string): (r: ArrayHeader)
    ensures r.Elements? ==>
              r.count <= MAX_ARRAY_ELEMENTS && 4 <= r.consumed <= |s| && r.consumed <= MAX_HEADER_LENGTH + 3
    ensures r.HeaderBad? ==> !r.error.recoverable && r.error.consumed == 0
  {
    if s == "" then HeaderNeedsMore
    else if s[0] != '*' then HeaderBad(Malformed("expected RESP array ('*')"))
    else
      match ReadLine(s[1..])
      case LineNeedsMore => HeaderNeedsMore
      case TooLong => HeaderBad(Malformed("array length header too long"))
      case Found(content, lineLen) =>
        match IntegerOf(content)
        case None => HeaderBad(Malformed("invalid array length"))
        case Some(count) =>
          if count > MAX_ARRAY_ELEMENTS then HeaderBad(Malformed("too many command arguments"))
          else Elements(count, 1 + lineLen)
  }

  /** A whole frame: an array header followed by that many bulk strings. */
  function ReadFrame(s: string): (r: Read<seq<string>>)
    ensures r.Done? ==>
              && |r.value| <= MAX_ARRAY_ELEMENTS
              && 4 <= r.consumed <= |s|
              && r.consumed <= Size(r.value) + (MAX_HEADER_LENGTH + 3) + |r.value| * (MAX_HEADER_LENGTH + 5)
              && forall i | 0 <= i < |r.value| :: |r.value[i]| <= MAX_BULK_LENGTH
    ensures r.Bad? ==> !r.error.recoverable && r.error.consumed == 0
  {
    match ReadArrayHeader(s)
    case HeaderNeedsMore => More
    case HeaderBad(e) => Bad(e)
    case Elements(count, n) =>
      match ReadBulks(s[n..], count)
      case More => More
      case Bad(e) => Bad(e)
      case Done(args, m) => Done(args, n + m)
  }

  /** What remains to be read after `args` are in hand and `consumed` bytes are behind. */
  function Continue(args: seq<string>, consumed: nat, rest: Read<seq<string>>): Read<seq<string>> {
    match rest
    case More => More
    case Bad(e) => Bad(e)
    case Done(tail, m) => Done(args + tail, consumed + m)
  }

  /** One bulk string read in place at an offset of the buffer. */
  method ReadBulkAt(input: string, offset: nat) returns (r: Read<string>)
    requires offset <= |input|
    ensures r == ReadBulk(input[offset..])
  {
    hide ReadLine, IntegerOf, DecimalValue;
    ghost var s := input[offset..];
    if offset >= |input| {
      return More;
    }
    if input[offset] != '$' {
      return Bad(Malformed("expected bulk string ('$')"));
    }
    assert input[offset + 1..] == s[1..];
    var line := ReadLine(input[offset + 1..]);
    if line.LineNeedsMore? {
      return More;
    }
    if line.TooLong? {
      return Bad(Malformed("bulk string length header too long"));
    }
    var bulkLen := ParseNonnegativeInteger(line.content);
    if bulkLen.None? {
      return Bad(Malformed("invalid bulk string length"));
    }
    if bulkLen.value as int > MAX_BULK_LENGTH {
      return Bad(FIELD_TOO_LARGE);
    }
    var bodyLen := bulkLen.value as int;
    var start := offset + 1 + line.consumed;
    if |input| < start + bodyLen + 2 {
      return More;
    }
    if input[start + bodyLen] != '\r' || input[start + bodyLen + 1] != '\n' {
      return Bad(Malformed("bulk string missing terminator"));
    }
    assert input[start..start + bodyLen] == s[1 + line.consumed..1 + line.consumed + bodyLen];
    return Done(input[start..start + bodyLen], 1 + line.consumed + bodyLen + 2);
  }

  lemma ContinueBulk(args: seq<string>, consumed: nat, s: string, k: nat)
    requires k > 0 && ReadBulk(s).Done?
    ensures var bulk := ReadBulk(s);
            Continue(args, consumed, ReadBulks(s, k))
            == Continue(args + [bulk.value], consumed + bulk.consumed, ReadBulks(s[bulk.consumed..], k - 1))
  {
    var bulk := ReadBulk(s);
    var rest := ReadBulks(s[bulk.consumed..], k - 1);
    if rest.Done? {
      assert (args + [bulk.value]) + rest.value == args + ([bulk.value] + rest.value);
    }
  }

  lemma ContinueEnds(args: seq<string>, consumed: nat, s: string, k: nat)
    ensures k == 0 ==> Continue(args, consumed, ReadBulks(s, k)) == Done(args, consumed)
    ensures k > 0 && ReadBulk(s).More? ==> Continue(args, consumed, ReadBulks(s, k)) == More
    ensures k > 0 && ReadBulk(s).Bad? ==> Continue(args, consumed, ReadBulks(s, k)) == Bad(ReadBulk(s).error)
  {
    hide ReadBulk;
    assert args + [] == args;
  }

  lemma FrameOpens(s: string)
    requires ReadArrayHeader(s).Elements?
    ensures var h := ReadArrayHeader(s);
            ReadFrame(s) == Continue([], h.consumed, ReadBulks(s[h.consumed..], h.count))
  {
    hide ReadBulks;
    var h := ReadArrayHeader(s);
    var rest := ReadBulks(s[h.consumed..], h.count);
    assert rest.Done? ==> [] + rest.value == rest.value;
  }

  /** The framing loop over a fixed buffer and a moving offset. */
  method ReadMultibulkFrame(input: string) returns (r: Read<seq<string>>)
    ensures r == ReadFrame(input)
  {
    hide ReadBulk, ReadBulks, ReadLine, Continue;
    if |input| == 0 {
      return More;
    }
    if input[0] != '*' {
      return Bad(Malformed("expected RESP array ('*')"));
    }
    var header := ReadLine(input[1..]);
    if header.LineNeedsMore? {
      return More;
    }
    if header.TooLong? {
      return Bad(Malformed("array length header too long"));
    }
    var count := ParseNonnegativeInteger(header.content);
    if count.None? {
      return Bad(Malformed("invalid array length"));
    }
    if count.value as int > MAX_ARRAY_ELEMENTS {
      return Bad(Malformed("too many command arguments"));
    }
    var consumed: nat := 1 + header.consumed;
    var args: seq<string> := [];
    var total := count.value as int;
    FrameOpens(input);
    var i := 0;
    while i < total
      invariant 0 <= i <= total && consumed <= |input|
      invariant ReadFrame(input) == Continue(args, consumed, ReadBulks(input[consumed..], total - i))
    {
      ContinueEnds(args, consumed, input[consumed..], total - i);
      var bulk := ReadBulkAt(input, consumed);
      match bulk {
        case More => return More;
        case Bad(e) => return Bad(e);
        case Done(arg, n) =>
          ContinueBulk(args, consumed, input[consumed..], total - i);
          assert input[consumed..][n..] == input[consumed + n..];
          args := args + [arg];
          consumed := consumed + n;
      }
      i := i + 1;
    }
    ContinueEnds(args, consumed, input[consumed..], 0);
    return Done(args, consumed);
  }

  // Commands ---------------------------------------------------------------------------

  function UpperChar(c: char): char {
    if 'a' <= c <= 'z' then c - 'a' + 'A' else c
  }

  function Upper(s: string): (r: string)
    ensures |r| == |s|
  {
    seq(|s|, i requires 0 <= i < |s| => UpperChar(s[i]))
  }

  /** In-place upper-casing of a copy. */
  method ToUpperAscii(text: string) returns (result: string)
    ensures result == Upper(text)
    ensures |result| == |text|
    ensures forall i | 0 <= i < |text| ::
              if 'a' <= text[i] <= 'z' then result[i] as int == text[i] as int - 32 else result[i] == text[i]
  {
    result := text;
    for i := 0 to |text|
      invariant |result| == |text|
      invariant forall j | 0 <= j < |text| :: result[j] == if j < i then UpperChar(text[j]) else text[j]
    {
      if 'a' <= result[i] <= 'z' {
        result := result[i := result[i] - 'a' + 'A'];
      }
    }
  }

  datatype CommandResult = Valid(command: Command) | Invalid(category: Category, message: string)

  function ArityError(name: string): CommandResult {
    Invalid(WrongArity, "ERR wrong number of arguments for '" + name + "' command")
  }

  /** A command that takes a single key. */
  function KeyCommand(name: string, args: seq<string>, make: string -> Command): CommandResult {
    if |args| != 2 then ArityError(name)
    else if |args[1]| > MAX_KEY_LENGTH then Invalid(FieldTooLarge, "ERR key exceeds maximum size")
    else Valid(make(args[1]))
  }

  function BuildCommand(args: seq<string>): (r: CommandResult) {
    if args == [] then Invalid(UnknownCommand, "ERR unknown command ''")
    else
      var name := Upper(args[0]);
      if name == "PING" then
        if |args| != 1 then ArityError(name) else Valid(Ping)
      else if name == "SET" then
        if |args| != 3 then ArityError(name)
        else if |args[1]| > MAX_KEY_LENGTH then Invalid(FieldTooLarge, "ERR key exceeds maximum size")
        else if |args[2]| > MAX_VALUE_LENGTH then Invalid(FieldTooLarge, "ERR value exceeds maximum size")
        else Valid(Set(args[1], args[2]))
      else if name == "GET" then KeyCommand(name, args, k => Get(k))
      else if name == "DEL" then KeyCommand(name, args, k => Del(k))
      else if name == "EXISTS" then KeyCommand(name, args, k => Exists(k))
      else if name == "EXPIRE" then
        if |args| != 3 then ArityError(name)
        else if |args[1]| > MAX_KEY_LENGTH then Invalid(FieldTooLarge, "ERR key exceeds maximum size")
        else
          match IntegerOf(args[2])
          case None => Invalid(InvalidInteger, "ERR value is not an integer or out of range")
          case Some(seconds) => Valid(Expire(args[1], seconds))
      else if name == "TTL" then KeyCommand(name, args, k => Ttl(k))
      else Invalid(UnknownCommand, "ERR unknown command '" + args[0] + "'")
  }

  /** Validate a framed argument list, keeping the frame's byte length. */
  function Interpret(args: seq<string>, consumed: nat): ParseResult {
    match BuildCommand(args)
    case Valid(command) => Parsed(command, consumed)
    case Invalid(category, message) => Failed(ProtocolError(category, message, true, consumed))
  }

  function Parse(s: string): (r: ParseResult)
    ensures r.Parsed? ==> 4 <= r.consumed <= |s|
    ensures r.Failed? && r.error.recoverable ==> 4 <= r.error.consumed <= |s|
  {
    match ReadFrame(s)
    case More => NeedMoreData
    case Bad(e) => Failed(e)
    case Done(args, n) => Interpret(args, n)
  }
}
