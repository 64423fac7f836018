/** The five reply encoders, a decoder that undoes them, and the benchmark client's
    completion test. */
module Replies {
  import opened Bytes
  import opened Parser

  datatype Reply =
    | Simple(text: string)
    | Error(text: string)
    | Integer(value: int)
    | Bulk(text: string)
    | Null

  function EncodeSimpleString(text: string): string { "+" + text + CRLF }

  function EncodeError(text: string): string { "-" + text + CRLF }

  /** `std::to_string` on a signed number. */
  function ToString(value: int): string {
    if value < 0 then "-" + Decimal(-value) else Decimal(value)
  }

  function EncodeInteger(value: int): string { ":" + ToString(value) + CRLF }

  function EncodeBulkString(text: string): string { "$" + Decimal(|text|) + CRLF + text + CRLF }

  function EncodeNullBulkString(): string { "$-1\r\n" }

  function Encode(r: Reply): string {
    match r
    case Simple(text) => EncodeSimpleString(text)
    case Error(text) => EncodeError(text)
    case Integer(value) => EncodeInteger(value)
    case Bulk(text) => EncodeBulkString(text)
    case Null => EncodeNullBulkString()
  }

  /** One-line replies carry text that must not contain the line terminator. */
  predicate Framed(r: Reply) {
    (r.Simple? || r.Error?) ==> CrlfFree(r.text)
  }

  // Decoding ---------------------------------------------------------------------------

  function IntOf(s: string): Option<int> {
    if s != "" && s[0] == '-' then
      if s[1..] != "" && AllDigits(s[1..]) then Some(-(DecimalValue(s[1..]) as int)) else None
    else if s != "" && AllDigits(s) then Some(DecimalValue(s))
    else None
  }

  lemma IntOfToString(value: int)
    ensures IntOf(ToString(value)) == Some(value)
    ensures CrlfFree(ToString(value))
  {
    if value < 0 {
      var digits := Decimal(-value);
      assert ("-" + digits)[1..] == digits;
      forall i | 0 <= i < |ToString(value)|
        ensures !CrlfAt(ToString(value), i)
      {
        assert i > 0 ==> IsDigit(digits[i - 1]);
      }
    } else {
      DigitsAreCrlfFree(Decimal(value));
      assert IsDigit(Decimal(value)[0]);
    }
  }

  datatype Decoded = Got(reply: Reply, consumed: nat) | NoReply

  /** The reply at the front of a byte string, if a whole one is there. */
  function Decode(s: string): (d: Decoded)
    ensures d.Got? ==> 0 < d.consumed <= |s|
  {
    if s == "" then NoReply
    else
      match FindCrlf(s)
      case None => NoReply
      case Some(end) =>
        if end == 0 then NoReply
        else
          var line := s[1..end];
          if s[0] == '+' then Got(Simple(line), end + 2)
          else if s[0] == '-' then Got(Error(line), end + 2)
          else if s[0] == ':' && IntOf(line).Some? then Got(Integer(IntOf(line).value), end + 2)
          else if s[0] == '$' && IntOf(line).Some? then
            var len := IntOf(line).value;
            if len < 0 then Got(Null, end + 2)
            else if end + 2 + len + 2 <= |s| && s[end + 2 + len..end + 2 + len + 2] == CRLF then
              Got(Bulk(s[end + 2..end + 2 + len]), end + 2 + len + 2)
            else NoReply
          else NoReply
  }

  function DecodeAll(s: string): seq<Reply>
    decreases |s|
  {
    match Decode(s)
    case NoReply => []
    case Got(reply, n) => [reply] + DecodeAll(s[n..])
  }

  function EncodeAll(replies: seq<Reply>): string {
    if replies == [] then "" else Encode(replies[0]) + EncodeAll(replies[1..])
  }

  /** A one-character tag, a CRLF-free line, its terminator: the search stops at that terminator. */
  lemma TaggedLine(tag: char, line: string, rest: string)
    requires CrlfFree(line) && tag != '\r'
    ensures FindCrlf([tag] + line + CRLF + rest) == Some(1 + |line|)
    ensures ([tag] + line + CRLF + rest)[1..1 + |line|] == line
  {
    var s := [tag] + line;
    forall i | 0 <= i < |s|
      ensures !CrlfAt(s, i)
    {
      if i > 0 {
        assert !CrlfAt(line, i - 1);
      }
    }
    FindCrlfAfter(s, rest);
  }

  lemma DecodeEncode(r: Reply, rest: string)
    requires Framed(r)
    ensures Decode(Encode(r) + rest) == Got(r, |Encode(r)|)
  {
    hide IntOf, Decimal, FindCrlf, ToString;
    match r
    case Simple(text) =>
      assert Encode(r) + rest == ['+'] + text + CRLF + rest;
      TaggedLine('+', text, rest);
    case Error(text) =>
      assert Encode(r) + rest == ['-'] + text + CRLF + rest;
      TaggedLine('-', text, rest);
    case Integer(value) =>
      IntOfToString(value);
      assert Encode(r) + rest == [':'] + ToString(value) + CRLF + rest;
      TaggedLine(':', ToString(value), rest);
    case Bulk(text) =>
      DecodeBulk(text, rest);
    case Null =>
      NullHeader();
      assert Encode(r) + rest == ['$'] + "-1" + CRLF + rest;
      TaggedLine('$', "-1", rest);
  }

  lemma NullHeader()
    ensures CrlfFree("-1") && IntOf("-1") == Some(-1)
  {
    var s := "-1";
    assert s[1..] == "1" && "1"[..0] == "";
    assert DecimalValue("1") == 1;
  }

  lemma DecodeBulk(text: string, rest: string)
    ensures Decode(EncodeBulkString(text) + rest) == Got(Bulk(text), |EncodeBulkString(text)|)
  {
    hide IntOf, Decimal, FindCrlf, ToString;
    var s := EncodeBulkString(text) + rest;
    var digits := Decimal(|text|);
    LengthHeader(|text|);
    assert s == ['$'] + digits + CRLF + (text + CRLF + rest);
    TaggedLine('$', digits, text + CRLF + rest);
    var start := 1 + |digits| + 2;
    assert s[start..start + |text|] == text;
    assert s[start + |text|..start + |text| + 2] == CRLF;
  }

  lemma LengthHeader(n: nat)
    ensures CrlfFree(Decimal(n)) && IntOf(Decimal(n)) == Some(n)
  {
    IntOfToString(n);
  }

  /** The decoder recovers any list of framed replies from the bare concatenation of their
      encodings. */
  lemma {:induction false} DecodeAllEncodeAll(replies: seq<Reply>)
    requires forall i | 0 <= i < |replies| :: Framed(replies[i])
    ensures DecodeAll(EncodeAll(replies)) == replies
  {
    hide Decode, Encode;
    if replies != [] {
      var rest := EncodeAll(replies[1..]);
      DecodeEncode(replies[0], rest);
      var s := EncodeAll(replies);
      assert s == Encode(replies[0]) + rest;
      assert s[|Encode(replies[0])|..] == rest;
      DecodeAllEncodeAll(replies[1..]);
    } else {
      assert Decode("").NoReply? by {
        EmptyDecodes();
      }
    }
  }

  lemma DecodedLine(s: string)
    ensures Decode(s).Got? ==> Framed(Decode(s).reply)
  {
    if Decode(s).Got? && FindCrlf(s).Some? {
      var end := FindCrlf(s).value;
      var line := s[1..end];
      forall i | 0 <= i < |line|
        ensures !CrlfAt(line, i)
      {
        assert !CrlfAt(s, i + 1);
      }
    }
  }

  lemma {:induction false} DecodedAreFramed(s: string)
    ensures forall i | 0 <= i < |DecodeAll(s)| :: Framed(DecodeAll(s)[i])
    decreases |s|
  {
    hide Framed, Decode;
    if Decode(s).Got? {
      DecodedLine(s);
      DecodedAreFramed(s[Decode(s).consumed..]);
    }
  }

  /** Reply streams decode uniquely, exactly when every reply in them is framed. */
  lemma StreamsDecodeUniquely(replies: seq<Reply>)
    ensures DecodeAll(EncodeAll(replies)) == replies <==> forall i | 0 <= i < |replies| :: Framed(replies[i])
  {
    hide Framed, Encode, Decode, EncodeAll, DecodeAll;
    if forall i | 0 <= i < |replies| :: Framed(replies[i]) {
      DecodeAllEncodeAll(replies);
    } else {
      DecodedAreFramed(EncodeAll(replies));
    }
  }

  lemma EmptyDecodes()
    ensures Decode("").NoReply?
  {
  }

  // The client's completion test -------------------------------------------------------

  datatype Progress = Whole | Partial | Unrecognized

  predicate IsSpace(c: char) {
    c == ' ' || c == '\t' || c == '\n' || c == '\r' || c == 11 as char || c == 12 as char
  }

  /** The longest run of leading digits. */
  function LeadingDigits(s: string): (r: string)
    ensures AllDigits(r)
  {
    if s != "" && IsDigit(s[0]) then [s[0]] + LeadingDigits(s[1..]) else ""
  }

  const LONG_MAX: int := 0x7FFF_FFFF_FFFF_FFFF
  const SIZE_MODULUS: int := 0x1_0000_0000_0000_0000

  /** `strtol` in base 10: leading blanks, a sign, digits, saturation at the range ends. */
  function StrToL(s: string): int
    decreases |s|
  {
    if s != "" && IsSpace(s[0]) then StrToL(s[1..])
    else if s != "" && s[0] == '-' then
      var n := -(DecimalValue(LeadingDigits(s[1..])) as int);
      if n < -LONG_MAX - 1 then -LONG_MAX - 1 else n
    else
      var n := DecimalValue(LeadingDigits(if s != "" && s[0] == '+' then s[1..] else s));
      if n > LONG_MAX then LONG_MAX else n
  }

  /** What the receive loop concludes from the bytes buffered so far. */
  function Examine(buffer: string): Progress {
    if buffer == "" then Partial
    else if buffer[0] == '+' || buffer[0] == '-' || buffer[0] == ':' then
      if FindCrlf(buffer).Some? then Whole else Partial
    else if buffer[0] == '$' then
      match FindCrlf(buffer)
      case None => Partial
      case Some(end) =>
        var length := StrToL(buffer[1..]);
        if length < 0 then Whole
        else if |buffer| >= (end + 2 + length + 2) % SIZE_MODULUS then Whole
        else Partial
    else Unrecognized
  }

  /** Only the five reply types are recognized, by their first byte. */
  lemma UnrecognizedExactly(buffer: string)
    ensures Examine(buffer) == Unrecognized <==> buffer != "" && buffer[0] !in {'+', '-', ':', '$'}
  {
  }

  /** The receive loop: append what each `recv` returned, stop at the first verdict. */
  method Receive(chunks: seq<string>) returns (ok: bool, used: nat)
    ensures used <= |chunks|
    ensures forall i | 0 <= i < used :: Examine(Concat(chunks[..i])) == Partial || i == 0
    ensures ok ==> used > 0 && Examine(Concat(chunks[..used])) == Whole
    ensures !ok ==> used == |chunks| || Examine(Concat(chunks[..used])) == Unrecognized
  {
    hide Examine;
    var buffer := "";
    used := 0;
    assert chunks[..0] == [];
    while used < |chunks|
      invariant used <= |chunks|
      invariant buffer == Concat(chunks[..used])
      invariant forall i | 0 <= i <= used :: Examine(Concat(chunks[..i])) == Partial || i == 0
    {
      assert chunks[..used + 1] == chunks[..used] + [chunks[used]];
      ConcatSnoc(chunks[..used], chunks[used]);
      buffer := buffer + chunks[used];
      used := used + 1;
      match Examine(buffer) {
        case Whole => return true, used;
        case Unrecognized => return false, used;
        case Partial =>
      }
    }
    return false, used;
  }

  lemma {:induction false} LeadingDigitsStop(digits: string, rest: string)
    requires AllDigits(digits) && (rest != "" ==> !IsDigit(rest[0]))
    ensures LeadingDigits(digits + rest) == digits
  {
    if digits == "" {
      assert digits + rest == rest;
    } else {
      assert (digits + rest)[1..] == digits[1..] + rest;
      LeadingDigitsStop(digits[1..], rest);
    }
  }

  /** A length that `strtol` reads exactly. */
  predicate Countable(r: Reply) {
    r.Bulk? ==> |r.text| <= LONG_MAX
  }

  lemma PrefixVerdict(r: Reply, n: nat)
    requires Framed(r) && Countable(r) && n <= |Encode(r)|
    ensures Examine(Encode(r)[..n]) == if n == |Encode(r)| then Whole else Partial
  {
    hide Decimal, FindCrlf, ToString, StrToL;
    match r
    case Simple(text) => LineComplete('+', text, n);
    case Error(text) => LineComplete('-', text, n);
    case Integer(value) =>
      IntOfToString(value);
      LineComplete(':', ToString(value), n);
    case Bulk(text) => BulkComplete(text, n);
    case Null => NullComplete(n);
  }

  lemma PrefixHasNoCrlf(line: string, n: nat)
    requires CrlfFree(line) && n < |line| + 2
    ensures CrlfFree((line + CRLF)[..n])
  {
    var p := (line + CRLF)[..n];
    forall i | 0 <= i < |p|
      ensures !CrlfAt(p, i)
    {
      if i < |line| {
        assert !CrlfAt(line, i);
      }
    }
  }

  lemma TaggedFree(tag: char, line: string)
    requires CrlfFree(line) && tag != '\r'
    ensures CrlfFree([tag] + line)
  {
    var s := [tag] + line;
    forall i | 0 <= i < |s|
      ensures !CrlfAt(s, i)
    {
      if i > 0 {
        assert !CrlfAt(line, i - 1);
      }
    }
  }

  lemma LineComplete(tag: char, text: string, n: nat)
    requires tag == '+' || tag == '-' || tag == ':'
    requires CrlfFree(text) && n <= |text| + 3
    ensures Examine(([tag] + text + CRLF)[..n]) == if n == |text| + 3 then Whole else Partial
  {
    var s := [tag] + text + CRLF;
    if n < |s| {
      TaggedFree(tag, text);
      PrefixHasNoCrlf([tag] + text, n);
    } else {
      assert s[..n] == s;
      assert CrlfAt(s, 1 + |text|);
    }
  }

  lemma BulkComplete(text: string, n: nat)
    requires n <= |EncodeBulkString(text)| && |text| <= LONG_MAX
    ensures Examine(EncodeBulkString(text)[..n]) == if n == |EncodeBulkString(text)| then Whole else Partial
  {
    hide Decimal, StrToL;
    var digits := Decimal(|text|);
    var s := EncodeBulkString(text);
    var header := 1 + |digits| + 2;
    DigitsAreCrlfFree(digits);
    TaggedFree('$', digits);
    if n < header {
      PrefixHasNoCrlf(['$'] + digits, n);
      assert s[..n] == (['$'] + digits + CRLF)[..n];
    } else {
      var rest := s[header..n];
      assert s[..n] == (['$'] + digits) + CRLF + rest;
      FindCrlfAfter(['$'] + digits, rest);
      assert s[..n][1..] == digits + (CRLF + rest);
      StrToLDigits(|text|, CRLF + rest);
      DecimalShort(|text|);
    }
  }

  lemma StrToLDigits(n: nat, rest: string)
    requires n <= LONG_MAX && rest != "" && !IsDigit(rest[0])
    ensures StrToL(Decimal(n) + rest) == n
  {
    var digits := Decimal(n);
    assert IsDigit(digits[0]);
    LeadingDigitsStop(digits, rest);
  }

  lemma DecimalShort(n: nat)
    requires n <= LONG_MAX
    ensures |Decimal(n)| <= 19
  {
    assert Pow10(9) == 1000000000 by {
      assert Pow10(3) == 1000 && Pow10(6) == 1000000;
    }
    assert Pow10(18) == 1000000000000000000 by {
      assert Pow10(12) == 1000000000000 && Pow10(15) == 1000000000000000;
    }
    DecimalLength(n, 19);
  }

  lemma NullComplete(n: nat)
    requires n <= 5
    ensures Examine(EncodeNullBulkString()[..n]) == if n == 5 then Whole else Partial
  {
    var s := EncodeNullBulkString();
    NullHeader();
    TaggedFree('$', "-1");
    assert s == ['$'] + "-1" + CRLF;
    if n < 5 {
      PrefixHasNoCrlf(['$'] + "-1", n);
    } else {
      assert s[..n] == s;
      assert CrlfAt(s, 3);
      assert s[1..][1..] == "1" + CRLF;
      LeadingDigitsStop("1", CRLF);
      assert DecimalValue("1") == 1 by {
        assert "1"[..0] == "";
      }
    }
  }

  /** With a CRLF inside a one-line reply, some strict prefix already looks complete. */
  lemma LineTooEarly(r: Reply) returns (n: nat)
    requires (r.Simple? || r.Error?) && !Framed(r)
    ensures n < |Encode(r)| && Examine(Encode(r)[..n]) == Whole
  {
    var i :| 0 <= i < |r.text| && CrlfAt(r.text, i);
    n := i + 3;
    var p := Encode(r)[..n];
    assert CrlfAt(p, i + 1);
    assert !CrlfFree(p);
  }

  lemma StrToLSaturates(n: nat, rest: string)
    requires n > LONG_MAX && rest != "" && !IsDigit(rest[0])
    ensures StrToL(Decimal(n) + rest) == LONG_MAX
  {
    var digits := Decimal(n);
    assert IsDigit(digits[0]);
    LeadingDigitsStop(digits, rest);
  }

  /** A text too long for `long` looks complete one byte early. */
  lemma BulkTooEarly(text: string)
    requires |text| > LONG_MAX
    ensures Examine(EncodeBulkString(text)[..|EncodeBulkString(text)| - 1]) == Whole
  {
    hide Decimal, StrToL;
    var digits := Decimal(|text|);
    var s := EncodeBulkString(text);
    var header := 1 + |digits| + 2;
    var n := |s| - 1;
    DigitsAreCrlfFree(digits);
    TaggedFree('$', digits);
    var rest := s[header..n];
    assert s[..n] == (['$'] + digits) + CRLF + rest;
    FindCrlfAfter(['$'] + digits, rest);
    assert s[..n][1..] == digits + (CRLF + rest);
    StrToLSaturates(|text|, CRLF + rest);
    RemainderBelow(1 + |digits| + 2 + LONG_MAX + 2);
  }

  lemma RemainderBelow(n: nat)
    ensures 0 <= n % SIZE_MODULUS <= n
  {
  }

  /** Given prefixes of one encoded reply, the client reports completion exactly when it holds the
      whole reply, if and only if a one-line text is CRLF-free and a length fits a `long`. */
  lemma CompleteExactlyWhenWhole(r: Reply)
    ensures (forall n | 0 <= n <= |Encode(r)| :: Examine(Encode(r)[..n]) == if n == |Encode(r)| then Whole else Partial)
            <==> Framed(r) && Countable(r)
  {
    hide Encode, Examine;
    if Framed(r) && Countable(r) {
      forall n | 0 <= n <= |Encode(r)|
        ensures Examine(Encode(r)[..n]) == if n == |Encode(r)| then Whole else Partial
      {
        PrefixVerdict(r, n);
      }
    } else if !Framed(r) {
      var n := LineTooEarly(r);
    } else {
      BulkTooEarly(r.text);
      BulkEncoding(r);
      assert Examine(Encode(r)[..|Encode(r)| - 1]) == Whole;
    }
  }

  lemma BulkEncoding(r: Reply)
    requires r.Bulk?
    ensures Encode(r) == EncodeBulkString(r.text) && |Encode(r)| > 0
  {
  }

  // Error texts ------------------------------------------------------------------------

  /** The frame names an unknown command whose name itself contains a CRLF. */
  predicate EchoesCrlf(args: seq<string>) {
    args != [] && !CrlfFree(args[0]) && BuildCommand(args).Invalid? && BuildCommand(args).category == UnknownCommand
  }

  lemma NoCrIsFree(s: string)
    requires '\r' !in s
    ensures CrlfFree(s)
  {
  }

  const FIXED_TEXTS: set<string> := {
    "ERR unknown command ''", "ERR key exceeds maximum size", "ERR value exceeds maximum size",
    "ERR value is not an integer or out of range" }

  lemma FixedTextFree(text: string)
    requires text in FIXED_TEXTS
    ensures '\r' !in text
  {
    if text == "ERR unknown command ''" {
    } else if text == "ERR key exceeds maximum size" {
    } else if text == "ERR value exceeds maximum size" {
    } else {
      assert text == "ERR value is not an integer or out of range";
    }
  }

  /** Framing errors carry fixed texts. */
  lemma FatalTextFree(s: string)
    requires ReadFrame(s).Bad?
    ensures CrlfFree(ReadFrame(s).error.message)
  {
    hide ReadBulks, ReadLine, IntegerOf;
    var h := ReadArrayHeader(s);
    if h.Elements? {
      BulksTextFree(s[h.consumed..], h.count);
    } else {
      HeaderTextFree(s);
    }
  }

  lemma HeaderTextFree(s: string)
    requires ReadArrayHeader(s).HeaderBad?
    ensures CrlfFree(ReadArrayHeader(s).error.message)
  {
    hide ReadLine, IntegerOf, CrlfFree;
    HeaderTexts();
  }

  lemma HeaderTexts()
    ensures CrlfFree("expected RESP array ('*')") && CrlfFree("array length header too long")
    ensures CrlfFree("invalid array length") && CrlfFree("too many command arguments")
  {
  }

  lemma {:induction false} BulksTextFree(s: string, k: nat)
    requires ReadBulks(s, k).Bad?
    ensures CrlfFree(ReadBulks(s, k).error.message)
  {
    hide ReadBulk, CrlfFree;
    if ReadBulk(s).Bad? {
      BulkTextFree(s);
    } else {
      BulksTextFree(s[ReadBulk(s).consumed..], k - 1);
    }
  }

  lemma BulkTextFree(s: string)
    requires ReadBulk(s).Bad?
    ensures CrlfFree(ReadBulk(s).error.message)
  {
    hide ReadLine, IntegerOf, CrlfFree;
    BulkHeaderTexts();
    BulkBodyTexts();
  }

  lemma BulkHeaderTexts()
    ensures CrlfFree("expected bulk string ('$')") && CrlfFree("bulk string length header too long")
    ensures CrlfFree("invalid bulk string length")
  {
  }

  lemma BulkBodyTexts()
    ensures CrlfFree("bulk string missing terminator") && CrlfFree(FIELD_TOO_LARGE.message)
  {
  }

  const NAMES: set<string> := { "PING", "SET", "GET", "DEL", "EXISTS", "EXPIRE", "TTL" }

  lemma NameFree(name: string)
    requires name in NAMES
    ensures '\r' !in name
  {
  }

  /** The texts an invalid command can produce. */
  lemma InvalidTexts(args: seq<string>)
    requires BuildCommand(args).Invalid?
    ensures
      var r := BuildCommand(args);
      || (args != [] && r.category == UnknownCommand && r.message == "ERR unknown command '" + args[0] + "'")
      || (args != [] && Upper(args[0]) in NAMES && r == ArityError(Upper(args[0])))
      || (r.message in FIXED_TEXTS && (args == [] || r.category != UnknownCommand))
  {
    hide ArityError, Upper, IntegerOf;
    if args != [] {
      ArityIsInvalid(Upper(args[0]));
    }
  }

  lemma ArityIsInvalid(name: string)
    ensures ArityError(name).Invalid? && ArityError(name).category == WrongArity
  {
  }

  /** Error replies are framed except when they echo a command name with a CRLF inside. */
  lemma ErrorTextFramed(args: seq<string>)
    requires BuildCommand(args).Invalid?
    ensures CrlfFree(BuildCommand(args).message) <==> !EchoesCrlf(args)
  {
    hide BuildCommand, CrlfFree, ArityError, Upper;
    var r := BuildCommand(args);
    InvalidTexts(args);
    if args != [] && r.category == UnknownCommand {
      ArityIsInvalid(Upper(args[0]));
      EchoedName(args[0]);
    } else {
      if r.message in FIXED_TEXTS {
        FixedTextFree(r.message);
      } else {
        NameFree(Upper(args[0]));
        ArityText(Upper(args[0]));
      }
      NoCrIsFree(r.message);
    }
  }

  lemma ArityText(name: string)
    requires '\r' !in name
    ensures ArityError(name).Invalid? && '\r' !in ArityError(name).message
  {
    assert '\r' !in "ERR wrong number of arguments for '";
    assert '\r' !in "' command";
  }

  lemma EchoedName(name: string)
    ensures CrlfFree("ERR unknown command '" + name + "'") <==> CrlfFree(name)
  {
    var head := "ERR unknown command '";
    var s := head + name + "'";
    assert '\r' !in head;
    if CrlfFree(name) {
      forall i | 0 <= i < |s|
        ensures !CrlfAt(s, i)
      {
        if i < |head| {
          assert s[i] == head[i];
        } else if i < |head| + |name| {
          assert !CrlfAt(name, i - |head|);
        }
      }
    } else {
      var i :| 0 <= i < |name| && CrlfAt(name, i);
      assert CrlfAt(s, |head| + i);
    }
  }

  /** A concrete echo: a command named CRLF is answered with an error that reads as two lines. */
  lemma EchoExample()
    ensures EchoesCrlf([CRLF])
    ensures DecodeAll(EncodeAll([Error(BuildCommand([CRLF]).message)])) != [Error(BuildCommand([CRLF]).message)]
  {
    assert CrlfAt(CRLF, 0);
    assert |Upper(CRLF)| == 2;
    assert EchoesCrlf([CRLF]);
    var replies := [Error(BuildCommand([CRLF]).message)];
    ErrorTextFramed([CRLF]);
    StreamsDecodeUniquely(replies);
    assert !Framed(replies[0]);
  }
}
