/** The request printer of the benchmark client, and the parser as its inverse. */
module RequestCodec {
  import opened Bytes
  import opened Parser
  import opened ParserStability

  function EncodeBulk(arg: string): string {
    "$" + Decimal(|arg|) + CRLF + arg + CRLF
  }

  function EncodeBulks(args: seq<string>): string {
    if args == [] then "" else EncodeBulk(args[0]) + EncodeBulks(args[1..])
  }

  function Encode(args: seq<string>): string {
    "*" + Decimal(|args|) + CRLF + EncodeBulks(args)
  }

  lemma {:induction false} EncodeBulksSnoc(args: seq<string>, arg: string)
    ensures EncodeBulks(args + [arg]) == EncodeBulks(args) + EncodeBulk(arg)
  {
    hide EncodeBulk;
    if args == [] {
      assert args + [arg] == [arg];
      assert EncodeBulks([arg][1..]) == "";
    } else {
      assert (args + [arg])[1..] == args[1..] + [arg];
      EncodeBulksSnoc(args[1..], arg);
    }
  }

  /** The printing loop. */
  method EncodeCommand(parts: seq<string>) returns (out: string)
    ensures out == Encode(parts)
  {
    hide Decimal;
    out := "*" + Decimal(|parts|) + "\r\n";
    ghost var head := out;
    for i := 0 to |parts|
      invariant out == head + EncodeBulks(parts[..i])
    {
      ghost var before := out;
      out := out + ("$" + Decimal(|parts[i]|) + "\r\n");
      out := out + parts[i];
      out := out + "\r\n";
      assert out == before + EncodeBulk(parts[i]);
      assert parts[..i + 1] == parts[..i] + [parts[i]];
      EncodeBulksSnoc(parts[..i], parts[i]);
    }
    assert parts[..|parts|] == parts;
  }

  /** The requests a client may send: at most three fields of at most 1 MiB. */
  predicate Sendable(args: seq<string>) {
    |args| <= MAX_ARRAY_ELEMENTS && forall i | 0 <= i < |args| :: |args[i]| <= MAX_BULK_LENGTH
  }

  /** A printed number is a short header with that value. */
  lemma HeaderRoundTrip(n: nat)
    requires n <= MAX_BULK_LENGTH
    ensures IntegerOf(Decimal(n)) == Some(n)
    ensures |Decimal(n)| <= 7
  {
    assert n < Pow10(7) by {
      assert Pow10(3) == 1000 && Pow10(6) == 1000000;
    }
    DecimalLength(n, 7);
  }

  /** Any numeral of the right value, padded or not, delimits a bulk string. */
  lemma BulkWithHeader(digits: string, arg: string, rest: string)
    requires AllDigits(digits) && |digits| <= MAX_HEADER_LENGTH
    requires IntegerOf(digits) == Some(|arg|) && |arg| <= MAX_BULK_LENGTH
    ensures var unit := "$" + digits + CRLF + arg + CRLF;
            && ReadBulk(unit + rest) == Done(arg, |unit|)
            && (WideBulk(unit + rest) <==> |digits| == MAX_HEADER_LENGTH)
  {
    hide IntegerOf, ReadLine;
    var unit := "$" + digits + CRLF + arg + CRLF;
    var s := unit + rest;
    LineWithHeader(digits, arg + CRLF + rest);
    assert s[1..] == digits + CRLF + (arg + CRLF + rest);
    var start := 1 + |digits| + 2;
    assert s[start..start + |arg|] == arg;
    assert s[start + |arg|] == '\r' && s[start + |arg| + 1] == '\n';
  }

  lemma LineWithHeader(digits: string, rest: string)
    requires AllDigits(digits) && |digits| <= MAX_HEADER_LENGTH
    ensures ReadLine(digits + CRLF + rest) == Found(digits, |digits| + 2)
  {
    DigitsAreCrlfFree(digits);
    FindCrlfAfter(digits, rest);
    assert (digits + CRLF + rest)[..|digits|] == digits;
  }

  lemma BulkRoundTrip(arg: string, rest: string)
    requires |arg| <= MAX_BULK_LENGTH
    ensures ReadBulk(EncodeBulk(arg) + rest) == Done(arg, |EncodeBulk(arg)|)
    ensures !WideBulk(EncodeBulk(arg) + rest)
  {
    hide ReadBulk, WideBulk;
    HeaderRoundTrip(|arg|);
    BulkWithHeader(Decimal(|arg|), arg, rest);
  }

  lemma {:induction false} BulksRoundTrip(args: seq<string>, rest: string)
    requires forall i | 0 <= i < |args| :: |args[i]| <= MAX_BULK_LENGTH
    ensures ReadBulks(EncodeBulks(args) + rest, |args|) == Done(args, |EncodeBulks(args)|)
    ensures !WideBulks(EncodeBulks(args) + rest, |args|)
  {
    hide ReadBulk, EncodeBulk, WideBulk;
    if args != [] {
      var tail := EncodeBulks(args[1..]) + rest;
      var s := EncodeBulks(args) + rest;
      assert s == EncodeBulk(args[0]) + tail;
      BulkRoundTrip(args[0], tail);
      assert s[|EncodeBulk(args[0])|..] == tail;
      BulksRoundTrip(args[1..], rest);
      assert args == [args[0]] + args[1..];
    }
  }

  lemma ArrayWithHeader(digits: string, n: nat, rest: string)
    requires AllDigits(digits) && |digits| <= MAX_HEADER_LENGTH
    requires IntegerOf(digits) == Some(n) && n <= MAX_ARRAY_ELEMENTS
    ensures ReadArrayHeader("*" + digits + CRLF + rest) == Elements(n, 1 + |digits| + 2)
    ensures WideArray("*" + digits + CRLF + rest) <==> |digits| == MAX_HEADER_LENGTH
  {
    hide IntegerOf, ReadLine;
    var s := "*" + digits + CRLF + rest;
    LineWithHeader(digits, rest);
    assert s[1..] == digits + CRLF + rest;
  }

  /** Parsing a printed request, whatever bytes follow it, gives back its arguments and
      exactly its length; every strict prefix is reported as incomplete. */
  lemma RoundTrip(args: seq<string>, rest: string)
    requires Sendable(args)
    ensures ReadFrame(Encode(args) + rest) == Done(args, |Encode(args)|)
    ensures forall n | 0 <= n < |Encode(args)| :: Parse(Encode(args)[..n]) == NeedMoreData
  {
    FrameRoundTrip(args, rest);
    forall n | 0 <= n < |Encode(args)|
      ensures Parse(Encode(args)[..n]) == NeedMoreData
    {
      PrefixWaits(args, n);
    }
  }

  lemma FrameRoundTrip(args: seq<string>, rest: string)
    requires Sendable(args)
    ensures ReadFrame(Encode(args) + rest) == Done(args, |Encode(args)|)
    ensures !Wide(Encode(args) + rest)
  {
    hide ReadBulks, WideBulks, EncodeBulks, ReadArrayHeader, WideArray, Decimal;
    var s := Encode(args) + rest;
    var body := EncodeBulks(args) + rest;
    assert s == "*" + Decimal(|args|) + CRLF + body;
    HeaderRoundTrip(|args|);
    ArrayWithHeader(Decimal(|args|), |args|, body);
    assert s[1 + |Decimal(|args|)| + 2..] == body;
    BulksRoundTrip(args, rest);
  }

  lemma PrefixWaits(args: seq<string>, n: nat)
    requires Sendable(args) && n < |Encode(args)|
    ensures Parse(Encode(args)[..n]) == NeedMoreData
  {
    hide ReadFrame, Encode, BuildCommand, AtCut, Wide, WideArray;
    var s := Encode(args);
    var p, q := s[..n], s[n..];
    assert s == p + q && s == s + "";
    FrameRoundTrip(args, "");
    if !ReadFrame(p).More? {
      if AtCut(p) && StartsWithLf(q) {
        CutHeals(p, q);
        WideArrayIsWide(s);
        assert false;
      }
      FrameStable(p, q);
      assert false;
    }
  }

  lemma WideArrayIsWide(s: string)
    ensures WideArray(s) ==> Wide(s)
  {
  }

  // Frame size -------------------------------------------------------------------------

  const MAX_COMMAND_BYTES: nat := 1_049_192

  /** A frame accepted as a command never exceeds 1,049,192 bytes, so it fits the default
      2 MiB input buffer. */
  lemma CommandSize(s: string)
    requires Parse(s).Parsed?
    ensures Parse(s).consumed <= MAX_COMMAND_BYTES
    ensures MAX_COMMAND_BYTES < 2 * 1024 * 1024
  {
    hide ReadFrame;
    var frame := ReadFrame(s);
    ValidArgsSize(frame.value);
  }

  lemma ValidArgsSize(args: seq<string>)
    requires BuildCommand(args).Valid?
    requires |args| <= MAX_ARRAY_ELEMENTS
    requires forall i | 0 <= i < |args| :: |args[i]| <= MAX_BULK_LENGTH
    ensures Size(args) + |args| * (MAX_HEADER_LENGTH + 5) + MAX_HEADER_LENGTH + 3 <= MAX_COMMAND_BYTES
  {
    var name := Upper(args[0]);
    assert |args[0]| == |name| <= 6;
    assert |args| >= 2 ==> |args[1]| <= MAX_KEY_LENGTH;
    SizeUnfolds(args);
  }

  lemma SizeUnfolds(args: seq<string>)
    ensures |args| == 1 ==> Size(args) == |args[0]|
    ensures |args| == 2 ==> Size(args) == |args[0]| + |args[1]|
    ensures |args| == 3 ==> Size(args) == |args[0]| + |args[1]| + |args[2]|
  {
    if |args| == 2 {
      assert args[1..][0] == args[1] && args[1..][1..] == [];
    }
    if |args| == 3 {
      assert args[1..][0] == args[1] && args[1..][1..][0] == args[2];
      assert args[1..][1..][1..] == [];
    }
  }

  // The bound is attained: zero-padded headers and a zero-padded EXPIRE argument ----------

  function Zeros(n: nat): (s: string)
    ensures |s| == n && AllDigits(s)
  {
    if n == 0 then "" else "0" + Zeros(n - 1)
  }

  function Padded(n: nat): (s: string)
    requires |Decimal(n)| <= MAX_HEADER_LENGTH
    ensures |s| == MAX_HEADER_LENGTH && AllDigits(s)
  {
    Zeros(MAX_HEADER_LENGTH - |Decimal(n)|) + Decimal(n)
  }

  lemma {:induction false} LeadingZeros(n: nat, digits: string)
    requires AllDigits(digits)
    ensures DecimalValue(Zeros(n) + digits) == DecimalValue(digits)
    decreases n, |digits|
  {
    var s := Zeros(n) + digits;
    if digits != "" {
      assert s[..|s| - 1] == Zeros(n) + digits[..|digits| - 1];
      LeadingZeros(n, digits[..|digits| - 1]);
    } else if n > 0 {
      assert s == Zeros(n) == Zeros(n - 1) + "0" by {
        ZerosSnoc(n - 1);
      }
      assert s[..|s| - 1] == Zeros(n - 1) + "";
      LeadingZeros(n - 1, "");
    }
  }

  lemma {:induction false} ZerosSnoc(n: nat)
    ensures Zeros(n + 1) == Zeros(n) + "0"
  {
    if n > 0 {
      ZerosSnoc(n - 1);
    }
  }

  function PaddedBulk(arg: string): string
    requires |arg| <= MAX_BULK_LENGTH
  {
    HeaderRoundTrip(|arg|);
    "$" + Padded(|arg|) + CRLF + arg + CRLF
  }

  lemma PaddedBulkRead(arg: string, rest: string)
    requires |arg| <= MAX_BULK_LENGTH
    ensures ReadBulk(PaddedBulk(arg) + rest) == Done(arg, |arg| + MAX_HEADER_LENGTH + 5)
    ensures |PaddedBulk(arg)| == |arg| + MAX_HEADER_LENGTH + 5
  {
    hide ReadBulk, WideBulk, Decimal;
    HeaderRoundTrip(|arg|);
    LeadingZeros(MAX_HEADER_LENGTH - |Decimal(|arg|)|, Decimal(|arg|));
    BulkWithHeader(Padded(|arg|), arg, rest);
  }

  /** Some accepted command is exactly that long. */
  lemma CommandSizeAttained(key: string) returns (s: string)
    requires |key| == MAX_KEY_LENGTH
    ensures Parse(s) == Parsed(Expire(key, 0), MAX_COMMAND_BYTES) && |s| == MAX_COMMAND_BYTES
  {
    hide ReadBulk, ReadArrayHeader, WideArray, PaddedBulk, Padded, Zeros, Decimal, IntegerOf, BuildCommand;
    var zeros := Zeros(MAX_BULK_LENGTH);
    var args := ["EXPIRE", key, zeros];
    var third := PaddedBulk(zeros) + "";
    var second := PaddedBulk(key) + third;
    var body := PaddedBulk("EXPIRE") + second;
    HeaderRoundTrip(3);
    s := "*" + Padded(3) + CRLF + body;
    PaddedCount();
    ArrayWithHeader(Padded(3), 3, body);
    PaddedBulkRead("EXPIRE", second);
    PaddedBulkRead(key, third);
    PaddedBulkRead(zeros, "");
    ThreeBulks(body, second, third, args);
    assert s[MAX_HEADER_LENGTH + 3..] == body;
    ExpireZero(key, zeros);
  }

  lemma PaddedCount()
    ensures |Decimal(3)| <= MAX_HEADER_LENGTH && IntegerOf(Padded(3)) == Some(3)
  {
    hide Decimal;
    HeaderRoundTrip(3);
    LeadingZeros(MAX_HEADER_LENGTH - |Decimal(3)|, Decimal(3));
  }

  lemma ExpireZero(key: string, zeros: string)
    requires |key| == MAX_KEY_LENGTH && zeros == Zeros(MAX_BULK_LENGTH)
    ensures BuildCommand(["EXPIRE", key, zeros]) == Valid(Expire(key, 0))
  {
    LeadingZeros(MAX_BULK_LENGTH, "");
    assert zeros + "" == zeros;
    assert Upper("EXPIRE") == "EXPIRE";
  }

  lemma ThreeBulks(s: string, t: string, u: string, args: seq<string>)
    requires |args| == 3
    requires ReadBulk(s).Done? && ReadBulk(s).value == args[0] && s[ReadBulk(s).consumed..] == t
    requires ReadBulk(t).Done? && ReadBulk(t).value == args[1] && t[ReadBulk(t).consumed..] == u
    requires ReadBulk(u).Done? && ReadBulk(u).value == args[2]
    ensures ReadBulks(s, 3) == Done(args, ReadBulk(s).consumed + ReadBulk(t).consumed + ReadBulk(u).consumed)
  {
    hide ReadBulk;
    assert ReadBulks(u, 1) == Done([args[2]], ReadBulk(u).consumed) by {
      assert ReadBulks(u[ReadBulk(u).consumed..], 0) == Done([], 0);
      assert [args[2]] + [] == [args[2]];
    }
    assert ReadBulks(t, 2) == Done([args[1]] + [args[2]], ReadBulk(t).consumed + ReadBulk(u).consumed);
    assert [args[0]] + ([args[1]] + [args[2]]) == args;
  }
}
