/** The request grammar, written down as text, and the proof that the parser accepts exactly it:
    an array header, then that many bulk strings, every length a decimal numeral of at most 20
    digits. */
module FrameGrammar {
  import opened Bytes
  import opened Parser
  import opened ParserStability
  import opened RequestCodec

  predicate Numeral(digits: string, n: nat) {
    |digits| <= MAX_HEADER_LENGTH && IntegerOf(digits) == Some(n)
  }

  function Unit(digits: string, arg: string): string {
    "$" + digits + CRLF + arg + CRLF
  }

  /** Bulk strings one after another, each behind its own numeral. */
  function Units(numerals: seq<string>, args: seq<string>): string
    requires |numerals| == |args|
  {
    if args == [] then "" else Unit(numerals[0], args[0]) + Units(numerals[1..], args[1..])
  }

  predicate LegalUnits(numerals: seq<string>, args: seq<string>) {
    && |numerals| == |args|
    && forall i | 0 <= i < |args| :: |args[i]| <= MAX_BULK_LENGTH && Numeral(numerals[i], |args[i]|)
  }

  predicate Legal(header: string, numerals: seq<string>, args: seq<string>) {
    |args| <= MAX_ARRAY_ELEMENTS && Numeral(header, |args|) && LegalUnits(numerals, args)
  }

  function Frame(header: string, numerals: seq<string>, args: seq<string>): string
    requires |numerals| == |args|
  {
    "*" + header + CRLF + Units(numerals, args)
  }

  // What is in the grammar is read -----------------------------------------------------

  lemma NumeralIsDigits(digits: string, n: nat)
    requires Numeral(digits, n)
    ensures AllDigits(digits)
  {
  }

  lemma {:induction false} UnitsAreRead(numerals: seq<string>, args: seq<string>, rest: string)
    requires LegalUnits(numerals, args)
    ensures ReadBulks(Units(numerals, args) + rest, |args|) == Done(args, |Units(numerals, args)|)
  {
    hide ReadBulk, Unit, IntegerOf, Size;
    if args != [] {
      var unit := Unit(numerals[0], args[0]);
      var tail := Units(numerals[1..], args[1..]) + rest;
      var s := Units(numerals, args) + rest;
      assert s == unit + tail;
      UnitIsRead(numerals[0], args[0], tail);
      assert s[|unit|..] == tail;
      UnitsAreRead(numerals[1..], args[1..], rest);
      assert args == [args[0]] + args[1..];
    }
  }

  lemma UnitIsRead(digits: string, arg: string, rest: string)
    requires Numeral(digits, |arg|) && |arg| <= MAX_BULK_LENGTH
    ensures ReadBulk(Unit(digits, arg) + rest) == Done(arg, |Unit(digits, arg)|)
  {
    hide ReadBulk;
    NumeralIsDigits(digits, |arg|);
    BulkWithHeader(digits, arg, rest);
  }

  lemma FrameIsRead(header: string, numerals: seq<string>, args: seq<string>, rest: string)
    requires Legal(header, numerals, args)
    ensures ReadFrame(Frame(header, numerals, args) + rest) == Done(args, |Frame(header, numerals, args)|)
  {
    hide ReadBulks, ReadArrayHeader, Units, IntegerOf, Size;
    var body := Units(numerals, args) + rest;
    var s := Frame(header, numerals, args) + rest;
    NumeralIsDigits(header, |args|);
    assert s == "*" + header + CRLF + body;
    ArrayWithHeader(header, |args|, body);
    assert s[1 + |header| + 2..] == body;
    UnitsAreRead(numerals, args, rest);
  }

  // What is read is in the grammar -----------------------------------------------------

  lemma ReadIsUnit(s: string) returns (digits: string)
    requires ReadBulk(s).Done?
    ensures Numeral(digits, |ReadBulk(s).value|) && s[..ReadBulk(s).consumed] == Unit(digits, ReadBulk(s).value)
  {
    var line := ReadLine(s[1..]);
    digits := line.content;
    var n := ReadBulk(s).consumed;
    var start := 1 + line.consumed;
    assert s[1..][..line.consumed] == s[1..start];
    assert s[..n] == [s[0]] + s[1..start] + s[start..n - 2] + s[n - 2..n];
  }

  lemma {:induction false} ReadAreUnits(s: string, k: nat) returns (numerals: seq<string>)
    requires ReadBulks(s, k).Done?
    ensures LegalUnits(numerals, ReadBulks(s, k).value)
    ensures s[..ReadBulks(s, k).consumed] == Units(numerals, ReadBulks(s, k).value)
  {
    hide ReadBulk, Unit, Numeral, Size;
    if k == 0 {
      numerals := [];
    } else {
      var n := ReadBulk(s).consumed;
      var m := ReadBulks(s[n..], k - 1).consumed;
      var digits := ReadIsUnit(s);
      var others := ReadAreUnits(s[n..], k - 1);
      numerals := [digits] + others;
      assert s[..n + m] == s[..n] + s[n..][..m];
      assert numerals[1..] == others && ReadBulks(s, k).value[1..] == ReadBulks(s[n..], k - 1).value;
    }
  }

  lemma ReadIsHeader(s: string) returns (digits: string)
    requires ReadArrayHeader(s).Elements?
    ensures Numeral(digits, ReadArrayHeader(s).count) && s[..ReadArrayHeader(s).consumed] == "*" + digits + CRLF
  {
    var line := ReadLine(s[1..]);
    digits := line.content;
    assert s[1..][..line.consumed] == s[1..1 + line.consumed];
    assert s[..1 + line.consumed] == [s[0]] + s[1..1 + line.consumed];
  }

  lemma ReadIsFrame(s: string) returns (header: string, numerals: seq<string>)
    requires ReadFrame(s).Done?
    ensures Legal(header, numerals, ReadFrame(s).value)
    ensures s[..ReadFrame(s).consumed] == Frame(header, numerals, ReadFrame(s).value)
  {
    hide ReadArrayHeader, ReadBulks, Numeral, LegalUnits, Units, Size;
    var h := ReadArrayHeader(s);
    header := ReadIsHeader(s);
    numerals := ReadAreUnits(s[h.consumed..], h.count);
    var m := ReadBulks(s[h.consumed..], h.count).consumed;
    assert s[..h.consumed + m] == s[..h.consumed] + s[h.consumed..][..m];
  }

  /** The parser accepts exactly the grammar: a frame with these arguments ends at n if and only if
      the first n bytes are that frame's text. */
  lemma AcceptsExactlyTheGrammar(s: string, args: seq<string>, n: nat)
    requires n <= |s|
    ensures ReadFrame(s) == Done(args, n)
            <==> exists header: string, numerals: seq<string> ::
                Legal(header, numerals, args) && s[..n] == Frame(header, numerals, args)
  {
    hide ReadFrame, Frame, Numeral;
    if ReadFrame(s) == Done(args, n) {
      var header, numerals := ReadIsFrame(s);
    }
    if header: string, numerals: seq<string> :|
      Legal(header, numerals, args) && s[..n] == Frame(header, numerals, args) {
      assert s == s[..n] + s[n..];
      FrameIsRead(header, numerals, args, s[n..]);
    }
  }

  // Where a reading stops --------------------------------------------------------------

  /** The start of a header line that may still become one. */
  predicate LineStart(s: string) {
    |s| <= MAX_HEADER_LENGTH && CrlfFree(s)
  }

  /** The frame text up to where the next bulk string should be, `tail` being what is there: a legal
      header for more units than the whole ones read so far. */
  predicate Reaches(s: string, header: string, count: nat, numerals: seq<string>, args: seq<string>, tail: string) {
    && count <= MAX_ARRAY_ELEMENTS && Numeral(header, count)
    && LegalUnits(numerals, args) && |args| < count
    && s == "*" + header + CRLF + Units(numerals, args) + tail
  }

  lemma LineVerdict(s: string)
    ensures ReadLine(s).LineNeedsMore? <==> LineStart(s)
    ensures ReadLine(s).TooLong? <==> LongLine(s)
    ensures ReadLine(s).Found? <==>
              exists n: nat :: n <= MAX_HEADER_LENGTH && CrlfAt(s, n) && forall i | 0 <= i < n :: !CrlfAt(s, i)
  {
  }

  /** Whole units in front do not change what is said about the rest. */
  lemma {:induction false} UnitsThenTail(numerals: seq<string>, args: seq<string>, tail: string, k: nat)
    requires LegalUnits(numerals, args) && |args| < k && !ReadBulk(tail).Done?
    ensures ReadBulk(tail).More? ==> ReadBulks(Units(numerals, args) + tail, k) == More
    ensures ReadBulk(tail).Bad? ==> ReadBulks(Units(numerals, args) + tail, k) == Bad(ReadBulk(tail).error)
  {
    hide ReadBulk, Unit, IntegerOf, Size;
    var s := Units(numerals, args) + tail;
    if args == [] {
      assert s == tail;
    } else {
      var unit := Unit(numerals[0], args[0]);
      var rest := Units(numerals[1..], args[1..]) + tail;
      assert s == unit + rest;
      UnitIsRead(numerals[0], args[0], rest);
      assert s[|unit|..] == rest;
      UnitsThenTail(numerals[1..], args[1..], tail, k - 1);
    }
  }

  /** A reading that does not end with the last unit stops at the first one that is not whole. */
  lemma {:induction false} StopsAtTail(s: string, k: nat)
      returns (numerals: seq<string>, args: seq<string>, tail: string)
    requires !ReadBulks(s, k).Done?
    ensures LegalUnits(numerals, args) && |args| < k && s == Units(numerals, args) + tail && !ReadBulk(tail).Done?
    ensures ReadBulks(s, k).More? <==> ReadBulk(tail).More?
    ensures ReadBulks(s, k).Bad? ==> ReadBulk(tail) == Bad(ReadBulks(s, k).error)
  {
    hide ReadBulk, Unit, Numeral, Size;
    if ReadBulk(s).Done? {
      var n := ReadBulk(s).consumed;
      var digits := ReadIsUnit(s);
      var ns, rest;
      ns, rest, tail := StopsAtTail(s[n..], k - 1);
      numerals, args := [digits] + ns, [ReadBulk(s).value] + rest;
      assert s == s[..n] + s[n..];
      assert numerals[1..] == ns && args[1..] == rest;
    } else {
      numerals, args, tail := [], [], s;
    }
  }

  lemma HeaderThenTail(s: string, header: string, count: nat, numerals: seq<string>, args: seq<string>, tail: string)
    requires Reaches(s, header, count, numerals, args, tail) && !ReadBulk(tail).Done?
    ensures ReadBulk(tail).More? ==> ReadFrame(s) == More
    ensures ReadBulk(tail).Bad? ==> ReadFrame(s) == Bad(ReadBulk(tail).error)
  {
    hide ReadBulks, ReadArrayHeader, Units, IntegerOf, Size, ReadBulk;
    var body := Units(numerals, args) + tail;
    NumeralIsDigits(header, count);
    assert s == "*" + header + CRLF + body;
    ArrayWithHeader(header, count, body);
    assert s[1 + |header| + 2..] == body;
    UnitsThenTail(numerals, args, tail, count);
  }

  lemma StopsBehindHeader(s: string)
      returns (header: string, count: nat, numerals: seq<string>, args: seq<string>, tail: string)
    requires ReadArrayHeader(s).Elements? && !ReadFrame(s).Done?
    ensures Reaches(s, header, count, numerals, args, tail) && !ReadBulk(tail).Done?
    ensures ReadFrame(s).More? <==> ReadBulk(tail).More?
    ensures ReadFrame(s).Bad? ==> ReadBulk(tail) == Bad(ReadFrame(s).error)
  {
    hide ReadArrayHeader, ReadBulks, Numeral, LegalUnits, Units, Size, ReadBulk;
    var h := ReadArrayHeader(s);
    count := h.count;
    header := ReadIsHeader(s);
    numerals, args, tail := StopsAtTail(s[h.consumed..], count);
    SameCount(numerals, args);
    assert s == s[..h.consumed] + s[h.consumed..];
  }

  lemma SameCount(numerals: seq<string>, args: seq<string>)
    requires LegalUnits(numerals, args)
    ensures |numerals| == |args|
  {
  }

  // Unfinished frames ------------------------------------------------------------------

  /** A bulk string of which not everything is there: nothing yet, the start of its header, or a
      legal header with fewer bytes behind it than it announces. */
  ghost predicate PartialUnit(tail: string) {
    || tail == ""
    || (tail[0] == '$' && LineStart(tail[1..]))
    || (exists digits: string, len: nat, body: string :: Announces(tail, digits, len, body) && |body| < len + 2)
  }

  /** A legal bulk header and what is behind it. */
  predicate Announces(tail: string, digits: string, len: nat, body: string) {
    Numeral(digits, len) && len <= MAX_BULK_LENGTH && tail == "$" + digits + CRLF + body
  }

  /** The beginning of a frame and nothing wrong with it. */
  ghost predicate Unfinished(s: string) {
    || s == ""
    || (s[0] == '*' && LineStart(s[1..]))
    || (exists header: string, count: nat, numerals: seq<string>, args: seq<string>, tail: string ::
          Reaches(s, header, count, numerals, args, tail) && PartialUnit(tail))
  }

  lemma AnnouncedHeader(tail: string, digits: string, len: nat, body: string)
    requires Announces(tail, digits, len, body)
    ensures tail != "" && tail[0] == '$' && ReadLine(tail[1..]) == Found(digits, |digits| + 2)
    ensures |tail| == 1 + |digits| + 2 + |body| && tail[1 + |digits| + 2..] == body
  {
    NumeralIsDigits(digits, len);
    assert tail[1..] == digits + CRLF + body;
    LineWithHeader(digits, body);
  }

  lemma HeaderAnnounces(tail: string) returns (digits: string, body: string)
    requires tail != "" && tail[0] == '$' && ReadLine(tail[1..]).Found? && IntegerOf(ReadLine(tail[1..]).content).Some?
    requires IntegerOf(ReadLine(tail[1..]).content).value <= MAX_BULK_LENGTH
    ensures Announces(tail, digits, IntegerOf(ReadLine(tail[1..]).content).value, body)
    ensures digits == ReadLine(tail[1..]).content
  {
    hide IntegerOf;
    var line := ReadLine(tail[1..]);
    digits, body := line.content, tail[1 + line.consumed..];
    assert tail[1..][..line.consumed] == digits + CRLF;
    assert tail == [tail[0]] + tail[1..][..line.consumed] + body;
  }

  lemma PartialUnitWaits(tail: string)
    ensures ReadBulk(tail).More? <==> PartialUnit(tail)
  {
    hide IntegerOf, ReadLine, LineStart, Announces;
    if tail != "" && tail[0] == '$' {
      LineVerdict(tail[1..]);
    }
    if digits: string, len: nat, body: string :| Announces(tail, digits, len, body) && |body| < len + 2 {
      AnnouncedHeader(tail, digits, len, body);
      AnnouncedLength(tail, digits, len, body);
    }
    if ReadBulk(tail).More? && tail != "" && ReadLine(tail[1..]).Found? {
      var digits, body := HeaderAnnounces(tail);
      AnnouncedHeader(tail, digits, IntegerOf(ReadLine(tail[1..]).content).value, body);
    }
  }

  lemma AnnouncedLength(tail: string, digits: string, len: nat, body: string)
    requires Announces(tail, digits, len, body)
    ensures IntegerOf(digits) == Some(len) && len <= MAX_BULK_LENGTH
  {
  }

  /** The parser waits for more exactly on unfinished frames. */
  lemma WaitsExactlyOnUnfinished(s: string)
    ensures ReadFrame(s).More? <==> Unfinished(s)
  {
    hide ReadLine, LineStart, ReadBulk, ReadBulks, PartialUnit, Reaches, IntegerOf;
    if s != "" && s[0] == '*' {
      LineVerdict(s[1..]);
    }
    if ReadFrame(s).More? && ReadArrayHeader(s).Elements? {
      var header, count, numerals, args, tail := StopsBehindHeader(s);
      PartialUnitWaits(tail);
    }
    if header: string, count: nat, numerals: seq<string>, args: seq<string>, tail: string :|
      Reaches(s, header, count, numerals, args, tail) && PartialUnit(tail) {
      PartialUnitWaits(tail);
      HeaderThenTail(s, header, count, numerals, args, tail);
    }
  }

  // Broken frames ----------------------------------------------------------------------

  /** A line that is complete and short enough, and is no number. */
  predicate NoNumber(s: string, line: string, rest: string) {
    s == line + CRLF + rest && |line| <= MAX_HEADER_LENGTH && CrlfFree(line) && IntegerOf(line) == None
  }

  /** What is wrong with an array header, and the error that says so. */
  ghost predicate HeaderFault(s: string, e: ProtocolError) {
    s != "" &&
    (|| (s[0] != '*' && e == Malformed("expected RESP array ('*')"))
     || (s[0] == '*' && LongLine(s[1..]) && e == Malformed("array length header too long"))
     || (s[0] == '*' && (exists line: string, rest: string :: NoNumber(s[1..], line, rest))
         && e == Malformed("invalid array length"))
     || ((exists digits: string, n: nat, rest: string :: TooMany(s, digits, n, rest))
         && e == Malformed("too many command arguments")))
  }

  predicate TooMany(s: string, digits: string, n: nat, rest: string) {
    Numeral(digits, n) && n > MAX_ARRAY_ELEMENTS && s == "*" + digits + CRLF + rest
  }

  /** What is wrong with a bulk string, and the error that says so. */
  ghost predicate UnitFault(tail: string, e: ProtocolError) {
    tail != "" &&
    (|| (tail[0] != '$' && e == Malformed("expected bulk string ('$')"))
     || (tail[0] == '$' && LongLine(tail[1..]) && e == Malformed("bulk string length header too long"))
     || (tail[0] == '$' && (exists line: string, rest: string :: NoNumber(tail[1..], line, rest))
         && e == Malformed("invalid bulk string length"))
     || ((exists digits: string, n: nat, rest: string :: TooLarge(tail, digits, n, rest))
         && e == ProtocolError(FieldTooLarge, "bulk string exceeds the maximum field size", false, 0))
     || ((exists digits: string, len: nat, body: string :: Unterminated(tail, digits, len, body))
         && e == Malformed("bulk string missing terminator")))
  }

  predicate TooLarge(tail: string, digits: string, n: nat, rest: string) {
    Numeral(digits, n) && n > MAX_BULK_LENGTH && tail == "$" + digits + CRLF + rest
  }

  predicate Unterminated(tail: string, digits: string, len: nat, body: string) {
    Announces(tail, digits, len, body) && |body| >= len + 2 && body[len..len + 2] != CRLF
  }

  /** The first thing wrong with a frame. */
  ghost predicate Fault(s: string, e: ProtocolError) {
    || HeaderFault(s, e)
    || (exists header: string, count: nat, numerals: seq<string>, args: seq<string>, tail: string ::
          Reaches(s, header, count, numerals, args, tail) && UnitFault(tail, e))
  }

  lemma NoNumberIsRead(s: string, line: string, rest: string)
    requires NoNumber(s, line, rest)
    ensures ReadLine(s) == Found(line, |line| + 2) && IntegerOf(line) == None
  {
    FindCrlfAfter(line, rest);
    assert s[..|line|] == line;
  }

  lemma ReadIsNoNumber(s: string) returns (line: string, rest: string)
    requires ReadLine(s).Found? && IntegerOf(ReadLine(s).content) == None
    ensures NoNumber(s, line, rest)
  {
    hide IntegerOf;
    line, rest := ReadLine(s).content, s[ReadLine(s).consumed..];
    assert s == s[..ReadLine(s).consumed] + rest;
  }

  lemma NumberedLine(digits: string, n: nat, rest: string)
    requires Numeral(digits, n)
    ensures ReadLine(digits + CRLF + rest) == Found(digits, |digits| + 2) && IntegerOf(digits) == Some(n)
  {
    NumeralIsDigits(digits, n);
    LineWithHeader(digits, rest);
  }

  lemma ReadIsNumber(s: string) returns (rest: string)
    requires ReadLine(s).Found? && IntegerOf(ReadLine(s).content).Some?
    ensures Numeral(ReadLine(s).content, IntegerOf(ReadLine(s).content).value) && s == ReadLine(s).content + CRLF + rest
  {
    hide IntegerOf;
    rest := s[ReadLine(s).consumed..];
    assert s == s[..ReadLine(s).consumed] + rest;
  }

  lemma BadArrayLength(s: string, line: string, rest: string)
    requires s != "" && s[0] == '*' && NoNumber(s[1..], line, rest)
    ensures ReadArrayHeader(s) == HeaderBad(Malformed("invalid array length"))
  {
    hide ReadLine, IntegerOf;
    NoNumberIsRead(s[1..], line, rest);
  }

  lemma TooManyRefused(s: string, digits: string, n: nat, rest: string)
    requires TooMany(s, digits, n, rest)
    ensures s[0] == '*' && ReadArrayHeader(s) == HeaderBad(Malformed("too many command arguments"))
  {
    hide ReadLine, IntegerOf;
    NumberedLine(digits, n, rest);
    assert s[1..] == digits + CRLF + rest;
  }

  lemma OtherHeaderFault(s: string)
    requires s != ""
    ensures s[0] != '*' ==> ReadArrayHeader(s) == HeaderBad(Malformed("expected RESP array ('*')"))
    ensures s[0] == '*' && LongLine(s[1..]) ==>
              ReadArrayHeader(s) == HeaderBad(Malformed("array length header too long"))
  {
    hide ReadLine, IntegerOf, LongLine;
    LongLineIsTooLong(s[1..]);
  }

  lemma HeaderFaultRefused(s: string, e: ProtocolError)
    requires HeaderFault(s, e)
    ensures ReadArrayHeader(s) == HeaderBad(e)
  {
    hide ReadArrayHeader, LongLine, NoNumber, TooMany;
    OtherHeaderFault(s);
    if s[0] == '*' {
      if line: string, rest: string :| NoNumber(s[1..], line, rest) {
        BadArrayLength(s, line, rest);
      }
    }
    if digits: string, n: nat, rest: string :| TooMany(s, digits, n, rest) {
      TooManyRefused(s, digits, n, rest);
    }
  }

  lemma RefusedIsHeaderFault(s: string)
    requires ReadArrayHeader(s).HeaderBad?
    ensures HeaderFault(s, ReadArrayHeader(s).error)
  {
    hide ReadLine, IntegerOf, LongLine, Numeral, NoNumber;
    if s[0] == '*' {
      LineVerdict(s[1..]);
      if ReadLine(s[1..]).Found? {
        var content := ReadLine(s[1..]).content;
        if IntegerOf(content).None? {
          var line, rest := ReadIsNoNumber(s[1..]);
        } else {
          var rest := ReadIsNumber(s[1..]);
          assert s == "*" + s[1..];
          assert TooMany(s, content, IntegerOf(content).value, rest);
        }
      }
    }
  }

  lemma BadBulkLength(tail: string, line: string, rest: string)
    requires tail != "" && tail[0] == '$' && NoNumber(tail[1..], line, rest)
    ensures ReadBulk(tail) == Bad(Malformed("invalid bulk string length"))
  {
    hide ReadLine, IntegerOf;
    NoNumberIsRead(tail[1..], line, rest);
  }

  lemma TooLargeRefused(tail: string, digits: string, n: nat, rest: string)
    requires TooLarge(tail, digits, n, rest)
    ensures ReadBulk(tail) == Bad(FIELD_TOO_LARGE)
  {
    hide ReadLine, IntegerOf;
    NumberedLine(digits, n, rest);
    assert tail[1..] == digits + CRLF + rest;
  }

  lemma OtherUnitFault(tail: string)
    requires tail != ""
    ensures tail[0] != '$' ==> ReadBulk(tail) == Bad(Malformed("expected bulk string ('$')"))
    ensures tail[0] == '$' && LongLine(tail[1..]) ==>
              ReadBulk(tail) == Bad(Malformed("bulk string length header too long"))
  {
    hide ReadLine, IntegerOf, LongLine;
    LongLineIsTooLong(tail[1..]);
  }

  lemma UnitFaultRefused(tail: string, e: ProtocolError)
    requires UnitFault(tail, e)
    ensures ReadBulk(tail) == Bad(e)
  {
    hide ReadBulk, LongLine, NoNumber, TooLarge, Unterminated;
    OtherUnitFault(tail);
    if tail[0] == '$' {
      if line: string, rest: string :| NoNumber(tail[1..], line, rest) {
        BadBulkLength(tail, line, rest);
      }
    }
    if digits: string, n: nat, rest: string :| TooLarge(tail, digits, n, rest) {
      TooLargeRefused(tail, digits, n, rest);
    }
    if digits: string, len: nat, body: string :| Unterminated(tail, digits, len, body) {
      UnterminatedRefused(tail, digits, len, body);
    }
  }

  lemma UnterminatedRefused(tail: string, digits: string, len: nat, body: string)
    requires Unterminated(tail, digits, len, body)
    ensures ReadBulk(tail) == Bad(Malformed("bulk string missing terminator"))
  {
    hide ReadLine, IntegerOf;
    AnnouncedHeader(tail, digits, len, body);
    AnnouncedLength(tail, digits, len, body);
    var start := 1 + |digits| + 2;
    assert body[len] == tail[start + len] && body[len + 1] == tail[start + len + 1];
    assert body[len..len + 2] == [body[len], body[len + 1]];
  }

  lemma RefusedIsTooLarge(tail: string) returns (digits: string, rest: string)
    requires tail != "" && tail[0] == '$' && ReadLine(tail[1..]).Found? && IntegerOf(ReadLine(tail[1..]).content).Some?
    requires IntegerOf(ReadLine(tail[1..]).content).value > MAX_BULK_LENGTH
    ensures TooLarge(tail, digits, IntegerOf(ReadLine(tail[1..]).content).value, rest)
    ensures ReadBulk(tail) == Bad(FIELD_TOO_LARGE)
  {
    hide ReadLine, IntegerOf, Numeral;
    digits := ReadLine(tail[1..]).content;
    rest := ReadIsNumber(tail[1..]);
    assert tail == "$" + tail[1..];
  }

  lemma RefusedIsUnterminated(tail: string) returns (digits: string, body: string)
    requires tail != "" && tail[0] == '$' && ReadLine(tail[1..]).Found? && IntegerOf(ReadLine(tail[1..]).content).Some?
    requires IntegerOf(ReadLine(tail[1..]).content).value <= MAX_BULK_LENGTH && ReadBulk(tail).Bad?
    ensures Unterminated(tail, digits, IntegerOf(ReadLine(tail[1..]).content).value, body)
    ensures ReadBulk(tail) == Bad(Malformed("bulk string missing terminator"))
  {
    hide ReadLine, IntegerOf, Announces;
    var len := IntegerOf(ReadLine(tail[1..]).content).value;
    digits, body := HeaderAnnounces(tail);
    AnnouncedHeader(tail, digits, len, body);
    var start := 1 + |digits| + 2;
    assert body[len] == tail[start + len] && body[len + 1] == tail[start + len + 1];
  }

  lemma RefusedIsNoNumber(tail: string)
    requires tail != "" && tail[0] == '$' && ReadLine(tail[1..]).Found? && IntegerOf(ReadLine(tail[1..]).content).None?
    ensures exists line: string, rest: string :: NoNumber(tail[1..], line, rest)
    ensures ReadBulk(tail) == Bad(Malformed("invalid bulk string length"))
  {
    hide ReadLine, IntegerOf, NoNumber;
    var line, rest := ReadIsNoNumber(tail[1..]);
  }

  lemma RefusedIsUnitFault(tail: string)
    requires ReadBulk(tail).Bad?
    ensures UnitFault(tail, ReadBulk(tail).error)
  {
    hide ReadBulk, ReadLine, IntegerOf, LongLine, NoNumber, TooLarge, Unterminated;
    BadIsThere(tail);
    OtherUnitFault(tail);
    if tail[0] == '$' && !LongLine(tail[1..]) {
      LongLineIsTooLong(tail[1..]);
      var content := ReadLine(tail[1..]).content;
      if IntegerOf(content).None? {
        RefusedIsNoNumber(tail);
      } else if IntegerOf(content).value > MAX_BULK_LENGTH {
        var digits, rest := RefusedIsTooLarge(tail);
      } else {
        var digits, body := RefusedIsUnterminated(tail);
      }
    }
  }

  lemma BadIsThere(tail: string)
    requires ReadBulk(tail).Bad?
    ensures tail != "" && (tail[0] == '$' ==> !ReadLine(tail[1..]).LineNeedsMore?)
  {
    hide ReadLine, IntegerOf;
  }

  /** The parser gives up with a particular error exactly on the frames that error describes. */
  lemma RefusesExactly(s: string, e: ProtocolError)
    ensures ReadFrame(s) == Bad(e) <==> Fault(s, e)
  {
    hide ReadBulk, ReadBulks, ReadArrayHeader, HeaderFault, UnitFault, Reaches;
    if ReadFrame(s) == Bad(e) {
      if ReadArrayHeader(s).HeaderBad? {
        RefusedIsHeaderFault(s);
      } else {
        var header, count, numerals, args, tail := StopsBehindHeader(s);
        RefusedIsUnitFault(tail);
      }
    }
    if HeaderFault(s, e) {
      HeaderFaultRefused(s, e);
    }
    if header: string, count: nat, numerals: seq<string>, args: seq<string>, tail: string :|
      Reaches(s, header, count, numerals, args, tail) && UnitFault(tail, e) {
      UnitFaultRefused(tail, e);
      HeaderThenTail(s, header, count, numerals, args, tail);
    }
  }
}
