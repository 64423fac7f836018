/** What the seven commands look like as argument lists, and why other lists are refused. */
module CommandMeaning {
  import opened Bytes
  import opened Parser
  import opened RequestCodec
  import opened FrameGrammar
  import Replies

  /** The canonical spelling of a command. */
  function Spelled(c: Command): (args: seq<string>)
    ensures |args| > 0
  {
    match c
    case Ping => ["PING"]
    case Set(k, v) => ["SET", k, v]
    case Get(k) => ["GET", k]
    case Del(k) => ["DEL", k]
    case Exists(k) => ["EXISTS", k]
    case Expire(k, seconds) => ["EXPIRE", k, Decimal(seconds)]
    case Ttl(k) => ["TTL", k]
  }

  /** The limits of a command: key, value and the range of seconds. */
  predicate Acceptable(c: Command) {
    && (!c.Ping? ==> |c.key| <= MAX_KEY_LENGTH)
    && (c.Set? ==> |c.value| <= MAX_VALUE_LENGTH)
    && (c.Expire? ==> c.seconds <= INT64_MAX)
  }

  /** The same word up to the case of its letters: capitals of `name` may be 32 higher in `word`. */
  predicate Twin(word: string, name: string) {
    && |word| == |name|
    && forall i | 0 <= i < |name| ::
         word[i] == name[i] || ('A' <= name[i] <= 'Z' && word[i] as int == name[i] as int + 32)
  }

  predicate Capital(name: string) {
    forall i | 0 <= i < |name| :: 'A' <= name[i] <= 'Z'
  }

  lemma TwinIsUpper(word: string, name: string)
    requires Capital(name)
    ensures Upper(word) == name <==> Twin(word, name)
  {
    if Twin(word, name) {
      forall i | 0 <= i < |word|
        ensures Upper(word)[i] == name[i]
      {
        assert word[i] == name[i] || word[i] as int == name[i] as int + 32;
      }
    } else if |word| == |name| {
      var i :| 0 <= i < |name| && word[i] != name[i]
               && !('A' <= name[i] <= 'Z' && word[i] as int == name[i] as int + 32);
      assert Upper(word)[i] != name[i];
    }
  }

  lemma NamesAreCapital(name: string)
    requires name in Replies.NAMES
    ensures Capital(name)
  {
  }

  /** The same argument list up to the case of the name and leading zeros of the seconds. */
  predicate Spells(args: seq<string>, c: Command) {
    && |args| == |Spelled(c)|
    && Twin(args[0], Spelled(c)[0])
    && (!c.Ping? ==> args[1] == c.key)
    && (c.Set? ==> args[2] == c.value)
    && (c.Expire? ==> IntegerOf(args[2]) == Some(c.seconds))
  }

  /** An argument list is a command exactly if it spells that command within its limits. */
  lemma ValidExactlyWhenSpelled(args: seq<string>, c: Command)
    ensures BuildCommand(args) == Valid(c) <==> Acceptable(c) && Spells(args, c)
  {
    hide IntegerOf, Upper, Twin, Capital, BuildCommand, Acceptable;
    UpperSpells(args, c);
    if args != [] {
      NamesAreCapital(Spelled(c)[0]);
      TwinIsUpper(args[0], Spelled(c)[0]);
    }
  }

  lemma UpperSpells(args: seq<string>, c: Command)
    ensures BuildCommand(args) == Valid(c)
            <==> && Acceptable(c)
                 && |args| == |Spelled(c)| && Upper(args[0]) == Spelled(c)[0]
                 && (!c.Ping? ==> args[1] == c.key)
                 && (c.Set? ==> args[2] == c.value)
                 && (c.Expire? ==> IntegerOf(args[2]) == Some(c.seconds))
  {
    hide IntegerOf, Upper;
    if |args| == 3 {
      IntegerRange(args[2]);
    }
  }

  lemma IntegerRange(text: string)
    ensures IntegerOf(text).Some? ==> IntegerOf(text).value <= INT64_MAX
  {
  }

  lemma DecimalRoundTrip(n: nat)
    requires n <= INT64_MAX
    ensures IntegerOf(Decimal(n)) == Some(n) && |Decimal(n)| <= 19
  {
    assert Pow10(4) == 10_000 && Pow10(8) == 100_000_000 && Pow10(12) == 1_000_000_000_000;
    assert Pow10(16) == 10_000_000_000_000_000 && Pow10(19) == 10_000_000_000_000_000_000;
    DecimalLength(n, 19);
  }

  /** A command written with its name in any mixture of cases parses, whatever follows, to that
      command. */
  lemma AnyCaseParses(c: Command, word: string, rest: string)
    requires Acceptable(c) && Twin(word, Spelled(c)[0])
    ensures var args := [word] + Spelled(c)[1..];
            Parse(Encode(args) + rest) == Parsed(c, |Encode(args)|)
  {
    hide Encode, BuildCommand, ReadFrame, IntegerOf, Decimal, Twin;
    var args := [word] + Spelled(c)[1..];
    if c.Expire? {
      DecimalRoundTrip(c.seconds);
    }
    TwinLength(word, Spelled(c)[0]);
    ValidExactlyWhenSpelled(args, c);
    RoundTrip(args, rest);
  }

  lemma TwinLength(word: string, name: string)
    requires Twin(word, name)
    ensures |word| == |name|
  {
  }

  /** Printing a command and parsing it, whatever follows, gives the command back. */
  lemma CommandRoundTrip(c: Command, rest: string)
    requires Acceptable(c)
    ensures Parse(Encode(Spelled(c)) + rest) == Parsed(c, |Encode(Spelled(c))|)
  {
    hide Encode, Parse, Acceptable;
    AnyCaseParses(c, Spelled(c)[0], rest);
    assert [Spelled(c)[0]] + Spelled(c)[1..] == Spelled(c);
  }

  // The smallest command ---------------------------------------------------------------

  /** A PING of 14 bytes. */
  const SMALLEST_COMMAND: nat := 14

  lemma PingSize()
    ensures Spelled(Ping) == ["PING"] && |Encode(Spelled(Ping))| == SMALLEST_COMMAND
  {
    assert |Decimal(1)| == 1 && |Decimal(4)| == 1;
    assert EncodeBulks(["PING"][1..]) == "";
  }

  lemma {:induction false} UnitsSize(numerals: seq<string>, args: seq<string>)
    requires LegalUnits(numerals, args)
    ensures |args| == 0 ==> Units(numerals, args) == ""
    ensures |args| > 0 ==> |Units(numerals, args)| >= |args[0]| + 6 * |args|
  {
    hide IntegerOf;
    if |args| > 0 {
      NumeralIsDigits(numerals[0], |args[0]|);
      NumeralIsNonempty(numerals[0], |args[0]|);
      UnitsSize(numerals[1..], args[1..]);
    }
  }

  lemma NumeralIsNonempty(digits: string, n: nat)
    requires Numeral(digits, n)
    ensures |digits| > 0
  {
  }

  /** No command takes fewer bytes. */
  lemma SmallestCommand(s: string)
    requires Parse(s).Parsed?
    ensures Parse(s).consumed >= SMALLEST_COMMAND
  {
    hide ReadFrame, BuildCommand, Units, LegalUnits, Twin, IntegerOf;
    var args := ReadFrame(s).value;
    var header, numerals := ReadIsFrame(s);
    NumeralIsNonempty(header, |args|);
    UnitsSize(numerals, args);
    ValidExactlyWhenSpelled(args, Parse(s).command);
    TwinLength(args[0], Spelled(Parse(s).command)[0]);
  }

  // Refusals ---------------------------------------------------------------------------

  /** Arguments each command takes, its name included. */
  function Arity(name: string): nat {
    if name == "PING" then 1 else if name == "SET" || name == "EXPIRE" then 3 else 2
  }

  /** Why a list that starts with a known name is refused, and with which text: the number of
      arguments first, then their sizes, then the number of seconds. */
  predicate RefusedAs(args: seq<string>, name: string, r: CommandResult) {
    if |args| != Arity(name)
    then r == Invalid(WrongArity, "ERR wrong number of arguments for '" + name + "' command")
    else if name != "PING" && |args[1]| > MAX_KEY_LENGTH
    then r == Invalid(FieldTooLarge, "ERR key exceeds maximum size")
    else if name == "SET"
    then |args[2]| > MAX_VALUE_LENGTH && r == Invalid(FieldTooLarge, "ERR value exceeds maximum size")
    else name == "EXPIRE" && IntegerOf(args[2]) == None
         && r == Invalid(InvalidInteger, "ERR value is not an integer or out of range")
  }

  /** Each refusal has exactly one reason and carries that reason's text. */
  lemma WhyRefused(args: seq<string>)
    requires BuildCommand(args).Invalid?
    ensures args == [] ==> BuildCommand(args) == Invalid(UnknownCommand, "ERR unknown command ''")
    ensures args != [] && (forall name | name in Replies.NAMES :: !Twin(args[0], name)) ==>
              BuildCommand(args) == Invalid(UnknownCommand, "ERR unknown command '" + args[0] + "'")
    ensures args != [] ==>
              forall name | name in Replies.NAMES && Twin(args[0], name) :: RefusedAs(args, name, BuildCommand(args))
  {
    hide Upper, IntegerOf, Twin, Capital, RefusedAs, BuildCommand;
    if args != [] {
      forall name | name in Replies.NAMES
        ensures Upper(args[0]) == name <==> Twin(args[0], name)
      {
        NamesAreCapital(name);
        TwinIsUpper(args[0], name);
      }
      if Upper(args[0]) in Replies.NAMES {
        KnownRefused(args);
      } else {
        UnknownRefused(args);
      }
    } else {
      NothingRefused();
    }
  }

  lemma KnownRefused(args: seq<string>)
    requires args != [] && Upper(args[0]) in Replies.NAMES && BuildCommand(args).Invalid?
    ensures RefusedAs(args, Upper(args[0]), BuildCommand(args))
  {
    hide Upper, IntegerOf;
  }

  lemma UnknownRefused(args: seq<string>)
    requires args != [] && Upper(args[0]) !in Replies.NAMES
    ensures BuildCommand(args) == Invalid(UnknownCommand, "ERR unknown command '" + args[0] + "'")
  {
    hide Upper, IntegerOf;
  }

  lemma NothingRefused()
    ensures BuildCommand([]) == Invalid(UnknownCommand, "ERR unknown command ''")
  {
  }
}
