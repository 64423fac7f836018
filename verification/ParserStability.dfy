/** How the parser behaves when bytes arrive in pieces: a verdict on a prefix is final exactly
    when the prefix does not end inside the CRLF of a 20-character header. */
module ParserStability {
  import opened Bytes
  import opened Parser

  // One header line --------------------------------------------------------------------

  /** The buffer holds a 20-character header and its CR, but not yet its LF. */
  predicate CutLine(s: string) {
    |s| == MAX_HEADER_LENGTH + 1 && s[MAX_HEADER_LENGTH] == '\r' && CrlfFree(s)
  }

  predicate StartsWithLf(q: string) {
    q != "" && q[0] == '\n'
  }

  lemma FindCrlfExtends(p: string, q: string)
    requires FindCrlf(p).Some?
    ensures FindCrlf(p + q) == FindCrlf(p)
  {
    var i := FindCrlf(p).value;
    forall j | 0 <= j < i
      ensures !CrlfAt(p + q, j)
    {
      assert !CrlfAt(p, j);
    }
    FindCrlfIs(p + q, i);
  }

  lemma LineStable(p: string, q: string)
    requires !ReadLine(p).LineNeedsMore?
    requires !(CutLine(p) && StartsWithLf(q))
    ensures ReadLine(p + q) == ReadLine(p)
  {
    match FindCrlf(p)
    case Some(i) =>
      FindCrlfExtends(p, q);
      assert (p + q)[..i] == p[..i];
    case None =>
      var r := FindCrlf(p + q);
      if r.Some? && r.value + 1 < |p| {
        assert CrlfAt(p, r.value);
        assert false;
      }
  }

  lemma CutLineHeals(p: string, q: string)
    requires CutLine(p) && StartsWithLf(q)
    ensures ReadLine(p).TooLong?
    ensures ReadLine(p + q) == Found(p[..MAX_HEADER_LENGTH], MAX_HEADER_LENGTH + 2)
  {
    var s := p + q;
    forall j | 0 <= j < MAX_HEADER_LENGTH
      ensures !CrlfAt(s, j)
    {
      assert !CrlfAt(p, j);
    }
    FindCrlfIs(s, MAX_HEADER_LENGTH);
    assert s[..MAX_HEADER_LENGTH] == p[..MAX_HEADER_LENGTH];
  }

  predicate WideLine(s: string) {
    ReadLine(s).Found? && |ReadLine(s).content| == MAX_HEADER_LENGTH
  }

  lemma WideLineCuts(s: string)
    requires WideLine(s)
    ensures |s| > MAX_HEADER_LENGTH + 1 && CutLine(s[..MAX_HEADER_LENGTH + 1])
            && StartsWithLf(s[MAX_HEADER_LENGTH + 1..])
  {
    var p := s[..MAX_HEADER_LENGTH + 1];
    assert FindCrlf(s) == Some(MAX_HEADER_LENGTH);
    forall j | 0 <= j < |p|
      ensures !CrlfAt(p, j)
    {
      if j < MAX_HEADER_LENGTH {
        assert !CrlfAt(s, j);
      }
    }
  }

  // Bulk strings -----------------------------------------------------------------------

  const BULK_HEADER_TOO_LONG: ProtocolError := Malformed("bulk string length header too long")
  const ARRAY_HEADER_TOO_LONG: ProtocolError := Malformed("array length header too long")

  predicate CutBulk(s: string) {
    s != "" && s[0] == '$' && CutLine(s[1..])
  }

  predicate CutBulks(s: string, k: nat) {
    k > 0 && (CutBulk(s) || (ReadBulk(s).Done? && CutBulks(s[ReadBulk(s).consumed..], k - 1)))
  }

  predicate WideBulk(s: string) {
    s != "" && s[0] == '$' && WideLine(s[1..])
  }

  predicate WideBulks(s: string, k: nat) {
    k > 0 && (WideBulk(s) || (ReadBulk(s).Done? && WideBulks(s[ReadBulk(s).consumed..], k - 1)))
  }

  lemma BulkStable(s: string, q: string)
    requires !ReadBulk(s).More?
    requires !(CutBulk(s) && StartsWithLf(q))
    ensures ReadBulk(s + q) == ReadBulk(s)
  {
    var t := s + q;
    if s[0] == '$' {
      assert t[1..] == s[1..] + q;
      LineStable(s[1..], q);
      var r := ReadBulk(s);
      if r.Done? {
        var start := 1 + ReadLine(s[1..]).consumed;
        assert t[start..r.consumed - 2] == s[start..r.consumed - 2];
      }
    }
  }

  lemma BulkDoneStable(s: string, q: string)
    requires ReadBulk(s).Done?
    ensures ReadBulk(s + q) == ReadBulk(s)
  {
    BulkStable(s, q);
  }

  lemma {:induction false} BulksStable(s: string, k: nat, q: string)
    requires !ReadBulks(s, k).More?
    requires !(CutBulks(s, k) && StartsWithLf(q))
    ensures ReadBulks(s + q, k) == ReadBulks(s, k)
  {
    hide ReadBulk;
    if k > 0 {
      BulkStable(s, q);
      var r := ReadBulk(s);
      if r.Done? {
        assert (s + q)[r.consumed..] == s[r.consumed..] + q;
        BulksStable(s[r.consumed..], k - 1, q);
      }
    }
  }

  lemma CutBulkHeals(s: string, q: string)
    requires CutBulk(s) && StartsWithLf(q)
    ensures ReadBulk(s) == Bad(BULK_HEADER_TOO_LONG)
    ensures WideBulk(s + q)
    ensures q == "\n" ==> ReadBulk(s + q) != ReadBulk(s)
    ensures q == "\n" ==> !ReadBulk(s + q).Done?
  {
    CutLineHeals(s[1..], q);
    assert (s + q)[1..] == s[1..] + q;
  }

  lemma {:induction false} CutBulksHeals(s: string, k: nat, q: string)
    requires CutBulks(s, k) && StartsWithLf(q)
    ensures ReadBulks(s, k) == Bad(BULK_HEADER_TOO_LONG)
    ensures WideBulks(s + q, k)
    ensures q == "\n" ==> ReadBulks(s + q, k) != ReadBulks(s, k)
  {
    hide ReadBulk, CutBulk, WideBulk, Size;
    if CutBulk(s) {
      CutBulkHeals(s, q);
    } else {
      BulkStable(s, q);
      var r := ReadBulk(s);
      assert (s + q)[r.consumed..] == s[r.consumed..] + q;
      CutBulksHeals(s[r.consumed..], k - 1, q);
    }
  }

  /** A unit that was read does not depend on the bytes behind it. */
  lemma BulkExact(s: string)
    requires ReadBulk(s).Done?
    ensures ReadBulk(s[..ReadBulk(s).consumed]) == ReadBulk(s)
  {
    var r := ReadBulk(s);
    var p := s[..r.consumed];
    var line := ReadLine(s[1..]);
    var i := |line.content|;
    var h := p[1..];
    assert h == s[1..][..r.consumed - 1];
    forall j | 0 <= j < i
      ensures !CrlfAt(h, j)
    {
      assert !CrlfAt(s[1..], j);
    }
    assert CrlfAt(s[1..], i);
    FindCrlfIs(h, i);
    assert h[..i] == line.content;
    var start := 1 + line.consumed;
    assert p[start..r.consumed - 2] == s[start..r.consumed - 2];
  }

  /** Where the cut of a wide header at the front of `s` is. */
  lemma WideHeaderCut(s: string) returns (c: nat)
    requires WideBulk(s) || WideArray(s)
    ensures c < |s| && StartsWithLf(s[c..])
    ensures WideBulk(s) ==> CutBulk(s[..c])
    ensures WideArray(s) ==> CutArray(s[..c])
  {
    WideLineCuts(s[1..]);
    c := MAX_HEADER_LENGTH + 2;
    assert s[..c][1..] == s[1..][..MAX_HEADER_LENGTH + 1];
    assert s[c..] == s[1..][MAX_HEADER_LENGTH + 1..];
  }

  lemma {:induction false} WideBulksCut(s: string, k: nat) returns (c: nat)
    requires WideBulks(s, k)
    ensures c < |s| && CutBulks(s[..c], k) && StartsWithLf(s[c..])
  {
    hide ReadBulk, CutBulk, WideBulk;
    if WideBulk(s) {
      c := WideHeaderCut(s);
    } else {
      var r := ReadBulk(s);
      var n := r.consumed;
      var d := WideBulksCut(s[n..], k - 1);
      c := n + d;
      BulkExact(s);
      assert s[..c] == s[..n] + s[n..][..d];
      BulkDoneStable(s[..n], s[n..][..d]);
      assert s[..c][n..] == s[n..][..d];
      assert s[c..] == s[n..][d..];
    }
  }

  // Frames -----------------------------------------------------------------------------

  predicate CutArray(s: string) {
    s != "" && s[0] == '*' && CutLine(s[1..])
  }

  /** The buffer ends between the CR and the LF of a 20-character header. */
  predicate AtCut(s: string) {
    || CutArray(s)
    || (ReadArrayHeader(s).Elements? && CutBulks(s[ReadArrayHeader(s).consumed..], ReadArrayHeader(s).count))
  }

  predicate WideArray(s: string) {
    s != "" && s[0] == '*' && WideLine(s[1..])
  }

  /** The frame at the front of `s` uses a header of exactly 20 characters. */
  predicate Wide(s: string) {
    || WideArray(s)
    || (ReadArrayHeader(s).Elements? && WideBulks(s[ReadArrayHeader(s).consumed..], ReadArrayHeader(s).count))
  }

  lemma HeaderStable(s: string, q: string)
    requires !ReadArrayHeader(s).HeaderNeedsMore?
    requires !(CutArray(s) && StartsWithLf(q))
    ensures ReadArrayHeader(s + q) == ReadArrayHeader(s)
  {
    if s[0] == '*' {
      assert (s + q)[1..] == s[1..] + q;
      LineStable(s[1..], q);
    }
  }

  lemma FrameStable(s: string, q: string)
    requires !ReadFrame(s).More?
    requires !(AtCut(s) && StartsWithLf(q))
    ensures ReadFrame(s + q) == ReadFrame(s)
  {
    hide ReadArrayHeader, ReadBulks, CutArray, CutBulks, Size;
    HeaderStable(s, q);
    var h := ReadArrayHeader(s);
    if h.Elements? {
      assert (s + q)[h.consumed..] == s[h.consumed..] + q;
      BulksStable(s[h.consumed..], h.count, q);
    }
  }

  lemma CutArrayHeals(s: string, q: string)
    requires CutArray(s) && StartsWithLf(q)
    ensures ReadFrame(s) == Bad(ARRAY_HEADER_TOO_LONG) && WideArray(s + q)
    ensures ReadFrame(s + q) != Bad(ARRAY_HEADER_TOO_LONG)
  {
    hide ReadBulks, ReadLine, IntegerOf;
    CutLineHeals(s[1..], q);
    assert (s + q)[1..] == s[1..] + q;
    ArrayTooLongOnlyThere(s + q);
  }

  /** At a cut the parser has already given up, and the missing LF would have changed its mind. */
  lemma CutHeals(s: string, q: string)
    requires AtCut(s) && StartsWithLf(q)
    ensures ReadFrame(s) == Bad(if CutArray(s) then ARRAY_HEADER_TOO_LONG else BULK_HEADER_TOO_LONG)
    ensures if CutArray(s) then WideArray(s + q) else Wide(s + q)
    ensures q == "\n" ==> ReadFrame(s + q) != ReadFrame(s)
  {
    hide ReadArrayHeader, ReadBulks, CutArray, WideArray, CutBulks, WideBulks, Size, ReadLine;
    if CutArray(s) {
      CutArrayHeals(s, q);
    } else {
      var h := ReadArrayHeader(s);
      HeaderStable(s, q);
      assert (s + q)[h.consumed..] == s[h.consumed..] + q;
      CutBulksHeals(s[h.consumed..], h.count, q);
    }
  }

  /** A header line that goes on for more than 20 characters. */
  predicate LongLine(s: string) {
    |s| > MAX_HEADER_LENGTH && forall i | 0 <= i <= MAX_HEADER_LENGTH :: !CrlfAt(s, i)
  }

  predicate LongBulk(s: string) {
    s != "" && s[0] == '$' && LongLine(s[1..])
  }

  /** One of `k` bulk strings, all before it whole, has an over-long header. */
  predicate LongBulks(s: string, k: nat) {
    k > 0 && (LongBulk(s) || (ReadBulk(s).Done? && LongBulks(s[ReadBulk(s).consumed..], k - 1)))
  }

  /** Some bulk header of the frame at the front of `s` is over-long. */
  predicate LongFrame(s: string) {
    ReadArrayHeader(s).Elements? && LongBulks(s[ReadArrayHeader(s).consumed..], ReadArrayHeader(s).count)
  }

  lemma LongLineIsTooLong(s: string)
    ensures ReadLine(s).TooLong? <==> LongLine(s)
  {
  }

  lemma LongBulkIsTooLong(s: string)
    ensures ReadBulk(s) == Bad(BULK_HEADER_TOO_LONG) <==> LongBulk(s)
  {
    hide ReadLine, LongLine, IntegerOf;
    if s != "" {
      LongLineIsTooLong(s[1..]);
    }
    assert BULK_HEADER_TOO_LONG.message[12] == 'l' && "bulk string missing terminator"[12] == 'm';
    assert "expected bulk string ('$')"[0] == 'e' && "invalid bulk string length"[0] == 'i';
  }

  lemma {:induction false} LongBulksAreTooLong(s: string, k: nat)
    ensures ReadBulks(s, k) == Bad(BULK_HEADER_TOO_LONG) <==> LongBulks(s, k)
  {
    hide ReadBulk, LongBulk, Size;
    if k > 0 {
      LongBulkIsTooLong(s);
      if ReadBulk(s).Done? {
        LongBulksAreTooLong(s[ReadBulk(s).consumed..], k - 1);
      }
    }
  }

  lemma LongFrameIsTooLong(s: string)
    ensures ReadFrame(s) == Bad(BULK_HEADER_TOO_LONG) <==> LongFrame(s)
  {
    hide ReadBulks, LongBulks, IntegerOf, ReadLine, Size;
    var h := ReadArrayHeader(s);
    if h.Elements? {
      LongBulksAreTooLong(s[h.consumed..], h.count);
    }
    assert BULK_HEADER_TOO_LONG.message[0] == 'b';
    assert "expected RESP array ('*')"[0] == 'e' && "array length header too long"[0] == 'a';
    assert "invalid array length"[0] == 'i' && "too many command arguments"[0] == 't';
  }

  lemma BulksNeverArrayTooLong(s: string, k: nat)
    ensures ReadBulks(s, k) != Bad(ARRAY_HEADER_TOO_LONG)
  {
    if k > 0 && ReadBulk(s).Done? {
      BulksNeverArrayTooLong(s[ReadBulk(s).consumed..], k - 1);
    }
    assert BULK_HEADER_TOO_LONG.message[0] == 'b' && ARRAY_HEADER_TOO_LONG.message[0] == 'a';
    assert "expected bulk string ('$')"[0] == 'e';
    assert "invalid bulk string length"[0] == 'i';
    assert "bulk string missing terminator"[0] == 'b';
    assert FIELD_TOO_LARGE.category == FieldTooLarge;
  }

  lemma ArrayTooLongOnlyThere(s: string)
    requires s != "" && s[0] == '*' && ReadLine(s[1..]).Found?
    ensures ReadFrame(s) != Bad(ARRAY_HEADER_TOO_LONG)
  {
    assert ARRAY_HEADER_TOO_LONG.message[0] == 'a';
    assert "invalid array length"[0] == 'i';
    assert "too many command arguments"[0] == 't';
    var h := ReadArrayHeader(s);
    if h.Elements? {
      BulksNeverArrayTooLong(s[h.consumed..], h.count);
    }
  }

  /** Prefix stability, exactly: once the parser has answered on `p`, more bytes never change
      the answer if and only if `p` does not end at a cut. */
  lemma PrefixStability(p: string)
    requires !Parse(p).NeedMoreData?
    ensures (forall q :: Parse(p + q) == Parse(p)) <==> !AtCut(p)
  {
    if AtCut(p) {
      CutHeals(p, "\n");
      FatalDiffers(p, p + "\n");
      assert Parse(p + "\n") != Parse(p);
    } else {
      forall q
        ensures Parse(p + q) == Parse(p)
      {
        FrameStable(p, q);
      }
    }
  }

  /** Distinct frame outcomes stay distinct after interpretation when one is a framing error. */
  lemma FatalDiffers(s: string, t: string)
    requires ReadFrame(s).Bad? && ReadFrame(t) != ReadFrame(s)
    ensures Parse(t) != Parse(s)
  {
  }

  /** Whatever is already complete is never taken back. */
  lemma DoneStable(s: string, q: string)
    requires ReadFrame(s).Done?
    ensures ReadFrame(s + q) == ReadFrame(s)
    ensures Parse(s + q) == Parse(s)
  {
    if AtCut(s) {
      CutHeals(s, "\n");
    }
    FrameStable(s, q);
  }

  /** A frame that was read does not depend on the bytes behind it. */
  lemma FrameExact(s: string)
    requires ReadFrame(s).Done?
    ensures ReadFrame(s[..ReadFrame(s).consumed]) == ReadFrame(s)
  {
    hide ReadBulks, ReadLine;
    var h := ReadArrayHeader(s);
    var n := h.consumed;
    var r := ReadFrame(s);
    var p := s[..r.consumed];
    HeaderExact(s);
    assert p == s[..n] + s[n..r.consumed];
    HeaderStable(s[..n], s[n..r.consumed]);
    BulksExact(s[n..], h.count);
    assert p[n..] == s[n..][..r.consumed - n];
  }

  lemma HeaderExact(s: string)
    requires ReadArrayHeader(s).Elements?
    ensures ReadArrayHeader(s[..ReadArrayHeader(s).consumed]) == ReadArrayHeader(s)
    ensures !CutArray(s[..ReadArrayHeader(s).consumed])
  {
    hide ReadBulk;
    var n := ReadArrayHeader(s).consumed;
    var line := ReadLine(s[1..]);
    var i := |line.content|;
    var h := s[..n][1..];
    assert h == s[1..][..n - 1];
    forall j | 0 <= j < i
      ensures !CrlfAt(h, j)
    {
      assert !CrlfAt(s[1..], j);
    }
    assert CrlfAt(s[1..], i);
    FindCrlfIs(h, i);
    assert h[..i] == line.content;
  }

  /** Reading resumes right behind a unit that fills its buffer exactly. */
  lemma BulksResume(p: string, q: string, k: nat)
    requires k > 0 && ReadBulk(p).Done? && ReadBulk(p).consumed == |p|
    ensures ReadBulks(p + q, k) == Continue([ReadBulk(p).value], |p|, ReadBulks(q, k - 1))
  {
    hide ReadBulk;
    BulkDoneStable(p, q);
    assert (p + q)[|p|..] == q;
  }

  lemma {:induction false} BulksExact(s: string, k: nat)
    requires ReadBulks(s, k).Done?
    ensures ReadBulks(s[..ReadBulks(s, k).consumed], k) == ReadBulks(s, k)
  {
    hide ReadBulk, Size;
    if k > 0 {
      var n := ReadBulk(s).consumed;
      var m := ReadBulks(s[n..], k - 1).consumed;
      BulkExact(s);
      BulksExact(s[n..], k - 1);
      assert s[..n + m] == s[..n] + s[n..][..m];
      BulksResume(s[..n], s[n..][..m], k);
    }
  }

  lemma WideCut(s: string) returns (c: nat)
    requires Wide(s)
    ensures c < |s| && AtCut(s[..c]) && StartsWithLf(s[c..])
    ensures WideArray(s) ==> CutArray(s[..c])
  {
    hide ReadArrayHeader, CutArray, WideArray, ReadBulk;
    if WideArray(s) {
      c := WideHeaderCut(s);
    } else {
      var h := ReadArrayHeader(s);
      var n := h.consumed;
      var d := WideBulksCut(s[n..], h.count);
      c := n + d;
      HeaderExact(s);
      assert s[..c] == s[..n] + s[n..][..d];
      HeaderStable(s[..n], s[n..][..d]);
      assert s[..c][n..] == s[n..][..d];
      assert s[c..] == s[n..][d..];
    }
  }

  lemma {:induction false} ZerosAreZero(n: nat)
    ensures AllDigits(seq(n, _ => '0')) && DecimalValue(seq(n, _ => '0')) == 0
  {
    if n > 0 {
      assert seq(n, _ => '0')[..n - 1] == seq(n - 1, _ => '0');
      ZerosAreZero(n - 1);
    }
  }

  /** A concrete cut: the same 23 bytes are a frame when they arrive together, and a framing error
      when the last one comes later. */
  lemma TwentyZeros()
    ensures var p := "*" + seq(20, _ => '0') + "\r";
            && Parse(p) == Failed(ARRAY_HEADER_TOO_LONG)
            && Parse(p + "\n") == Failed(ProtocolError(UnknownCommand, "ERR unknown command ''", true, 23))
  {
    var zeros := seq(20, _ => '0');
    var p := "*" + zeros + "\r";
    assert p[1..] == zeros + "\r";
    ZerosAreZero(20);
    DigitsAreCrlfFree(zeros);
    assert CrlfFree(p[1..]) by {
      assert forall i | 0 <= i < 20 :: p[1..][i] == '0';
    }
    CutHeals(p, "\n");
    var t := p + "\n";
    assert t[1..] == zeros + CRLF + "";
    FindCrlfAfter(zeros, "");
    assert t[1..][..20] == zeros;
    assert ReadArrayHeader(t) == Elements(0, 23);
    assert ReadBulks(t[23..], 0) == Done([], 0);
  }
}
