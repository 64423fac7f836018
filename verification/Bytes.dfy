/** Byte strings, the CRLF search, and decimal numerals shared by the protocol modules. */
module Bytes {

  datatype Option<+T> = None | Some(value: T)

  const CRLF: string := "\r\n"

  predicate CrlfAt(s: string, i: int) {
    0 <= i && i + 1 < |s| && s[i] == '\r' && s[i + 1] == '\n'
  }

  predicate CrlfFree(s: string) {
    forall i | 0 <= i < |s| :: !CrlfAt(s, i)
  }

  /** The position of the first CRLF, as `find("\r\n")` reports it. */
  function FindCrlf(s: string): (r: Option<nat>)
    ensures r.Some? ==> CrlfAt(s, r.value) && forall j | 0 <= j < r.value :: !CrlfAt(s, j)
    ensures r.None? ==> CrlfFree(s)
  {
    FindCrlfFrom(s, 0)
  }

  function FindCrlfFrom(s: string, i: nat): (r: Option<nat>)
    requires i <= |s|
    ensures r.Some? ==> i <= r.value && CrlfAt(s, r.value) && forall j | i <= j < r.value :: !CrlfAt(s, j)
    ensures r.None? ==> forall j | i <= j < |s| :: !CrlfAt(s, j)
    decreases |s| - i
  {
    if i == |s| then None
    else if CrlfAt(s, i) then Some(i)
    else FindCrlfFrom(s, i + 1)
  }

  /** The search result is the only position with the "first CRLF" property. */
  lemma FindCrlfIs(s: string, i: nat)
    requires CrlfAt(s, i)
    requires forall j | 0 <= j < i :: !CrlfAt(s, j)
    ensures FindCrlf(s) == Some(i)
  {
    var r := FindCrlf(s);
    assert !CrlfFree(s);
    assert i <= r.value && r.value <= i;
  }

  /** A CRLF-free text ended by CRLF is delimited exactly there, whatever follows. */
  lemma FindCrlfAfter(text: string, rest: string)
    requires CrlfFree(text)
    ensures FindCrlf(text + CRLF + rest) == Some(|text|)
  {
    var s := text + CRLF + rest;
    forall j | 0 <= j < |text|
      ensures !CrlfAt(s, j)
    {
      assert !CrlfAt(text, j);
    }
    FindCrlfIs(s, |text|);
  }

  /** Concatenation of a list of byte strings. */
  function Concat(parts: seq<string>): string {
    if parts == [] then "" else parts[0] + Concat(parts[1..])
  }

  lemma {:induction false} ConcatAppend(a: seq<string>, b: seq<string>)
    ensures Concat(a + b) == Concat(a) + Concat(b)
  {
    if a == [] {
      assert a + b == b;
    } else {
      assert (a + b)[1..] == a[1..] + b;
      ConcatAppend(a[1..], b);
    }
  }

  lemma ConcatSnoc(a: seq<string>, x: string)
    ensures Concat(a + [x]) == Concat(a) + x
  {
    ConcatAppend(a, [x]);
    assert Concat([x]) == x + Concat([x][1..]);
  }

  // Decimal numerals ------------------------------------------------------------------

  predicate IsDigit(c: char) {
    '0' <= c <= '9'
  }

  predicate AllDigits(s: string) {
    forall i | 0 <= i < |s| :: IsDigit(s[i])
  }

  /** The number a digit string denotes, most significant digit first. */
  function DecimalValue(s: string): nat
    requires AllDigits(s)
  {
    if s == "" then 0
    else DecimalValue(s[..|s| - 1]) * 10 + (s[|s| - 1] - '0') as nat
  }

  function Digit(n: nat): char
    requires n < 10
  {
    ('0' as nat + n) as char
  }

  /** `std::to_string` on a nonnegative number. */
  function Decimal(n: nat): (s: string)
    ensures s != "" && AllDigits(s)
    ensures DecimalValue(s) == n
  {
    if n < 10 then
      assert DecimalValue([Digit(n)][..0]) == 0;
      [Digit(n)]
    else
      var s := Decimal(n / 10) + [Digit(n % 10)];
      assert s[..|s| - 1] == Decimal(n / 10);
      s
  }

  function Pow10(k: nat): nat {
    if k == 0 then 1 else 10 * Pow10(k - 1)
  }

  lemma {:induction false} DecimalLength(n: nat, k: nat)
    requires 1 <= k && n < Pow10(k)
    ensures |Decimal(n)| <= k
  {
    if n >= 10 {
      assert k > 1;
      DecimalLength(n / 10, k - 1);
    }
  }

  lemma DigitsAreCrlfFree(s: string)
    requires AllDigits(s)
    ensures CrlfFree(s)
  {
    forall i | 0 <= i < |s|
      ensures !CrlfAt(s, i)
    {
      assert IsDigit(s[i]);
    }
  }

  lemma {:induction false} DecimalValueBounds(s: string, n: nat)
    requires AllDigits(s) && n <= |s|
    ensures AllDigits(s[..n]) && DecimalValue(s[..n]) <= DecimalValue(s)
    decreases |s|
  {
    if n < |s| {
      DecimalValueBounds(s[..|s| - 1], n);
      assert s[..|s| - 1][..n] == s[..n];
    } else {
      assert s[..n] == s;
    }
  }
}
