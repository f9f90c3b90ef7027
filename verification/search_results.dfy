/**
  The result-count message of the simulated search.

  On submit the page trims the query, draws a pretend result count (an
  integer below 40, zero for a blank query) and shows `<count> result`,
  with a plural `s` unless the count is exactly 1. The random draw is a
  parameter here.
 */
module SearchResults {

  /** The code points JavaScript's `String.prototype.trim` removes: the
      WhiteSpace and LineTerminator code points of ECMA-262. */
  predicate IsWhitespace(c: char)
  {
    || c == '\U{0009}' || c == '\U{000A}' || c == '\U{000B}' || c == '\U{000C}'
    || c == '\U{000D}' || c == '\U{0020}' || c == '\U{00A0}' || c == '\U{1680}'
    || ('\U{2000}' <= c <= '\U{200A}')
    || c == '\U{2028}' || c == '\U{2029}' || c == '\U{202F}' || c == '\U{205F}'
    || c == '\U{3000}' || c == '\U{FEFF}'
  }

  predicate AllWhitespace(s: string)
  {
    forall i :: 0 <= i < |s| ==> IsWhitespace(s[i])
  }

  /** Length of the run of whitespace `s` starts with. */
  function LeadingSpace(s: string): (k: nat)
    ensures k <= |s|
    ensures forall i :: 0 <= i < k ==> IsWhitespace(s[i])
    ensures k < |s| ==> !IsWhitespace(s[k])
  {
    if s != [] && IsWhitespace(s[0]) then 1 + LeadingSpace(s[1..]) else 0
  }

  /** Length of the run of whitespace `s` ends with. */
  function TrailingSpace(s: string): (k: nat)
    ensures k <= |s|
    ensures forall i :: |s| - k <= i < |s| ==> IsWhitespace(s[i])
    ensures k < |s| ==> !IsWhitespace(s[|s| - 1 - k])
  {
    if s != [] && IsWhitespace(s[|s| - 1]) then 1 + TrailingSpace(s[..|s| - 1]) else 0
  }

  /** `query.trim()`: the query without its leading and trailing whitespace.
      It is the slice of `s` that follows the leading whitespace, and what
      follows it in `s` is all whitespace. It is empty exactly when the query
      is all whitespace; otherwise it neither starts nor ends with
      whitespace. */
  function Trim(s: string): (r: string)
    ensures LeadingSpace(s) + |r| <= |s|
    ensures r == s[LeadingSpace(s)..LeadingSpace(s) + |r|]
    ensures AllWhitespace(s[LeadingSpace(s) + |r|..])
    ensures r == [] <==> AllWhitespace(s)
    ensures r != [] ==> !IsWhitespace(r[0]) && !IsWhitespace(r[|r| - 1])
  {
    var t := s[LeadingSpace(s)..];
    var r := t[..|t| - TrailingSpace(t)];
    if r == [] then
      assert LeadingSpace(s) == |s|;
      r
    else
      assert s[LeadingSpace(s)] == r[0];
      r
  }

  /** The pretend result count: 0 for a blank query, the draw otherwise.
      `draw` stands for `Math.floor(Math.random() * 40)`. */
  function ResultCount(query: string, draw: nat): (r: nat)
    requires draw < 40
    ensures r < 40
    ensures AllWhitespace(query) ==> r == 0
    ensures !AllWhitespace(query) ==> r == draw
  {
    if Trim(query) == [] then 0 else draw
  }

  // ---------------------------------------------------------------------
  // Decimal rendering of the count
  // ---------------------------------------------------------------------

  predicate IsDigit(c: char) { '0' <= c <= '9' }

  function DigitChar(d: nat): (c: char)
    requires d < 10
    ensures IsDigit(c)
  {
    ['0', '1', '2', '3', '4', '5', '6', '7', '8', '9'][d]
  }

  function DigitValue(c: char): (d: nat)
    requires IsDigit(c)
    ensures d < 10
  {
    (c as int - '0' as int) as nat
  }

  /** How a template literal renders a non-negative integer below 10^21
      (the counts here are below 40): its decimal digits, without leading
      zeros. */
  function Decimal(n: nat): (r: string)
    ensures 0 < |r|
    ensures forall i :: 0 <= i < |r| ==> IsDigit(r[i])
    ensures r[0] == '0' ==> n == 0 && r == "0"
  {
    if n < 10 then [DigitChar(n)] else Decimal(n / 10) + [DigitChar(n % 10)]
  }

  /** The number a string of digits spells. */
  function DecimalValue(s: string): nat
    requires forall i :: 0 <= i < |s| ==> IsDigit(s[i])
  {
    if s == [] then 0 else DecimalValue(s[..|s| - 1]) * 10 + DigitValue(s[|s| - 1])
  }

  lemma DigitRoundTrip(d: nat)
    requires d < 10
    ensures DigitValue(DigitChar(d)) == d
  {
  }

  /** Reading the rendered digits gives the number back. */
  lemma {:induction false} DecimalRoundTrip(n: nat)
    ensures DecimalValue(Decimal(n)) == n
  {
    var r := Decimal(n);
    DigitRoundTrip(n % 10);
    if n >= 10 {
      DecimalRoundTrip(n / 10);
      assert r[..|r| - 1] == Decimal(n / 10);
    }
  }

  /** Length of the run of digits `s` starts with. */
  function DigitRun(s: string): (k: nat)
    ensures k <= |s|
    ensures forall i :: 0 <= i < k ==> IsDigit(s[i])
    ensures k < |s| ==> !IsDigit(s[k])
  {
    if s != [] && IsDigit(s[0]) then 1 + DigitRun(s[1..]) else 0
  }

  /** The number a message starts with. */
  function LeadingNumber(s: string): nat
  {
    DecimalValue(s[..DigitRun(s)])
  }

  lemma {:induction false} DigitRunOfConcat(d: string, rest: string)
    requires forall i :: 0 <= i < |d| ==> IsDigit(d[i])
    requires rest != [] && !IsDigit(rest[0])
    ensures DigitRun(d + rest) == |d|
  {
    if d != [] {
      assert (d + rest)[1..] == d[1..] + rest;
      DigitRunOfConcat(d[1..], rest);
    }
  }

  // ---------------------------------------------------------------------
  // The message
  // ---------------------------------------------------------------------

  /** `${results} result${results === 1 ? '' : 's'}` */
  function ResultMessage(count: nat): (r: string)
    ensures Decimal(count) + " result" <= r
    ensures r[|r| - 1] == 's' <==> count != 1
  {
    Decimal(count) + " result" + (if count == 1 then "" else "s")
  }

  /** The count can be read back from the message: the message starts with
      the count's digits, followed by a space. */
  lemma MessageRoundTrip(count: nat)
    ensures LeadingNumber(ResultMessage(count)) == count
  {
    var d := Decimal(count);
    var rest := " result" + (if count == 1 then "" else "s");
    assert ResultMessage(count) == d + rest;
    DigitRunOfConcat(d, rest);
    assert (d + rest)[..|d|] == d;
    DecimalRoundTrip(count);
  }

  /** Different counts give different messages. */
  lemma MessageInjective(a: nat, b: nat)
    requires ResultMessage(a) == ResultMessage(b)
    ensures a == b
  {
    MessageRoundTrip(a);
    MessageRoundTrip(b);
  }

  /** The text the submit handler finally shows. */
  function SearchMessage(query: string, draw: nat): (r: string)
    requires draw < 40
    ensures LeadingNumber(r) == ResultCount(query, draw)
    ensures 0 < |r| && (r[|r| - 1] == 's' <==> ResultCount(query, draw) != 1)
  {
    MessageRoundTrip(ResultCount(query, draw));
    ResultMessage(ResultCount(query, draw))
  }

  /** A blank query always reports "0 results", whatever the draw. */
  lemma BlankQueryMessage(query: string, draw: nat)
    requires draw < 40 && AllWhitespace(query)
    ensures SearchMessage(query, draw) == "0 results"
  {
    assert ResultCount(query, draw) == 0;
    assert Decimal(0) == "0";
    assert ResultMessage(0) == "0" + " result" + "s";
  }

  /** A non-blank query reports the drawn count, singular only for 1. */
  lemma NonBlankQueryMessage(query: string, draw: nat)
    requires draw < 40 && !AllWhitespace(query)
    ensures LeadingNumber(SearchMessage(query, draw)) == draw
    ensures draw == 1 ==> SearchMessage(query, draw) == "1 result"
    ensures draw != 1 ==> SearchMessage(query, draw) == Decimal(draw) + " results"
  {
  }
}
