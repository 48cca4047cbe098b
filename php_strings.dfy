/**
 * The two pieces of PHP's string runtime the adapter relies on: the conversion of an
 * integer to a string (`(string)$id`, `$id . '.ics'`, `md5($int)`) and `strrpos` with an
 * offset.
 */
module PhpStrings {
  import opened Wrappers

  predicate IsDigit(c: char) {
    '0' <= c <= '9'
  }

  function DigitChar(d: nat): (c: char)
    requires d < 10
    ensures IsDigit(c) && c as int - '0' as int == d
  {
    (d + '0' as int) as char
  }

  function DigitValue(c: char): (d: nat)
    requires IsDigit(c)
    ensures d < 10 && DigitChar(d) == c
  {
    c as int - '0' as int
  }

  /** Decimal digits of `n`, most significant first, without leading zeros. */
  function NatToDecimal(n: nat): (s: string)
    ensures |s| >= 1
    ensures forall i :: 0 <= i < |s| ==> IsDigit(s[i])
    ensures |s| > 1 ==> s[0] != '0'
    decreases n
  {
    if n < 10 then [DigitChar(n)] else NatToDecimal(n / 10) + [DigitChar(n % 10)]
  }

  /** The value of a string of decimal digits (the reading direction that undoes NatToDecimal). */
  function DecimalValue(s: string): nat
    requires forall i :: 0 <= i < |s| ==> IsDigit(s[i])
  {
    if s == [] then 0 else DecimalValue(s[..|s| - 1]) * 10 + DigitValue(s[|s| - 1])
  }

  lemma {:induction false} DecimalRoundTrip(n: nat)
    ensures DecimalValue(NatToDecimal(n)) == n
    decreases n
  {
    if n >= 10 {
      var s := NatToDecimal(n);
      assert s[..|s| - 1] == NatToDecimal(n / 10);
      DecimalRoundTrip(n / 10);
    }
  }

  /** PHP's conversion of an int to a string: decimal, with a leading '-' when negative. */
  function IntToString(i: int): string {
    if i < 0 then "-" + NatToDecimal(-i) else NatToDecimal(i)
  }

  /** The string is non-empty and all digits, after a '-' exactly when the value is negative. */
  lemma IntToStringShape(i: int)
    ensures |IntToString(i)| >= 1
    ensures forall k :: 0 <= k < |IntToString(i)| ==> IsDigit(IntToString(i)[k]) || (k == 0 && IntToString(i)[k] == '-')
    ensures (IntToString(i)[0] == '-') <==> i < 0
  {
    if i < 0 {
      var d := NatToDecimal(-i);
      assert forall k :: 1 <= k < |IntToString(i)| ==> IntToString(i)[k] == d[k - 1];
    }
  }

  /** Distinct integers print as distinct strings. */
  lemma IntToStringInjective(a: int, b: int)
    requires IntToString(a) == IntToString(b)
    ensures a == b
  {
    IntToStringShape(a);
    IntToStringShape(b);
    if a < 0 && b < 0 {
      NegativeDigits(a);
      NegativeDigits(b);
      NatToDecimalInjective(-a, -b);
    } else if a >= 0 && b >= 0 {
      NatToDecimalInjective(a, b);
    }
  }

  lemma NatToDecimalInjective(m: nat, n: nat)
    requires NatToDecimal(m) == NatToDecimal(n)
    ensures m == n
  {
    DecimalRoundTrip(m);
    DecimalRoundTrip(n);
  }

  lemma NegativeDigits(i: int)
    requires i < 0
    ensures IntToString(i)[1..] == NatToDecimal(-i)
  {
  }

  /** `needle` occurs in `haystack` starting at position `p`. */
  predicate OccursAt(haystack: string, needle: string, p: int) {
    0 <= p && p + |needle| <= |haystack| && haystack[p..p + |needle|] == needle
  }

  /** The largest start position in `from..last` (inclusive) at which `needle` occurs, scanning down. */
  function LastOccurrence(haystack: string, needle: string, from: nat, last: int): (r: Option<nat>)
    requires last + |needle| <= |haystack|
    ensures r.Some? ==> from <= r.value <= last && OccursAt(haystack, needle, r.value)
    ensures r.Some? ==> forall p :: r.value < p <= last ==> !OccursAt(haystack, needle, p)
    ensures r.None? ==> forall p :: from <= p <= last ==> !OccursAt(haystack, needle, p)
    decreases last + 1 - from
  {
    if last < from then None
    else if haystack[last..last + |needle|] == needle then Some(last)
    else LastOccurrence(haystack, needle, from, last - 1)
  }

  /**
   * `strrpos($haystack, $needle, $offset)`: the last position of `needle`. A non-negative
   * offset skips that many leading characters; a negative one stops the search so that the
   * needle starts at most `-offset` characters before the end (when `-offset` is shorter
   * than the needle, the whole string is searched). PHP rejects an offset outside the string.
   */
  function StrRPos(haystack: string, needle: string, offset: int): (r: Option<nat>)
    requires needle != []
    requires -|haystack| <= offset <= |haystack|
    ensures r.Some? ==> OccursAt(haystack, needle, r.value)
  {
    var from := if offset >= 0 then offset else 0;
    var end := if offset >= 0 || -offset < |needle| then |haystack| else |haystack| + offset + |needle|;
    LastOccurrence(haystack, needle, from, end - |needle|)
  }

  /** With the offset `-strlen($haystack)`, `strrpos` finds the needle exactly when it is a prefix. */
  lemma StrRPosFromStartIsPrefixTest(haystack: string, needle: string)
    requires needle != []
    ensures StrRPos(haystack, needle, -|haystack|).Some? <==> needle <= haystack
  {
    var r := StrRPos(haystack, needle, -|haystack|);
    if needle <= haystack {
      assert |haystack| >= |needle|;
      assert OccursAt(haystack, needle, 0);
    }
  }
}
