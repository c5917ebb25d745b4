/**
 * Text formatting the orchestrator relies on: Python's `str()` of an
 * integer (used by every f-string that embeds an index or a port) and
 * `','.join(...)` (used to pass extension folders to the browser).
 * Each formatter has its reading-back partner, so that what is written
 * can be shown to determine what was formatted.
 */
module Strings {

  predicate IsDigit(c: char) {
    '0' <= c <= '9'
  }

  predicate AllDigits(s: string) {
    forall k :: 0 <= k < |s| ==> IsDigit(s[k])
  }

  /** The characters `str()` of an int can produce: digits and a minus sign. */
  predicate IsNumeral(s: string) {
    forall k :: 0 <= k < |s| ==> IsDigit(s[k]) || s[k] == '-'
  }

  function DigitChar(d: nat): (c: char)
    requires d < 10
    ensures IsDigit(c)
    ensures c as int - '0' as int == d
  {
    ('0' as int + d) as char
  }

  /** Python's `str(n)` for n >= 0: decimal digits, most significant first, no leading zero. */
  function NatToString(n: nat): (s: string)
    ensures |s| >= 1 && AllDigits(s)
    ensures |s| > 1 ==> s[0] != '0'
    decreases n
  {
    if n < 10 then [DigitChar(n)] else NatToString(n / 10) + [DigitChar(n % 10)]
  }

  /** Reads a run of decimal digits back as a number. */
  function ParseNat(s: string): nat
    requires AllDigits(s)
    decreases |s|
  {
    if s == [] then 0
    else ParseNat(s[..|s| - 1]) * 10 + (s[|s| - 1] as int - '0' as int)
  }

  /** Reading back what `str(n)` wrote gives n again. */
  lemma {:induction false} ParseNatToString(n: nat)
    ensures ParseNat(NatToString(n)) == n
    decreases n
  {
    var s := NatToString(n);
    if n >= 10 {
      ParseNatToString(n / 10);
      assert s[..|s| - 1] == NatToString(n / 10);
    }
  }

  /** Python's `str(n)` for any int: a minus sign before the digits of |n| when n < 0. */
  function IntToString(n: int): (s: string)
    ensures |s| >= 1 && IsNumeral(s)
    ensures s[0] == '-' <==> n < 0
  {
    if n < 0 then "-" + NatToString(-n) else NatToString(n)
  }

  predicate IsIntLiteral(s: string) {
    |s| >= 1 && (if s[0] == '-' then AllDigits(s[1..]) else AllDigits(s))
  }

  /** Reads the output of `str()` of an int back as that int. */
  function ParseInt(s: string): int
    requires IsIntLiteral(s)
  {
    if s[0] == '-' then -(ParseNat(s[1..]) as int) else ParseNat(s)
  }

  /** `int(str(n)) == n`: formatting an integer loses nothing. */
  lemma ParseIntToString(n: int)
    ensures IsIntLiteral(IntToString(n))
    ensures ParseInt(IntToString(n)) == n
  {
    if n < 0 {
      ParseNatToString(-n);
      assert IntToString(n)[1..] == NatToString(-n);
    } else {
      ParseNatToString(n);
    }
  }

  /** Distinct integers are written differently. */
  lemma IntToStringInjective(a: int, b: int)
    requires IntToString(a) == IntToString(b)
    ensures a == b
  {
    ParseIntToString(a);
    ParseIntToString(b);
  }

  /** Python's `','.join(parts)`. */
  function JoinComma(parts: seq<string>): (s: string)
    ensures |parts| >= 1 ==> parts[0] <= s
    ensures (forall k :: 0 <= k < |parts| ==> ',' !in parts[k]) ==> (',' in s <==> |parts| >= 2)
    decreases |parts|
  {
    if parts == [] then ""
    else if |parts| == 1 then parts[0]
    else
      var s := parts[0] + "," + JoinComma(parts[1..]);
      assert s[|parts[0]|] == ',';
      s
  }

  /** Python's `s.split(',')` (how a comma-separated flag value is read back): never empty. */
  function SplitComma(s: string): (parts: seq<string>)
    ensures |parts| >= 1
    decreases |s|
  {
    if s == [] then [""]
    else
      var rest := SplitComma(s[1..]);
      if s[0] == ',' then [""] + rest else [[s[0]] + rest[0]] + rest[1..]
  }

  /** A piece without a comma comes back as the first field, followed by what came after the comma. */
  lemma {:induction false} SplitCommaPiece(a: string, tail: string)
    requires ',' !in a
    ensures SplitComma(a + tail) == if tail == [] then [a] else
              if tail[0] == ',' then [a] + SplitComma(tail[1..])
              else [a + SplitComma(tail)[0]] + SplitComma(tail)[1..]
    decreases |a|
  {
    if a != [] {
      SplitCommaPiece(a[1..], tail);
      assert (a + tail)[1..] == a[1..] + tail;
      assert (a + tail)[0] == a[0];
      assert [a[0]] + a[1..] == a;
      if tail != [] && tail[0] != ',' {
        assert [a[0]] + (a[1..] + SplitComma(tail)[0]) == a + SplitComma(tail)[0];
      }
    } else {
      assert a + tail == tail;
      if tail != [] && tail[0] == ',' {
        assert SplitComma(tail) == [""] + SplitComma(tail[1..]);
      } else if tail != [] {
        var parts := SplitComma(tail);
        assert a + parts[0] == parts[0];
        assert [parts[0]] + parts[1..] == parts;
      }
    }
  }

  /**
   * Splitting the joined list on commas gives the list back, as long as no
   * part contains a comma itself: a reader that splits the flag value the
   * way Python's `str.split(',')` does recovers exactly the folders given.
   */
  lemma {:induction false} SplitJoinComma(parts: seq<string>)
    requires |parts| >= 1
    requires forall k :: 0 <= k < |parts| ==> ',' !in parts[k]
    ensures SplitComma(JoinComma(parts)) == parts
    decreases |parts|
  {
    if |parts| == 1 {
      SplitCommaPiece(parts[0], []);
      assert parts[0] + [] == parts[0];
    } else {
      var later := parts[1..];
      assert forall k :: 0 <= k < |later| ==> later[k] == parts[k + 1];
      var rest := JoinComma(later);
      SplitJoinComma(later);
      var tail := "," + rest;
      SplitCommaPiece(parts[0], tail);
      assert tail[0] == ',' && tail[1..] == rest;
      assert JoinComma(parts) == parts[0] + tail;
      assert [parts[0]] + later == parts;
    }
  }

  /** Python's `needle in hay` on two strings (a substring test). */
  predicate IsSubstring(needle: string, hay: string)
    decreases |hay|
  {
    needle <= hay || (hay != [] && IsSubstring(needle, hay[1..]))
  }
}
