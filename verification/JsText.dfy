/** The JavaScript string built-ins the agent relies on: `String.prototype.trim`
    (the input gate), `String.prototype.includes` (the evaluation strategy and the
    search helpers) and `String(n)` for integral numbers (the display value). */
module JsText {

  /** ECMAScript WhiteSpace and LineTerminator code points, the set `trim` removes. */
  predicate IsJsWhitespace(c: char) {
    || c == '\t' || c == '\n' || c == '\U{000B}' || c == '\U{000C}' || c == '\r'
    || c == ' ' || c == '\U{00A0}' || c == '\U{1680}'
    || ('\U{2000}' <= c <= '\U{200A}')
    || c == '\U{2028}' || c == '\U{2029}' || c == '\U{202F}' || c == '\U{205F}'
    || c == '\U{3000}' || c == '\U{FEFF}'
  }

  predicate AllWhitespace(s: string) {
    forall i :: 0 <= i < |s| ==> IsJsWhitespace(s[i])
  }

  /** The number of whitespace characters `s` starts with. */
  function LeadingWhitespace(s: string): (n: nat)
    ensures n <= |s|
    ensures forall i :: 0 <= i < n ==> IsJsWhitespace(s[i])
    ensures n < |s| ==> !IsJsWhitespace(s[n])
    decreases |s|
  {
    if s != [] && IsJsWhitespace(s[0]) then 1 + LeadingWhitespace(s[1..]) else 0
  }

  /** The number of whitespace characters `s` ends with. */
  function TrailingWhitespace(s: string): (n: nat)
    ensures n <= |s|
    ensures forall i :: |s| - n <= i < |s| ==> IsJsWhitespace(s[i])
    ensures n < |s| ==> !IsJsWhitespace(s[|s| - n - 1])
    decreases |s|
  {
    if s != [] && IsJsWhitespace(s[|s| - 1]) then 1 + TrailingWhitespace(s[..|s| - 1]) else 0
  }

  /** `String.prototype.trim`: the leading whitespace is dropped, then the
      trailing whitespace. */
  function Trim(s: string): (r: string)
    ensures |r| <= |s|
    ensures r != [] ==> !IsJsWhitespace(r[0]) && !IsJsWhitespace(r[|r| - 1])
  {
    var t := s[LeadingWhitespace(s)..];
    var n := TrailingWhitespace(t);
    assert n < |t| ==> t[0] == s[LeadingWhitespace(s)];
    t[..|t| - n]
  }

  /** The trimmed text is the slice of `s` between its leading and trailing
      whitespace. */
  lemma TrimIsWhitespaceBoundedSlice(s: string)
    ensures var r := Trim(s);
            exists i :: 0 <= i <= |s| - |r| && s[i..i + |r|] == r
                        && AllWhitespace(s[..i]) && AllWhitespace(s[i + |r|..])
  {
    var i := LeadingWhitespace(s);
    var r := Trim(s);
    TrimSlice(s);
    LeadingPrefixIsWhitespace(s);
    TrailingSuffixIsWhitespace(s);
    assert 0 <= i <= |s| - |r| && s[i..i + |r|] == r
           && AllWhitespace(s[..i]) && AllWhitespace(s[i + |r|..]);
  }

  lemma TrimSlice(s: string)
    ensures var i := LeadingWhitespace(s);
            i + |Trim(s)| <= |s| && Trim(s) == s[i..i + |Trim(s)|]
  {
    var i := LeadingWhitespace(s);
    var t := s[i..];
    var r := Trim(s);
    assert r == t[..|t| - TrailingWhitespace(t)];
    forall k | 0 <= k < |r| ensures r[k] == s[i..i + |r|][k] {
      assert r[k] == t[k];
    }
  }

  lemma LeadingPrefixIsWhitespace(s: string)
    ensures AllWhitespace(s[..LeadingWhitespace(s)])
  {
    var i := LeadingWhitespace(s);
    forall k | 0 <= k < i ensures IsJsWhitespace(s[..i][k]) {
      assert s[..i][k] == s[k];
    }
  }

  lemma TrailingSuffixIsWhitespace(s: string)
    ensures var i := LeadingWhitespace(s);
            i + |Trim(s)| <= |s| && AllWhitespace(s[i + |Trim(s)|..])
  {
    var i := LeadingWhitespace(s);
    var t := s[i..];
    var n := TrailingWhitespace(t);
    var j := i + |Trim(s)|;
    assert |Trim(s)| == |t| - n;
    forall k | 0 <= k < |s| - j ensures IsJsWhitespace(s[j..][k]) {
      assert s[j..][k] == t[|t| - n + k];
    }
  }

  /** Trimming leaves nothing exactly when the input is blank: whitespace only,
      or empty. */
  lemma TrimEmptyIffBlank(s: string)
    ensures Trim(s) == [] <==> AllWhitespace(s)
  {
    var i := LeadingWhitespace(s);
    if Trim(s) == [] {
      // Whatever follows the leading whitespace starts with a non-whitespace
      // character, which trimming the end would keep.
      assert i == |s|;
    } else {
      assert i < |s| && !IsJsWhitespace(s[i]);
    }
  }

  /** `sub` occurs in `s` starting at index `i`. */
  ghost predicate OccursAt(s: string, sub: string, i: int) {
    0 <= i <= |s| - |sub| && s[i..i + |sub|] == sub
  }

  /** `String.prototype.includes`, by a left-to-right scan: true exactly when
      `sub` occurs somewhere in `s`. */
  function Includes(s: string, sub: string): (r: bool)
    ensures r <==> exists i :: OccursAt(s, sub, i)
    decreases |s|
  {
    if |s| < |sub| then false
    else if s[..|sub|] == sub then
      assert OccursAt(s, sub, 0);
      true
    else
      var r := Includes(s[1..], sub);
      assert r ==> exists i :: OccursAt(s, sub, i) by {
        if r {
          var j :| OccursAt(s[1..], sub, j);
          assert s[1..][j..j + |sub|] == s[j + 1..j + 1 + |sub|];
          assert OccursAt(s, sub, j + 1);
        }
      }
      assert (exists i :: OccursAt(s, sub, i)) ==> r by {
        if exists i :: OccursAt(s, sub, i) {
          var i :| OccursAt(s, sub, i);
          assert i != 0;
          assert s[1..][i - 1..i - 1 + |sub|] == s[i..i + |sub|];
          assert OccursAt(s[1..], sub, i - 1);
        }
      }
      r
  }

  /** Any text placed between two others is included in the concatenation. */
  lemma IncludesMiddle(a: string, sub: string, b: string)
    ensures Includes(a + sub + b, sub)
  {
    assert (a + sub + b)[|a|..|a| + |sub|] == sub;
    assert OccursAt(a + sub + b, sub, |a|);
  }

  predicate IsDigit(c: char) {
    '0' <= c <= '9'
  }

  predicate AllDigits(s: string) {
    forall i :: 0 <= i < |s| ==> IsDigit(s[i])
  }

  /** The number a string of decimal digits denotes, most significant first. */
  function DecimalValue(s: string): nat
    requires AllDigits(s)
  {
    if s == [] then 0
    else DecimalValue(s[..|s| - 1]) * 10 + (s[|s| - 1] - '0') as int
  }

  /** The decimal rendering of a natural number: digits only, no leading zero,
      and reading it back gives the number. */
  function NatToDecimal(n: nat): (r: string)
    ensures |r| >= 1 && (|r| > 1 ==> r[0] != '0')
    ensures AllDigits(r) && DecimalValue(r) == n
  {
    var last := ['0' + (n % 10) as char];
    if n < 10 then last
    else
      var r := NatToDecimal(n / 10) + last;
      assert r[..|r| - 1] == NatToDecimal(n / 10);
      r
  }

  /** Integers of magnitude at most 2^53. A JavaScript number holds each of them
      exactly, and `String(n)` prints its exact decimal digits; beyond 2^53
      `String(n)` prints the shortest digits that round-trip, padded with zeros. */
  type JsInteger = n: int | -9_007_199_254_740_992 <= n <= 9_007_199_254_740_992

  /** `String(n)` for an integral JavaScript number in that range: a minus sign
      exactly for negative numbers, followed by the decimal digits of |n|. */
  function IntToString(n: JsInteger): (r: string)
    ensures |r| >= 1 && (r[0] == '-' <==> n < 0)
    ensures n < 0 ==> |r| >= 2 && r[1] != '0' && AllDigits(r[1..]) && DecimalValue(r[1..]) == -n
    ensures n >= 0 ==> AllDigits(r) && DecimalValue(r) == n && (|r| > 1 ==> r[0] != '0')
  {
    if n < 0 then
      var d := NatToDecimal(-n);
      assert ("-" + d)[1..] == d;
      "-" + d
    else NatToDecimal(n)
  }
}
