/**
 * String operations of the JavaScript runtime that the core relies on:
 * `trim`, `startsWith`, `split`, `slice` and integer-to-decimal conversion.
 */
module Text {

  /**
   * The characters `String.prototype.trim` strips and the regular-expression
   * class `\s` matches: the WhiteSpace and LineTerminator code points of
   * ECMAScript (section 12.2 and 12.3 of ECMA-262).
   */
  predicate IsJsSpace(c: char) {
    || '\t' <= c <= '\r'
    || c == ' ' || c == '\U{00A0}' || c == '\U{1680}'
    || '\U{2000}' <= c <= '\U{200A}'
    || c == '\U{2028}' || c == '\U{2029}' || c == '\U{202F}' || c == '\U{205F}' || c == '\U{3000}' || c == '\U{FEFF}'
  }

  /** The line terminators, which the regular-expression `.` does not match. */
  predicate IsLineTerminator(c: char) {
    c == '\n' || c == '\r' || c == '\U{2028}' || c == '\U{2029}'
  }

  /** Every character of `s` is JavaScript whitespace. */
  predicate AllSpace(s: string) {
    forall k | 0 <= k < |s| :: IsJsSpace(s[k])
  }

  /** The end of the run of whitespace that starts at index `i` of `s`. */
  function SpacesFrom(s: string, i: nat): (r: nat)
    requires i <= |s|
    ensures i <= r <= |s|
    ensures forall k | i <= k < r :: IsJsSpace(s[k])
    ensures r == |s| || !IsJsSpace(s[r])
    decreases |s| - i
  {
    if i == |s| || !IsJsSpace(s[i]) then i else SpacesFrom(s, i + 1)
  }

  /** The start of the run of whitespace that ends just before index `j` of `s`. */
  function SpacesBefore(s: string, j: nat): (r: nat)
    requires j <= |s|
    ensures r <= j
    ensures forall k | r <= k < j :: IsJsSpace(s[k])
    ensures r == 0 || !IsJsSpace(s[r - 1])
  {
    if j == 0 || !IsJsSpace(s[j - 1]) then j else SpacesBefore(s, j - 1)
  }

  /** The number of whitespace characters `trim` removes from the front of `s`. */
  function LeadingSpaces(s: string): (n: nat)
    ensures n <= |s|
  {
    SpacesFrom(s, 0)
  }

  /**
   * `s.trim()`: the longest slice of `s` that neither starts nor ends with
   * whitespace, after removing only whitespace on either side.
   */
  function Trim(s: string): (r: string)
    ensures LeadingSpaces(s) + |r| <= |s|
    ensures r == s[LeadingSpaces(s)..LeadingSpaces(s) + |r|]
    ensures r == [] || (!IsJsSpace(r[0]) && !IsJsSpace(r[|r| - 1]))
    ensures forall k | 0 <= k < LeadingSpaces(s) :: IsJsSpace(s[k])
    ensures forall k | LeadingSpaces(s) + |r| <= k < |s| :: IsJsSpace(s[k])
  {
    var lo := SpacesFrom(s, 0);
    var hi := if lo == |s| then lo else SpacesBefore(s, |s|);
    assert lo <= hi;
    s[lo..hi]
  }

  /** The string is empty or all whitespace. */
  predicate IsBlank(s: string) {
    AllSpace(s)
  }

  /** `!s.trim()` holds exactly of the blank strings. */
  lemma TrimEmptyIffBlank(s: string)
    ensures Trim(s) == [] <==> IsBlank(s)
  {
    if IsBlank(s) {
      assert LeadingSpaces(s) == |s|;
    }
  }

  /** Trimming a trimmed string changes nothing. */
  lemma TrimIdempotent(s: string)
    ensures Trim(Trim(s)) == Trim(s)
  {
    var r := Trim(s);
    if r != [] {
      assert LeadingSpaces(r) == 0;
      assert SpacesBefore(r, |r|) == |r|;
      assert r[0..|r|] == r;
    }
  }

  /** `s.startsWith(p)`. */
  predicate StartsWith(s: string, p: string) {
    |p| <= |s| && s[..|p|] == p
  }

  /** `s.slice(0, n)`: at most the first `n` characters. */
  function Prefix(s: string, n: nat): (r: string)
    ensures |r| == if |s| < n then |s| else n
    ensures StartsWith(s, r)
  {
    if |s| <= n then s else s[..n]
  }

  /** `s.indexOf(c)` for one character, with `|s|` standing for "not found". */
  function IndexOfChar(s: string, c: char): (r: nat)
    ensures r <= |s|
    ensures r < |s| ==> s[r] == c
    ensures forall j | 0 <= j < r :: s[j] != c
  {
    if s == [] then 0
    else if s[0] == c then 0
    else 1 + IndexOfChar(s[1..], c)
  }

  /** The separator `sep` occurs in `s` at index `j`. */
  predicate OccursAt(s: string, sep: string, j: nat) {
    j + |sep| <= |s| && s[j..j + |sep|] == sep
  }

  /** The first index at or after `from` where `sep` occurs in `s`, or `|s|` when there is none. */
  function FindSepFrom(s: string, sep: string, from: nat): (r: nat)
    requires |sep| > 0
    ensures r <= |s|
    ensures r < |s| ==> from <= r && OccursAt(s, sep, r)
    ensures forall j: nat | from <= j < r :: !OccursAt(s, sep, j)
    decreases |s| - from
  {
    if from + |sep| > |s| then |s|
    else if OccursAt(s, sep, from) then from
    else FindSepFrom(s, sep, from + 1)
  }

  /** The index of the first occurrence of `sep` in `s` (`s.indexOf(sep)`), or `|s|` when there is none. */
  function FindSep(s: string, sep: string): (r: nat)
    requires |sep| > 0
    ensures r <= |s|
    ensures r < |s| ==> OccursAt(s, sep, r)
    ensures forall j: nat | j < r :: !OccursAt(s, sep, j)
  {
    FindSepFrom(s, sep, 0)
  }

  /** An occurrence that fits inside a prefix is an occurrence in the whole string, and back. */
  lemma OccursInPrefix(s: string, n: nat, sep: string, j: nat)
    requires j + |sep| <= n <= |s|
    ensures OccursAt(s[..n], sep, j) == OccursAt(s, sep, j)
  {
    assert s[..n][j..j + |sep|] == s[j..j + |sep|];
  }

  /** `s.split(sep)` for a non-empty separator: the pieces between successive occurrences. */
  function Split(s: string, sep: string): (parts: seq<string>)
    requires |sep| > 0
    ensures |parts| > 0
    decreases |s|
  {
    var i := FindSep(s, sep);
    if i == |s| then [s] else [s[..i]] + Split(s[i + |sep|..], sep)
  }

  /** `parts.join(sep)`. */
  function Join(parts: seq<string>, sep: string): string
    requires |parts| > 0
  {
    if |parts| == 1 then parts[0] else parts[0] + sep + Join(parts[1..], sep)
  }

  /** Splitting and re-joining with the same separator gives back the original string. */
  lemma {:induction false} SplitJoin(s: string, sep: string)
    requires |sep| > 0
    ensures Join(Split(s, sep), sep) == s
    decreases |s|
  {
    var i := FindSep(s, sep);
    if i < |s| {
      var head := s[..i];
      var rest := s[i + |sep|..];
      var tail := Split(rest, sep);
      var parts := Split(s, sep);
      assert parts == [head] + tail;
      assert parts[0] == head && parts[1..] == tail;
      SplitJoin(rest, sep);
      assert Join(parts, sep) == head + sep + rest;
      assert s[i..i + |sep|] == sep;
      assert s == head + s[i..i + |sep|] + rest;
    }
  }

  /** No piece produced by `split` contains the separator. */
  lemma {:induction false} SplitPiecesFree(s: string, sep: string)
    requires |sep| > 0
    ensures forall p | p in Split(s, sep) :: FindSep(p, sep) == |p|
    decreases |s|
  {
    var i := FindSep(s, sep);
    if i < |s| {
      var head := s[..i];
      var tail := Split(s[i + |sep|..], sep);
      SplitPiecesFree(s[i + |sep|..], sep);
      assert Split(s, sep) == [head] + tail;
      var f := FindSep(head, sep);
      if f < |head| {
        OccursInPrefix(s, i, sep, f);
      }
      forall p | p in Split(s, sep)
        ensures FindSep(p, sep) == |p|
      {
        if p != head {
          assert p in tail;
        }
      }
    }
  }

  /** A prefix of `s` that ends before the first occurrence of `c` does not contain `c`. */
  lemma NoCharBeforeFirst(s: string, c: char)
    ensures c !in s[..FindSep(s, [c])]
  {
    var k := FindSep(s, [c]);
    forall j | 0 <= j < k
      ensures s[j] != c
    {
      assert !OccursAt(s, [c], j);
      assert s[j..j + 1] == [s[j]];
    }
  }

  /** The first piece of a split ends at the first occurrence of the character, or at the end. */
  lemma FirstPieceEndsAtChar(s: string, c: char)
    ensures var k := FindSep(s, [c]);
      && Split(s, [c])[0] == s[..k]
      && c !in s[..k]
      && (k < |s| ==> s[k] == c)
  {
    var k := FindSep(s, [c]);
    NoCharBeforeFirst(s, c);
    if k < |s| {
      assert OccursAt(s, [c], k);
      assert s[k..k + 1][0] == s[k];
    }
  }

  /** The decimal digit for `d`. */
  function Digit(d: nat): char
    requires d < 10
  {
    "0123456789"[d]
  }

  /** The value of a decimal digit character. */
  function DigitValue(c: char): nat
  {
    if '0' <= c <= '9' then (c as int - '0' as int) as nat else 0
  }

  predicate IsDigit(c: char) {
    '0' <= c <= '9'
  }

  /** `String(n)` for a non-negative integer: its shortest decimal numeral. */
  function NatToDecimal(n: nat): (r: string)
    ensures |r| > 0
    ensures forall k | 0 <= k < |r| :: IsDigit(r[k])
    ensures r[0] == '0' ==> n == 0
  {
    if n < 10 then [Digit(n)] else NatToDecimal(n / 10) + [Digit(n % 10)]
  }

  /** The value of a string of decimal digits. */
  function DecimalValue(s: string): nat
  {
    if s == [] then 0 else 10 * DecimalValue(s[..|s| - 1]) + DigitValue(s[|s| - 1])
  }

  /** Reading back the numeral of `n` gives `n`. */
  lemma {:induction false} DecimalRoundTrip(n: nat)
    ensures DecimalValue(NatToDecimal(n)) == n
  {
    if n >= 10 {
      DecimalRoundTrip(n / 10);
      var r := NatToDecimal(n);
      assert r[..|r| - 1] == NatToDecimal(n / 10);
    }
  }

  /** `String(i)` for an integer (a JavaScript number with no fractional part). */
  function IntToDecimal(i: int): (r: string)
    ensures |r| > 0
    ensures i >= 0 ==> r == NatToDecimal(i)
    ensures i < 0 ==> r == "-" + NatToDecimal(-i)
    ensures i >= 0 ==> DecimalValue(r) == i
    ensures i < 0 ==> r[0] == '-' && DecimalValue(r[1..]) == -i
  {
    if i >= 0 then
      DecimalRoundTrip(i);
      NatToDecimal(i)
    else
      var digits := NatToDecimal(-i);
      DecimalRoundTrip(-i);
      assert ("-" + digits)[1..] == digits;
      "-" + digits
  }
}
