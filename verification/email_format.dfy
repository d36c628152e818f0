/**
 * The two e-mail shape tests of the front end, written as character
 * predicates instead of regular expressions.
 *
 * `IsValidEmail` is the `/^[^\s@]+@[^\s@]+\.[^\s@]+$/` test of lib/api/emails.ts,
 * a loose approximation of the addr-spec of section 3.4.1 of RFC 5322.
 *
 * `SignupPatternMatches` is the test of the sign-up page, whose source text is
 * `/^[^\\s@]+@[^\\s@]+\\.[^\\s@]+$/`: inside a regular-expression literal the
 * doubled backslash is a literal backslash, so its character class excludes
 * backslash, the letter 's' and '@', and `\\.` demands a backslash followed by
 * any character other than a line terminator.
 */
module EmailFormat {
  import opened Text

  /** `[^\s@]`: neither whitespace nor '@'. */
  predicate IsAddrChar(c: char) {
    !IsJsSpace(c) && c != '@'
  }

  /** `[^\s@]*` over the whole string. */
  predicate AllAddrChars(s: string) {
    forall k | 0 <= k < |s| :: IsAddrChar(s[k])
  }

  /** `[^\s@]+` over the whole string. */
  predicate AddrRun(s: string) {
    |s| > 0 && AllAddrChars(s)
  }

  /** The domain has a '.' with at least one character on either side. */
  predicate HasInnerDot(domain: string) {
    exists k | 0 < k < |domain| - 1 :: domain[k] == '.'
  }

  /**
   * `isValidEmail(email)`: exactly one '@', no whitespace, a non-empty local
   * part, and a '.' inside the domain with text on both sides.
   */
  predicate IsValidEmail(email: string) {
    var i := IndexOfChar(email, '@');
    && 0 < i < |email|
    && AllAddrChars(email[..i])
    && AllAddrChars(email[i + 1..])
    && HasInnerDot(email[i + 1..])
  }

  /** Every string of the regular expression's shape `local@host.tld` passes `IsValidEmail`. */
  lemma ValidEmailFromParts(local: string, host: string, tld: string)
    requires AddrRun(local) && AddrRun(host) && AddrRun(tld)
    ensures IsValidEmail(local + "@" + host + "." + tld)
  {
    var s := local + "@" + host + "." + tld;
    var domain := host + "." + tld;
    assert s[|local|] == '@';
    var i := IndexOfChar(s, '@');
    assert i == |local|;
    assert s[..i] == local;
    assert s[i + 1..] == domain;
    assert domain[|host|] == '.';
  }

  /** A string that passes `IsValidEmail` splits as `local@host.tld` with three `[^\s@]+` runs. */
  function EmailParts(email: string): (parts: (string, string, string))
    requires IsValidEmail(email)
    ensures email == parts.0 + "@" + parts.1 + "." + parts.2
    ensures AddrRun(parts.0) && AddrRun(parts.1) && AddrRun(parts.2)
  {
    var i := IndexOfChar(email, '@');
    var domain := email[i + 1..];
    var k := 1 + IndexOfChar(domain[1..], '.');
    assert k < |domain| - 1 by {
      var w :| 0 < w < |domain| - 1 && domain[w] == '.';
      assert domain[1..][w - 1] == '.';
    }
    assert email == email[..i] + "@" + domain[..k] + "." + domain[k + 1..];
    (email[..i], domain[..k], domain[k + 1..])
  }

  /** `[^\\s@]`: not a backslash, not the letter 's', not '@'. */
  predicate IsSignupClassChar(c: char) {
    c != '\\' && c != 's' && c != '@'
  }

  /** `[^\\s@]*` over the whole string. */
  predicate AllSignupChars(s: string) {
    forall k | 0 <= k < |s| :: IsSignupClassChar(s[k])
  }

  /** `[^\\s@]+` over the whole string. */
  predicate SignupRun(s: string) {
    |s| > 0 && AllSignupChars(s)
  }

  /**
   * The sign-up page's pattern as written: `a@b\cd` where `a`, `b`, `d` are
   * runs of the class above, `\` is a literal backslash and `c` is any
   * character but a line terminator.
   */
  predicate SignupPatternMatches(s: string) {
    var i := IndexOfChar(s, '@');
    && 0 < i < |s|
    && AllSignupChars(s[..i])
    && var rest := s[i + 1..];
       var j := IndexOfChar(rest, '\\');
       && 0 < j
       && j + 2 < |rest|
       && AllSignupChars(rest[..j])
       && !IsLineTerminator(rest[j + 1])
       && AllSignupChars(rest[j + 2..])
  }

  /** Every string of the literal pattern's shape matches. */
  lemma SignupMatchFromParts(local: string, host: string, c: char, tail: string)
    requires SignupRun(local) && SignupRun(host) && SignupRun(tail) && !IsLineTerminator(c)
    ensures SignupPatternMatches(local + "@" + host + "\\" + [c] + tail)
  {
    var s := local + "@" + host + "\\" + [c] + tail;
    assert s[|local|] == '@';
    var i := IndexOfChar(s, '@');
    assert i == |local|;
    assert s[..i] == local;
    var rest := s[i + 1..];
    assert rest == host + "\\" + [c] + tail;
    assert rest[|host|] == '\\';
    var j := IndexOfChar(rest, '\\');
    assert j == |host|;
    assert rest[..j] == host;
    assert rest[j + 2..] == tail;
  }

  /** A string the pattern matches splits as `local@host\c tail`. */
  function SignupParts(s: string): (parts: (string, string, char, string))
    requires SignupPatternMatches(s)
    ensures s == parts.0 + "@" + parts.1 + "\\" + [parts.2] + parts.3
    ensures SignupRun(parts.0) && SignupRun(parts.1) && SignupRun(parts.3)
    ensures !IsLineTerminator(parts.2)
  {
    var i := IndexOfChar(s, '@');
    var rest := s[i + 1..];
    var j := IndexOfChar(rest, '\\');
    assert rest == rest[..j] + "\\" + [rest[j + 1]] + rest[j + 2..];
    (s[..i], rest[..j], rest[j + 1], rest[j + 2..])
  }

  /** Without a backslash no string matches the sign-up pattern. */
  lemma SignupNeedsBackslash(s: string)
    requires '\\' !in s
    ensures !SignupPatternMatches(s)
  {
    var i := IndexOfChar(s, '@');
    if 0 < i < |s| {
      var rest := s[i + 1..];
      var j := IndexOfChar(rest, '\\');
    }
  }

  /** An ordinary address passes `isValidEmail`. */
  lemma OrdinaryAddressPassesValidEmail()
    ensures IsValidEmail("user@example.com")
  {
    ValidEmailFromParts("user", "example", "com");
    assert "user" + "@" + "example" + "." + "com" == "user@example.com";
  }

  /** The same ordinary address fails the sign-up page's pattern. */
  lemma OrdinaryAddressFailsSignupPattern()
    ensures !SignupPatternMatches("user@example.com")
  {
    var s := "user@example.com";
    assert '\\' !in s;
    SignupNeedsBackslash(s);
  }
}
