/**
  The two email checks of the form pages.

  Login tests the regular expression `^[^\s@]+@[^\s@]+\.[^\s@]+$`.
  `MatchesLoginPattern` states what a match is, directly from the shape of
  the expression: three non-empty runs of characters that are neither
  whitespace nor `@`, separated by a literal `@` and a literal `.`.
  `IsLoginEmail` is the check the Login page runs, written by splitting the
  address at its only `@`; `LoginEmailMatchesPattern` proves the two agree.

  SignUp only tests `email.includes("@")`.
 */
module EmailFormat {

  /** JavaScript's `\s`: the WhiteSpace and LineTerminator code points of
      ECMAScript (tab, line feed, vertical tab, form feed, carriage return,
      the Unicode space separators, byte order mark, line and paragraph
      separators). */
  predicate IsJsWhitespace(c: char) {
    var n := c as int;
    (0x09 <= n <= 0x0D) || n == 0x20 || n == 0xA0 || n == 0x1680
    || (0x2000 <= n <= 0x200A) || n == 0x2028 || n == 0x2029
    || n == 0x202F || n == 0x205F || n == 0x3000 || n == 0xFEFF
  }

  predicate NoWhitespace(s: string) {
    forall k | 0 <= k < |s| :: !IsJsWhitespace(s[k])
  }

  /** Every character of `s` is in the class `[^\s@]`. */
  predicate InAddressClass(s: string) {
    '@' !in s && NoWhitespace(s)
  }

  /** `s` matches `^[^\s@]+@[^\s@]+\.[^\s@]+$`: the `@` stands at `at`, the
      literal `.` at `dot`, and the three runs around them are non-empty
      and inside the class. */
  ghost predicate MatchesLoginPattern(s: string) {
    exists at: nat, dot: nat | 0 < at && at + 1 < dot && dot + 1 < |s| ::
      s[at] == '@' && s[dot] == '.'
      && InAddressClass(s[..at]) && InAddressClass(s[at + 1..dot]) && InAddressClass(s[dot + 1..])
  }

  /** The index of the first `c` in `s`. */
  function FirstIndex(s: string, c: char): (i: nat)
    requires c in s
    ensures i < |s| && s[i] == c && c !in s[..i]
  {
    if s[0] == c then 0
    else
      assert c in s[1..] by { var k :| 0 <= k < |s| && s[k] == c; assert s[1..][k - 1] == c; }
      var j := FirstIndex(s[1..], c);
      assert s[..j + 1] == [s[0]] + s[1..][..j];
      j + 1
  }

  /** The part of `s` before its first `@`. */
  function LocalPart(s: string): string
    requires '@' in s
  {
    s[..FirstIndex(s, '@')]
  }

  /** The part of `s` after its first `@`. */
  function DomainPart(s: string): string
    requires '@' in s
  {
    s[FirstIndex(s, '@') + 1..]
  }

  /** A domain with a `.` that is neither its first nor its last character. */
  predicate HasInteriorDot(domain: string) {
    exists i | 1 <= i <= |domain| - 2 :: domain[i] == '.'
  }

  /** The Login check, by splitting at the `@`: exactly one `@`, a
      non-empty whitespace-free local part, and a whitespace-free domain
      with an interior `.`. */
  predicate IsLoginEmail(s: string) {
    multiset(s)['@'] == 1
    && |LocalPart(s)| > 0 && NoWhitespace(LocalPart(s))
    && NoWhitespace(DomainPart(s)) && HasInteriorDot(DomainPart(s))
  }

  /** The SignUp check: `email.includes("@")`. */
  predicate IsSignUpEmail(s: string) {
    '@' in s
  }

  /** Every address the Login check accepts also passes the SignUp check. */
  lemma LoginEmailIsSignUpEmail(s: string)
    ensures MatchesLoginPattern(s) ==> IsSignUpEmail(s)
  {
  }

  /** Cutting `s` around position `i` keeps its multiset of characters. */
  lemma MultisetAround(s: string, i: nat)
    requires i < |s|
    ensures multiset(s) == multiset(s[..i]) + multiset{s[i]} + multiset(s[i + 1..])
  {
    assert s == s[..i] + [s[i]] + s[i + 1..];
  }

  /** A position holding `c` with no `c` before it is the first index of `c`. */
  lemma FirstIndexAt(s: string, c: char, i: nat)
    requires i < |s| && s[i] == c && c !in s[..i]
    ensures c in s && FirstIndex(s, c) == i
  {
  }

  /** Three whitespace-free pieces joined by a `.` are whitespace-free. */
  lemma NoWhitespaceAroundDot(a: string, b: string)
    requires NoWhitespace(a) && NoWhitespace(b)
    ensures NoWhitespace(a + ['.'] + b)
  {
  }

  /** A slice of a whitespace-free string is whitespace-free. */
  lemma NoWhitespaceSlice(s: string, i: nat, j: nat)
    requires i <= j <= |s| && NoWhitespace(s)
    ensures NoWhitespace(s[i..j])
  {
  }

  /** The split-based Login check accepts exactly the addresses the
      regular expression `^[^\s@]+@[^\s@]+\.[^\s@]+$` matches. */
  lemma LoginEmailMatchesPattern(s: string)
    ensures IsLoginEmail(s) <==> MatchesLoginPattern(s)
  {
    if MatchesLoginPattern(s) {
      PatternGivesSplit(s);
    }
    if IsLoginEmail(s) {
      SplitGivesPattern(s);
    }
  }

  lemma PatternGivesSplit(s: string)
    requires MatchesLoginPattern(s)
    ensures IsLoginEmail(s)
  {
    var at: nat, dot: nat :| 0 < at && at + 1 < dot && dot + 1 < |s| && s[at] == '@' && s[dot] == '.'
      && InAddressClass(s[..at]) && InAddressClass(s[at + 1..dot]) && InAddressClass(s[dot + 1..]);
    SplitAtWitnesses(s, at, dot);
  }

  /** The pattern's `@` at `at` and `.` at `dot` give the split check. */
  lemma SplitAtWitnesses(s: string, at: nat, dot: nat)
    requires 0 < at && at + 1 < dot && dot + 1 < |s| && s[at] == '@' && s[dot] == '.'
    requires InAddressClass(s[..at]) && InAddressClass(s[at + 1..dot]) && InAddressClass(s[dot + 1..])
    ensures IsLoginEmail(s)
  {
    var domain := s[at + 1..];
    assert domain == s[at + 1..dot] + ['.'] + s[dot + 1..];
    assert '@' !in domain;
    OnlyAt(s, at);
    FirstIndexAt(s, '@', at);
    assert LocalPart(s) == s[..at] && DomainPart(s) == domain;
    NoWhitespaceAroundDot(s[at + 1..dot], s[dot + 1..]);
    assert domain[dot - at - 1] == '.';
  }

  /** An `@` with no other `@` before or after it is the only one. */
  lemma OnlyAt(s: string, at: nat)
    requires at < |s| && s[at] == '@' && '@' !in s[..at] && '@' !in s[at + 1..]
    ensures multiset(s)['@'] == 1
  {
    MultisetAround(s, at);
  }

  lemma SplitGivesPattern(s: string)
    requires IsLoginEmail(s)
    ensures MatchesLoginPattern(s)
  {
    var at := FirstIndex(s, '@');
    var domain := DomainPart(s);
    NoAtAfterOnly(s, at);
    var i :| 1 <= i <= |domain| - 2 && domain[i] == '.';
    var dot := at + 1 + i;
    assert s[at + 1..dot] == domain[..i] && s[dot + 1..] == domain[i + 1..];
    NoWhitespaceSlice(domain, 0, i);
    NoWhitespaceSlice(domain, i + 1, |domain|);
    assert InAddressClass(s[at + 1..dot]) && InAddressClass(s[dot + 1..]);
    PatternAt(s, at, dot);
  }

  /** When an address has one `@`, nothing after the first `@` is an `@`. */
  lemma NoAtAfterOnly(s: string, at: nat)
    requires multiset(s)['@'] == 1 && at < |s| && s[at] == '@'
    ensures '@' !in s[at + 1..]
  {
    MultisetAround(s, at);
  }

  /** An `@` at `at` and a `.` at `dot` around three runs in the class
      make a match. */
  lemma PatternAt(s: string, at: nat, dot: nat)
    requires 0 < at && at + 1 < dot && dot + 1 < |s| && s[at] == '@' && s[dot] == '.'
    requires InAddressClass(s[..at]) && InAddressClass(s[at + 1..dot]) && InAddressClass(s[dot + 1..])
    ensures MatchesLoginPattern(s)
  {
  }
}
