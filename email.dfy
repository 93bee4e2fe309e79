/** `isValidEmail` of the sign-up screen: a full match of the pattern
    `^[A-Za-z0-9._%+-]+@[A-Za-z0-9.-]+\.[A-Za-z]{2,6}$`.

    `MatchesEmailPattern` reads the pattern as a regular expression does: some
    position of the `@` and of the separating `.` split the string into the
    three parts. `IsValidEmail` decides it by looking only at the last `.` and
    the first `@` before it, and its contract (through `ScanDecidesPattern`)
    says that the two agree on every string. */
module Email {
  import opened KotlinText

  /** `[A-Za-z0-9._%+-]` */
  predicate IsLocalChar(c: char) {
    IsAsciiLetter(c) || IsDigit(c) || c == '.' || c == '_' || c == '%' || c == '+' || c == '-'
  }

  /** `[A-Za-z0-9.-]` */
  predicate IsDomainChar(c: char) {
    IsAsciiLetter(c) || IsDigit(c) || c == '.' || c == '-'
  }

  /** `[A-Za-z0-9._%+-]+` */
  predicate IsLocalPart(s: string) {
    |s| > 0 && forall i :: 0 <= i < |s| ==> IsLocalChar(s[i])
  }

  /** `[A-Za-z0-9.-]+` */
  predicate IsDomainPart(s: string) {
    |s| > 0 && forall i :: 0 <= i < |s| ==> IsDomainChar(s[i])
  }

  /** `[A-Za-z]{2,6}` */
  predicate IsTopLevelPart(s: string) {
    2 <= |s| <= 6 && forall i :: 0 <= i < |s| ==> IsAsciiLetter(s[i])
  }

  /** The pattern matches all of `s` with its `@` at `at` and its `\.` at `dot`. */
  ghost predicate MatchesWith(s: string, at: int, dot: int) {
    && 0 <= at < dot < |s|
    && s[at] == '@' && s[dot] == '.'
    && IsLocalPart(s[..at]) && IsDomainPart(s[at + 1..dot]) && IsTopLevelPart(s[dot + 1..])
  }

  ghost predicate MatchesEmailPattern(s: string) {
    exists at, dot :: MatchesWith(s, at, dot)
  }

  /** The first position of `c` in `s`, or -1. */
  function FirstIndexOf(s: string, c: char): (r: int)
    ensures -1 <= r < |s|
    ensures r >= 0 ==> s[r] == c && forall k :: 0 <= k < r ==> s[k] != c
    ensures r < 0 ==> forall k :: 0 <= k < |s| ==> s[k] != c
    decreases |s|
  {
    if s == [] then -1
    else if s[0] == c then 0
    else
      var r := FirstIndexOf(s[1..], c);
      if r < 0 then -1 else r + 1
  }

  /** The last position of `c` in `s`, or -1. */
  function LastIndexOf(s: string, c: char): (r: int)
    ensures -1 <= r < |s|
    ensures r >= 0 ==> s[r] == c
    ensures forall k :: r < k < |s| ==> s[k] != c
    decreases |s|
  {
    if s == [] then -1
    else if s[|s| - 1] == c then |s| - 1
    else LastIndexOf(s[..|s| - 1], c)
  }

  /** `isValidEmail`: the top-level part follows the last `.`, and the text
      before that `.` is a local part, one `@` and a domain part. The scan
      accepts exactly the strings the regular expression matches in full. */
  function IsValidEmail(email: string): (r: bool)
    ensures r <==> MatchesEmailPattern(email)
  {
    var dot := LastIndexOf(email, '.');
    var at := if dot < 0 then -1 else FirstIndexOf(email[..dot], '@');
    ScanDecidesPattern(email, dot, at);
    ScanAccepts(email, dot, at)
  }

  /** The scan's test, given the last `.` and the first `@` before it. */
  predicate ScanAccepts(s: string, dot: int, at: int)
    requires -1 <= dot < |s| && -1 <= at < |s|
  {
    && dot >= 0 && IsTopLevelPart(s[dot + 1..])
    && 0 <= at < dot && IsLocalPart(s[..at]) && IsDomainPart(s[at + 1..dot])
  }

  /** In any match the `.` is the last one of the string: only letters follow it. */
  lemma MatchDotIsLast(s: string, at: int, dot: int)
    requires MatchesWith(s, at, dot)
    ensures LastIndexOf(s, '.') == dot
  {
    assert forall k :: dot < k < |s| ==> s[k] == s[dot + 1..][k - dot - 1];
  }

  /** In any match the `@` is the first one of the string: no `@` comes before it. */
  lemma MatchAtIsFirst(s: string, at: int, dot: int)
    requires MatchesWith(s, at, dot)
    ensures FirstIndexOf(s[..dot], '@') == at
  {
    assert s[..dot][at] == '@';
    assert forall k :: 0 <= k < at ==> s[..dot][k] == s[..at][k];
  }

  /** The scan decides the pattern: looking at the last `.` and the first `@`
      before it finds a match whenever there is one. */
  lemma ScanDecidesPattern(s: string, dot: int, at: int)
    requires dot == LastIndexOf(s, '.')
    requires at == if dot < 0 then -1 else FirstIndexOf(s[..dot], '@')
    ensures -1 <= at < |s|
    ensures ScanAccepts(s, dot, at) <==> MatchesEmailPattern(s)
  {
    if ScanAccepts(s, dot, at) {
      assert s[..dot][..at] == s[..at];
      assert s[..dot][at] == s[at];
      assert MatchesWith(s, at, dot);
    }
    if MatchesEmailPattern(s) {
      var at', dot' :| MatchesWith(s, at', dot');
      MatchDotIsLast(s, at', dot');
      MatchAtIsFirst(s, at', dot');
    }
  }

  /** A valid address holds exactly one `@`. */
  lemma ValidEmailHasOneAt(s: string)
    requires IsValidEmail(s)
    ensures exists at :: (0 <= at < |s| && s[at] == '@'
                          && forall k :: 0 <= k < |s| && k != at ==> s[k] != '@')
  {
    var at, dot :| MatchesWith(s, at, dot);
    forall k | 0 <= k < |s| && k != at ensures s[k] != '@' {
      if k < at {
        assert s[k] == s[..at][k];
      } else if k < dot {
        assert s[k] == s[at + 1..dot][k - at - 1];
      } else if k > dot {
        assert s[k] == s[dot + 1..][k - dot - 1];
      }
    }
  }

  /** A string without `@` is rejected. */
  lemma NoAtRejected(s: string)
    requires forall k :: 0 <= k < |s| ==> s[k] != '@'
    ensures !IsValidEmail(s)
  {
  }

  /** A string whose text after its last `.` is shorter than two or longer
      than six characters, or that has no `.` at all, is rejected. */
  lemma BadTopLevelRejected(s: string, d: int)
    requires -1 <= d < |s| && (d >= 0 ==> s[d] == '.')
    requires forall k :: d < k < |s| ==> s[k] != '.'
    requires |s| - d - 1 < 2 || |s| - d - 1 > 6 || d < 0
    ensures !IsValidEmail(s)
  {
  }

  /** The demo login "test@demo.com" is a valid address. */
  lemma DemoEmailIsValid()
    ensures IsValidEmail("test@demo.com")
  {
    var s := "test@demo.com";
    assert s[..4] == "test" && s[5..9] == "demo" && s[10..] == "com";
    assert MatchesWith(s, 4, 9);
  }

  /** The dummy login "demo" is not an address, and the check does not trim:
      a leading space makes the demo address invalid. */
  lemma InvalidEmailExamples()
    ensures !IsValidEmail("demo")
    ensures !IsValidEmail(" test@demo.com")
  {
    NoAtRejected("demo");
    var t := " test@demo.com";
    MatchStartsWithLocalChar(t);
    assert !IsLocalChar(t[0]);
  }

  /** A matching string starts with a character of the local part. */
  lemma MatchStartsWithLocalChar(s: string)
    ensures MatchesEmailPattern(s) ==> |s| > 0 && IsLocalChar(s[0])
  {
    if MatchesEmailPattern(s) {
      var at, dot :| MatchesWith(s, at, dot);
      assert s[0] == s[..at][0];
    }
  }
}
