/** The pieces of the Kotlin standard library the screens rely on: nullable
    values, `Char.isWhitespace`, `String.isBlank`, `String.trim`, and the
    character classes used by the input filters and the e-mail pattern. */
module KotlinText {

  /** Kotlin's nullable type `T?`. */
  datatype Option<+T> = None | Some(value: T)

  /** `Char.isWhitespace` on the JVM: `Character.isWhitespace(c) ||
      Character.isSpaceChar(c)`, i.e. the ASCII controls TAB..CR and FS..US,
      and every space, line or paragraph separator (non-breaking ones too). */
  predicate IsWhitespace(c: char) {
    var n := c as int;
    (9 <= n <= 13) || (28 <= n <= 32) || n == 0xA0 || n == 0x1680
    || (0x2000 <= n <= 0x200A) || n == 0x2028 || n == 0x2029
    || n == 0x202F || n == 0x205F || n == 0x3000
  }

  /** `String.isBlank`: empty, or whitespace only. */
  predicate IsBlank(s: string) {
    forall i :: 0 <= i < |s| ==> IsWhitespace(s[i])
  }

  /** A decimal digit, `0`..`9`. */
  predicate IsDigit(c: char) {
    '0' <= c <= '9'
  }

  /** `s.all { it.isDigit() }` (vacuously true of the empty string). */
  predicate AllDigits(s: string) {
    forall i :: 0 <= i < |s| ==> IsDigit(s[i])
  }

  /** The regular-expression class `[A-Za-z]`. */
  predicate IsAsciiLetter(c: char) {
    'A' <= c <= 'Z' || 'a' <= c <= 'z'
  }

  /** `String.trimStart`: the suffix left after dropping the longest blank prefix. */
  function TrimStart(s: string): (r: string)
    ensures |r| <= |s| && r == s[|s| - |r|..]
    ensures IsBlank(s[..|s| - |r|])
    ensures r == [] || !IsWhitespace(r[0])
    decreases |s|
  {
    if s != [] && IsWhitespace(s[0]) then
      var r := TrimStart(s[1..]);
      assert s[..|s| - |r|] == [s[0]] + s[1..][..|s| - 1 - |r|];
      r
    else
      s
  }

  /** `String.trimEnd`: the prefix left after dropping the longest blank suffix. */
  function TrimEnd(s: string): (r: string)
    ensures |r| <= |s| && r == s[..|r|]
    ensures IsBlank(s[|r|..])
    ensures r == [] || !IsWhitespace(r[|r| - 1])
    decreases |s|
  {
    if s != [] && IsWhitespace(s[|s| - 1]) then
      var r := TrimEnd(s[..|s| - 1]);
      assert s[|r|..] == s[..|s| - 1][|r|..] + [s[|s| - 1]];
      r
    else
      s
  }

  /** `String.trim`: `s` without its leading and trailing whitespace. The
      result is the infix of `s` that starts after the blank prefix, it is
      empty exactly when `s` is blank, and it neither starts nor ends with
      whitespace. */
  function Trim(s: string): (r: string)
    ensures var lead := |s| - |TrimStart(s)|;
      lead + |r| <= |s| && r == s[lead..lead + |r|]
      && IsBlank(s[..lead]) && IsBlank(s[lead + |r|..])
    ensures r == [] <==> IsBlank(s)
    ensures r == [] || (!IsWhitespace(r[0]) && !IsWhitespace(r[|r| - 1]))
  {
    TrimInfix(s);
    TrimBlankIff(s);
    TrimEnds(s);
    TrimEnd(TrimStart(s))
  }

  /** Blankness of a concatenation is blankness of both parts. */
  lemma BlankConcat(a: string, b: string)
    ensures IsBlank(a + b) <==> IsBlank(a) && IsBlank(b)
  {
    if IsBlank(a) && IsBlank(b) {
      forall i | 0 <= i < |a + b| ensures IsWhitespace((a + b)[i]) {
        if i >= |a| { assert (a + b)[i] == b[i - |a|]; } else { assert (a + b)[i] == a[i]; }
      }
    }
    if IsBlank(a + b) {
      forall i | 0 <= i < |a| ensures IsWhitespace(a[i]) {
        assert a[i] == (a + b)[i];
      }
      forall i | 0 <= i < |b| ensures IsWhitespace(b[i]) {
        assert b[i] == (a + b)[|a| + i];
      }
    }
  }

  /** Trimming keeps the infix of `s` between the blank prefix and the blank suffix. */
  lemma TrimInfix(s: string)
    ensures var lead := |s| - |TrimStart(s)|; var r := TrimEnd(TrimStart(s));
      lead + |r| <= |s| && r == s[lead..lead + |r|]
      && IsBlank(s[..lead]) && IsBlank(s[lead + |r|..])
  {
    var t := TrimStart(s);
    var r := TrimEnd(t);
    var lead := |s| - |t|;
    assert s[lead + |r|..] == t[|r|..];
  }

  /** Trimming leaves nothing exactly when the string is blank. */
  lemma TrimBlankIff(s: string)
    ensures TrimEnd(TrimStart(s)) == [] <==> IsBlank(s)
  {
    var t := TrimStart(s);
    var lead := |s| - |t|;
    assert s == s[..lead] + t;
    BlankConcat(s[..lead], t);
    if TrimEnd(t) == [] {
      assert t[0..] == t;
      assert IsBlank(t);
    }
    if IsBlank(s) {
      assert IsBlank(t);
    }
  }

  /** What trimming leaves neither starts nor ends with whitespace. */
  lemma TrimEnds(s: string)
    ensures var r := TrimEnd(TrimStart(s));
      r == [] || (!IsWhitespace(r[0]) && !IsWhitespace(r[|r| - 1]))
  {
    var t := TrimStart(s);
    var r := TrimEnd(t);
    if r != [] {
      assert r[0] == t[0];
    }
  }

  /** Removing a blank prefix in front of text that does not start with
      whitespace gives back exactly that text. */
  lemma {:induction false} TrimStartPadded(w: string, t: string)
    requires IsBlank(w)
    requires t == [] || !IsWhitespace(t[0])
    ensures TrimStart(w + t) == t
    decreases |w|
  {
    if w == [] {
      assert w + t == t;
    } else {
      assert (w + t)[1..] == w[1..] + t;
      TrimStartPadded(w[1..], t);
    }
  }

  /** Removing a blank suffix after text that does not end with whitespace
      gives back exactly that text. */
  lemma {:induction false} TrimEndPadded(t: string, w: string)
    requires IsBlank(w)
    requires t == [] || !IsWhitespace(t[|t| - 1])
    ensures TrimEnd(t + w) == t
    decreases |w|
  {
    if w == [] {
      assert t + w == t;
    } else {
      assert (t + w)[..|t + w| - 1] == t + w[..|w| - 1];
      TrimEndPadded(t, w[..|w| - 1]);
    }
  }

  /** `trim` removes exactly the blank padding around a word: whatever
      whitespace surrounds `core`, trimming gives `core` back. */
  lemma TrimPadded(w1: string, core: string, w2: string)
    requires IsBlank(w1) && IsBlank(w2)
    requires core == [] || (!IsWhitespace(core[0]) && !IsWhitespace(core[|core| - 1]))
    ensures Trim(w1 + core + w2) == core
  {
    if core == [] {
      assert w1 + core + w2 == w1 + w2;
      assert IsBlank(w1 + w2);
    } else {
      assert w1 + core + w2 == w1 + (core + w2);
      TrimStartPadded(w1, core + w2);
      TrimEndPadded(core, w2);
    }
  }

  /** Trimming twice is trimming once. */
  lemma TrimIdempotent(s: string)
    ensures Trim(Trim(s)) == Trim(s)
  {
    var r := Trim(s);
    assert [] + r + [] == r;
    TrimPadded([], r, []);
  }
}
