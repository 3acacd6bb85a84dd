/** The password pattern of the sign-up form,
      /^(?=.*[a-z])(?=.*[A-Z])(?=.*\d)(?=.*[@$!%*?&])[A-Za-z\d@$!%*?&]/
    as JavaScript's `RegExp.prototype.test` evaluates it (no flags). The four
    lookaheads are anchored at the start of the string, and `.` does not
    cross a line terminator, so each required class must occur before the
    first line break. The trailing class matches the first character only:
    with no quantifier and no `$`, nothing after it is constrained. */
module PasswordRule {

  /** Characters JavaScript's `.` does not match without the `s` flag. */
  predicate IsLineTerminator(c: char) {
    c == '\n' || c == '\r' || c == '\U{2028}' || c == '\U{2029}'
  }

  /** The four character classes the lookaheads ask for. */
  datatype CharClass = Lower | Upper | Digit | Special

  /** `[a-z]`, `[A-Z]`, `\d` (ASCII digits only in JavaScript) and `[@$!%*?&]`. */
  predicate InClass(k: CharClass, c: char) {
    match k
    case Lower => 'a' <= c <= 'z'
    case Upper => 'A' <= c <= 'Z'
    case Digit => '0' <= c <= '9'
    case Special => c in "@$!%*?&"
  }

  /** `[A-Za-z\d@$!%*?&]`, the class of the one consuming atom. */
  predicate AllowedFirst(c: char) {
    InClass(Lower, c) || InClass(Upper, c) || InClass(Digit, c) || InClass(Special, c)
  }

  /** How `(?=.*K)` matches at the start of `s`: either `.*` stops here and
      `K` matches the current character, or `.*` takes the current character
      (never a line terminator) and matching goes on from the next one. */
  predicate LookaheadMatches(k: CharClass, s: string)
    ensures |s| > 0 && IsLineTerminator(s[0]) ==> !LookaheadMatches(k, s)
    decreases |s|
  {
    |s| > 0 && (InClass(k, s[0]) || (!IsLineTerminator(s[0]) && LookaheadMatches(k, s[1..])))
  }

  /** No line terminator occurs among the first `i` characters of `s`. */
  predicate NoBreakBefore(s: string, i: nat)
    requires i <= |s|
  {
    forall j :: 0 <= j < i ==> !IsLineTerminator(s[j])
  }

  /** Reference meaning of `(?=.*K)`: a character of class `K` occurs in the
      first line of `s`. */
  predicate InFirstLine(k: CharClass, s: string) {
    exists i :: 0 <= i < |s| && InClass(k, s[i]) && NoBreakBefore(s, i)
  }

  /** A character of class `K` occurs anywhere in `s`. */
  predicate Contains(k: CharClass, s: string) {
    exists i :: 0 <= i < |s| && InClass(k, s[i])
  }

  /** `passwordRegex.test(s)`. */
  predicate PasswordRegexTest(s: string)
    ensures PasswordRegexTest(s) ==> forall k :: Contains(k, s)
  {
    LookaheadMeaning(Lower, s);
    LookaheadMeaning(Upper, s);
    LookaheadMeaning(Digit, s);
    LookaheadMeaning(Special, s);
    && LookaheadMatches(Lower, s)
    && LookaheadMatches(Upper, s)
    && LookaheadMatches(Digit, s)
    && LookaheadMatches(Special, s)
    && |s| > 0 && AllowedFirst(s[0])
  }

  /** The backtracking matcher of a lookahead finds exactly the characters of
      class `K` that lie in the first line. */
  lemma {:induction false} LookaheadMeaning(k: CharClass, s: string)
    ensures LookaheadMatches(k, s) <==> InFirstLine(k, s)
    decreases |s|
  {
    if |s| > 0 {
      var t := s[1..];
      LookaheadMeaning(k, t);
      if LookaheadMatches(k, s) && !InClass(k, s[0]) {
        var i :| 0 <= i < |t| && InClass(k, t[i]) && NoBreakBefore(t, i);
        assert InClass(k, s[i + 1]) && NoBreakBefore(s, i + 1);
      }
      if InFirstLine(k, s) && !InClass(k, s[0]) {
        var i :| 0 <= i < |s| && InClass(k, s[i]) && NoBreakBefore(s, i);
        assert i > 0 && !IsLineTerminator(s[0]);
        assert InClass(k, t[i - 1]) && NoBreakBefore(t, i - 1);
      }
    }
  }

  /** What the pattern accepts: a non-empty string that starts with a
      character of `[A-Za-z\d@$!%*?&]` and has a lower-case letter, an
      upper-case letter, a digit and one of `@$!%*?&` in its first line. */
  lemma RegexMeaning(s: string)
    ensures PasswordRegexTest(s) <==>
      && (forall k :: InFirstLine(k, s))
      && |s| > 0 && AllowedFirst(s[0])
  {
    LookaheadMeaning(Lower, s);
    LookaheadMeaning(Upper, s);
    LookaheadMeaning(Digit, s);
    LookaheadMeaning(Special, s);
    if PasswordRegexTest(s) {
      forall k ensures InFirstLine(k, s) {
        match k
        case Lower =>
        case Upper =>
        case Digit =>
        case Special =>
      }
    }
  }

  /** On a single-line string the lookaheads are plain "contains" tests. */
  lemma SingleLineMeaning(s: string)
    requires forall i :: 0 <= i < |s| ==> !IsLineTerminator(s[i])
    ensures PasswordRegexTest(s) <==>
      && (forall k :: Contains(k, s))
      && |s| > 0 && AllowedFirst(s[0])
  {
    RegexMeaning(s);
    forall k ensures InFirstLine(k, s) <==> Contains(k, s) {
      if Contains(k, s) {
        var i :| 0 <= i < |s| && InClass(k, s[i]);
        assert NoBreakBefore(s, i);
      }
    }
  }

  /** Characters appended after an accepted password are never checked. */
  lemma SuffixUnconstrained(s: string, t: string)
    requires PasswordRegexTest(s)
    ensures PasswordRegexTest(s + t)
  {
    RegexMeaning(s);
    RegexMeaning(s + t);
    forall k ensures InFirstLine(k, s + t) {
      assert InFirstLine(k, s);
      var i :| 0 <= i < |s| && InClass(k, s[i]) && NoBreakBefore(s, i);
      assert (s + t)[i] == s[i];
      assert NoBreakBefore(s + t, i);
    }
  }

  /** Characters outside every class (a space, `#`, `~`) pass after the first one. */
  lemma AcceptsAnyLaterCharacter()
    ensures PasswordRegexTest("Aa1@ #~x")
  {
  }

  /** A first character outside the class is refused even when all four
      classes occur. */
  lemma RejectsBadFirstCharacter()
    ensures !PasswordRegexTest("#Aa1@xyz")
  {
    var s := "#Aa1@xyz";
    assert s[0] == '#' && !AllowedFirst('#');
  }

  /** A class absent from the text before a line break is not seen, whatever follows. */
  lemma {:induction false} HiddenAfterLineBreak(k: CharClass, p: string, c: char, q: string)
    requires IsLineTerminator(c)
    requires forall i :: 0 <= i < |p| ==> !InClass(k, p[i])
    ensures !LookaheadMatches(k, p + [c] + q)
    decreases |p|
  {
    var s := p + [c] + q;
    if |p| > 0 {
      assert s[1..] == p[1..] + [c] + q;
      HiddenAfterLineBreak(k, p[1..], c, q);
    } else {
      assert s[0] == c;
      assert !InClass(k, c);
    }
  }

  /** A required class that occurs only after a line break is not seen. */
  lemma RejectsClassAfterLineBreak()
    ensures !PasswordRegexTest("Abcdefg1\n@")
  {
    var p := "Abcdefg1";
    assert forall i :: 0 <= i < |p| ==> !InClass(Special, p[i]);
    HiddenAfterLineBreak(Special, p, '\n', "@");
    assert p + ['\n'] + "@" == "Abcdefg1\n@";
  }
}
