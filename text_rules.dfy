/**
 * The string rules behind the customer form: JavaScript's notion of white
 * space (shared by `trim`, `\s` and `\S`), trimming, removing all white
 * space, and the two patterns the form tests, written out by hand:
 *
 *   email  \S+@\S+\.\S+         searched for anywhere in the string
 *   phone  ^(\+27|0)[0-9]{9}$   matched against the whole string
 */
module TextRules {

  /** The ECMAScript white-space and line-terminator characters. */
  predicate IsSpace(c: char) {
    c == '\t' || c == '\n' || c == '\U{000B}' || c == '\U{000C}' || c == '\r' || c == ' '
    || c == '\U{00A0}' || c == '\U{1680}' || ('\U{2000}' <= c <= '\U{200A}')
    || c == '\U{2028}' || c == '\U{2029}' || c == '\U{202F}' || c == '\U{205F}'
    || c == '\U{3000}' || c == '\U{FEFF}'
  }

  /** Every character is white space (true of the empty string). */
  predicate IsBlank(s: string) {
    forall k | 0 <= k < |s| :: IsSpace(s[k])
  }

  /** No character is white space. */
  predicate NoSpace(s: string) {
    forall k | 0 <= k < |s| :: !IsSpace(s[k])
  }

  // ---------------------------------------------------------------------
  // Trimming

  /** Drops the leading white space. */
  function TrimStart(s: string): string {
    if s != [] && IsSpace(s[0]) then TrimStart(s[1..]) else s
  }

  /** Drops the trailing white space. */
  function TrimEnd(s: string): string {
    if s != [] && IsSpace(s[|s| - 1]) then TrimEnd(s[..|s| - 1]) else s
  }

  /** What `TrimStart` leaves is a suffix, starting with a non-space, after a blank prefix. */
  lemma {:induction false} TrimStartIsBlankCut(s: string)
    ensures var r := TrimStart(s);
            |r| <= |s| && r == s[|s| - |r|..] && IsBlank(s[..|s| - |r|])
            && (r != [] ==> !IsSpace(r[0]))
  {
    if s != [] && IsSpace(s[0]) {
      TrimStartIsBlankCut(s[1..]);
      var r := TrimStart(s[1..]);
      assert s[1..][..|s| - 1 - |r|] == s[1..|s| - |r|];
    }
  }

  /** What `TrimEnd` leaves is a prefix, ending in a non-space, before a blank suffix. */
  lemma {:induction false} TrimEndIsBlankCut(s: string)
    ensures var r := TrimEnd(s);
            |r| <= |s| && r == s[..|r|] && IsBlank(s[|r|..])
            && (r != [] ==> !IsSpace(r[|r| - 1]))
  {
    if s != [] && IsSpace(s[|s| - 1]) {
      TrimEndIsBlankCut(s[..|s| - 1]);
      var r := TrimEnd(s[..|s| - 1]);
      assert IsBlank(s[|r|..]) by {
        var u := s[|r|..];
        forall k | 0 <= k < |u| ensures IsSpace(u[k]) {
          if k < |u| - 1 { assert u[k] == s[..|s| - 1][|r|..][k]; }
        }
      }
    }
  }

  /**
   * `String.prototype.trim`: nothing is left exactly when the string is all
   * white space, and what is left neither starts nor ends with white space.
   */
  function Trim(s: string): (r: string)
    ensures |r| <= |s|
    ensures r == [] <==> IsBlank(s)
    ensures r != [] ==> !IsSpace(r[0]) && !IsSpace(r[|r| - 1])
  {
    TrimStartIsBlankCut(s);
    TrimEndIsBlankCut(TrimStart(s));
    TrimEmptyIffBlank(s);
    TrimEnd(TrimStart(s))
  }

  /**
   * Trimming keeps one contiguous slice of the string, cut only through
   * white space, and that slice neither starts nor ends with white space.
   */
  lemma TrimIsSlice(s: string)
    ensures exists i, j :: 0 <= i <= j <= |s| && Trim(s) == s[i..j]
                           && IsBlank(s[..i]) && IsBlank(s[j..])
    ensures Trim(s) != [] ==> !IsSpace(Trim(s)[0]) && !IsSpace(Trim(s)[|Trim(s)| - 1])
  {
    var t := TrimStart(s);
    TrimStartIsBlankCut(s);
    TrimEndIsBlankCut(t);
    var i := |s| - |t|;
    var j := i + |TrimEnd(t)|;
    assert Trim(s) == s[i..j];
    assert s[j..] == t[|TrimEnd(t)|..];
  }

  /** Trimming both ends leaves nothing exactly when the string is all white space. */
  lemma TrimEmptyIffBlank(s: string)
    ensures TrimEnd(TrimStart(s)) == "" <==> IsBlank(s)
  {
    var t := TrimStart(s);
    TrimStartIsBlankCut(s);
    TrimEndIsBlankCut(t);
    if !IsBlank(s) {
      var k :| 0 <= k < |s| && !IsSpace(s[k]);
      assert t != [];
    }
  }

  // ---------------------------------------------------------------------
  // Removing white space: `s.replace(/\s/g, '')`

  /** The non-space characters of `s`, in order. */
  function RemoveSpaces(s: string): (r: string)
    ensures NoSpace(r)
    ensures |r| <= |s|
  {
    if s == [] then []
    else if IsSpace(s[0]) then RemoveSpaces(s[1..])
    else [s[0]] + RemoveSpaces(s[1..])
  }

  /** Removing white space from a string that has none changes nothing, so removal is idempotent. */
  lemma {:induction false} RemoveSpacesKeepsSpaceFree(s: string)
    requires NoSpace(s)
    ensures RemoveSpaces(s) == s
  {
    if s != [] {
      RemoveSpacesKeepsSpaceFree(s[1..]);
    }
  }

  /** Removing white space leaves nothing exactly when the string is blank. */
  lemma {:induction false} RemoveSpacesEmptyIffBlank(s: string)
    ensures RemoveSpaces(s) == "" <==> IsBlank(s)
  {
    if s != [] {
      RemoveSpacesEmptyIffBlank(s[1..]);
      if IsBlank(s[1..]) && IsSpace(s[0]) {
        assert IsBlank(s) by {
          forall k | 0 <= k < |s| ensures IsSpace(s[k]) {
            if k > 0 { assert s[k] == s[1..][k - 1]; }
          }
        }
      }
    }
  }

  // ---------------------------------------------------------------------
  // The phone pattern ^(\+27|0)[0-9]{9}$

  predicate IsDigit(c: char) { '0' <= c <= '9' }

  predicate AllDigits(s: string) {
    forall k | 0 <= k < |s| :: IsDigit(s[k])
  }

  /**
   * The whole string is "0" or "+27" followed by exactly nine decimal
   * digits: cut off the last nine characters, and what is cut off is all
   * digits while what remains is one of the two prefixes.
   */
  predicate MatchesPhonePattern(t: string): (m: bool)
    ensures m <==> |t| >= 10 && (t[..|t| - 9] == "0" || t[..|t| - 9] == "+27") && AllDigits(t[|t| - 9..])
  {
    assert |t| == 10 ==> ([t[0]] == "0" <==> t[0] == '0') && t[..1] == [t[0]] && t[1..] == t[|t| - 9..];
    assert |t| == 12 ==> t[3..] == t[|t| - 9..];
    || (|t| == 10 && t[0] == '0' && AllDigits(t[1..]))
    || (|t| == 12 && t[..3] == "+27" && AllDigits(t[3..]))
  }

  /** The accepted numbers are exactly "0" or "+27" in front of a nine-digit block. */
  lemma PhonePatternShape(prefix: string, digits: string)
    requires prefix == "0" || prefix == "+27"
    ensures MatchesPhonePattern(prefix + digits) <==> |digits| == 9 && AllDigits(digits)
  {
    var t := prefix + digits;
    if prefix == "0" {
      assert t[0] == '0' && t[1..] == digits;
    } else {
      assert t[..3] == "+27" && t[3..] == digits && t[0] == '+';
    }
  }

  /** A phone that passes the pattern after white-space removal is not blank. */
  lemma PhoneMatchIsNotBlank(p: string)
    requires MatchesPhonePattern(RemoveSpaces(p))
    ensures !IsBlank(p)
  {
    RemoveSpacesEmptyIffBlank(p);
  }

  /** Removal works piecewise: the non-spaces of a concatenation are the non-spaces of each part. */
  lemma {:induction false} RemoveSpacesDistributes(a: string, b: string)
    ensures RemoveSpaces(a + b) == RemoveSpaces(a) + RemoveSpaces(b)
  {
    if a == [] {
      assert a + b == b;
    } else {
      assert (a + b)[0] == a[0] && (a + b)[1..] == a[1..] + b;
      RemoveSpacesDistributes(a[1..], b);
    }
  }

  /** A run of digits has no white space to remove. */
  lemma DigitsSurviveRemoval(s: string)
    requires AllDigits(s)
    ensures RemoveSpaces(s) == s
  {
    assert NoSpace(s);
    RemoveSpacesKeepsSpaceFree(s);
  }

  /** "0" or "+27" followed by nine digits passes, once white space is removed. */
  lemma NineDigitNumbersAccepted(digits: string)
    requires |digits| == 9 && AllDigits(digits)
    ensures MatchesPhonePattern(RemoveSpaces("0" + digits))
    ensures MatchesPhonePattern(RemoveSpaces("+27" + digits))
  {
    DigitsSurviveRemoval(digits);
    RemoveSpacesDistributes("0", digits);
    RemoveSpacesDistributes("+27", digits);
    PhonePatternShape("0", digits);
    PhonePatternShape("+27", digits);
  }

  lemma LocalAndInternationalPhonesAccepted()
    ensures MatchesPhonePattern(RemoveSpaces("0821234567"))
    ensures MatchesPhonePattern(RemoveSpaces("+27821234567"))
  {
    var d := "821234567";
    assert AllDigits(d);
    NineDigitNumbersAccepted(d);
    assert "0" + d == "0821234567";
    assert "+27" + d == "+27821234567";
  }

  /** A space between two parts of a number is ignored by the phone check. */
  lemma {:induction false} InnerSpaceIgnored(x: string, y: string)
    ensures RemoveSpaces(x + " " + y) == RemoveSpaces(x) + RemoveSpaces(y)
  {
    assert RemoveSpaces(" ") == "";
    RemoveSpacesDistributes(x + " ", y);
    RemoveSpacesDistributes(x, " ");
  }

  /** Spaces inside the number are removed before the pattern is tested. */
  lemma SpacedPhoneAccepted()
    ensures MatchesPhonePattern(RemoveSpaces("082" + " " + "123" + " " + "4567"))
  {
    var a, b, c := "082", "123", "4567";
    assert AllDigits(a) && AllDigits(b) && AllDigits(c);
    DigitsSurviveRemoval(a);
    DigitsSurviveRemoval(b);
    DigitsSurviveRemoval(c);
    InnerSpaceIgnored(a, b);
    InnerSpaceIgnored(a + " " + b, c);
    var d := "821234567";
    assert a + b + c == "0" + d;
    assert AllDigits(d);
    PhonePatternShape("0", d);
  }

  lemma ShortPhoneRejected()
    ensures !MatchesPhonePattern(RemoveSpaces("12345"))
  {
  }

  // ---------------------------------------------------------------------
  // The email pattern \S+@\S+\.\S+ (unanchored)

  /** `t` splits at `i` and `j` into three non-empty space-free runs around an "@" and a ".". */
  ghost predicate EmailSplit(t: string, i: int, j: int) {
    && 0 < i && i + 1 < j && j + 1 < |t|
    && t[i] == '@' && t[j] == '.'
    && NoSpace(t[..i]) && NoSpace(t[i + 1..j]) && NoSpace(t[j + 1..])
  }

  /** `t` is in the language of \S+@\S+\.\S+. */
  ghost predicate InEmailLanguage(t: string) {
    exists i, j :: EmailSplit(t, i, j)
  }

  /** What `RegExp.prototype.test` answers for the unanchored pattern: some substring is in the language. */
  ghost predicate EmailRegexTest(s: string) {
    exists a, b | 0 <= a <= b <= |s| :: InEmailLanguage(s[a..b])
  }

  /**
   * An "@" at `at` with a non-space before it, a "." at `dot` with a
   * non-space after it, and only non-spaces (at least one) between them.
   */
  ghost predicate EmailAt(s: string, at: int, dot: int) {
    && 1 <= at && at + 1 < dot && dot + 1 < |s|
    && s[at] == '@' && s[dot] == '.' && !IsSpace(s[at - 1]) && !IsSpace(s[dot + 1])
    && NoSpace(s[at + 1..dot])
  }

  /** Some "@" at or after `from` starts a match. */
  ghost predicate EmailAtOrAfter(s: string, from: int) {
    exists at, dot | from <= at :: EmailAt(s, at, dot)
  }

  lemma EmailAtGivesRegexMatch(s: string, at: int, dot: int)
    requires EmailAt(s, at, dot)
    ensures EmailRegexTest(s)
  {
    var t := s[at - 1..dot + 2];
    var j := dot - at + 1;
    assert t[..1] == [s[at - 1]];
    assert NoSpace(t[2..j]) by {
      forall k | 0 <= k < j - 2 ensures !IsSpace(t[2..j][k]) {
        assert t[2..j][k] == t[2 + k] == s[at + 1 + k] == s[at + 1..dot][k];
      }
    }
    assert t[j + 1..] == [s[dot + 1]];
    assert EmailSplit(t, 1, j);
  }

  lemma RegexMatchGivesEmailAt(s: string, a: int, b: int, i: int, j: int)
    requires 0 <= a <= b <= |s| && EmailSplit(s[a..b], i, j)
    ensures EmailAt(s, a + i, a + j)
  {
    var t := s[a..b];
    assert s[a + i - 1] == t[..i][i - 1];
    assert s[a + j + 1] == t[j + 1..][0];
    assert NoSpace(s[a + i + 1..a + j]) by {
      var u := s[a + i + 1..a + j];
      forall k | 0 <= k < |u| ensures !IsSpace(u[k]) {
        assert u[k] == t[i + 1..j][k];
      }
    }
  }

  /** A match of the pattern is exactly an "@" and a "." placed as `EmailAt` describes. */
  lemma RegexIffEmailAt(s: string)
    ensures EmailRegexTest(s) <==> EmailAtOrAfter(s, 0)
  {
    if EmailAtOrAfter(s, 0) {
      var at, dot :| 0 <= at && EmailAt(s, at, dot);
      EmailAtGivesRegexMatch(s, at, dot);
    }
    if EmailRegexTest(s) {
      var a, b :| 0 <= a <= b <= |s| && InEmailLanguage(s[a..b]);
      var i, j :| EmailSplit(s[a..b], i, j);
      RegexMatchGivesEmailAt(s, a, b, i, j);
    }
  }

  // The scan a program runs: try each "@" in turn; after it, walk the run of
  // non-spaces looking for a "." that is not the run's first character and
  // is followed by a non-space.

  /** Scans the non-space run after the "@" at `at`, from position `k`. */
  predicate DotFrom(s: string, at: int, k: int)
    requires 0 <= at < k
    decreases |s| - k
  {
    if k + 1 >= |s| then false
    else if k >= at + 2 && s[k] == '.' && !IsSpace(s[k + 1]) then true
    else if IsSpace(s[k]) then false
    else DotFrom(s, at, k + 1)
  }

  /** Tries each position from `i` on as the "@". */
  predicate EmailFrom(s: string, i: nat)
    decreases |s| - i
  {
    if i >= |s| then false
    else (1 <= i && s[i] == '@' && !IsSpace(s[i - 1]) && DotFrom(s, i, i + 1)) || EmailFrom(s, i + 1)
  }

  /** The run scan finds a "." exactly when a match with this "@" ends at or after `k`. */
  lemma {:induction false} DotFromIff(s: string, at: int, k: int)
    requires 1 <= at < |s| && s[at] == '@' && !IsSpace(s[at - 1])
    requires at < k <= |s| && NoSpace(s[at + 1..k])
    ensures DotFrom(s, at, k) <==> exists dot | k <= dot :: EmailAt(s, at, dot)
    decreases |s| - k
  {
    if k + 1 >= |s| {
    } else if k >= at + 2 && s[k] == '.' && !IsSpace(s[k + 1]) {
      assert EmailAt(s, at, k);
    } else if !IsSpace(s[k]) {
      assert NoSpace(s[at + 1..k + 1]) by {
        var u := s[at + 1..k + 1];
        forall m | 0 <= m < |u| ensures !IsSpace(u[m]) {
          if m < k - at - 1 { assert u[m] == s[at + 1..k][m]; }
        }
      }
      DotFromIff(s, at, k + 1);
      assert !EmailAt(s, at, k);
      if exists dot | k <= dot :: EmailAt(s, at, dot) {
        var dot :| k <= dot && EmailAt(s, at, dot);
        assert k + 1 <= dot;
      }
    } else {
      assert forall dot {:trigger s[at + 1..dot]} | k < dot <= |s| :: s[at + 1..dot][k - at - 1] == s[k];
    }
  }

  /** Trying each "@" from `i` on finds a match exactly when one exists there. */
  lemma {:induction false} EmailFromIff(s: string, i: nat)
    ensures EmailFrom(s, i) <==> EmailAtOrAfter(s, i)
    decreases |s| - i
  {
    if i < |s| {
      EmailFromIff(s, i + 1);
      var here := 1 <= i && s[i] == '@' && !IsSpace(s[i - 1]);
      if here {
        assert s[i + 1..i + 1] == [];
        DotFromIff(s, i, i + 1);
      }
      if EmailAtOrAfter(s, i) {
        var at, dot :| i <= at && EmailAt(s, at, dot);
        if at == i {
          assert here && DotFrom(s, i, i + 1);
        } else {
          assert EmailAtOrAfter(s, i + 1);
        }
      }
      if here && DotFrom(s, i, i + 1) {
        var dot :| i + 1 <= dot && EmailAt(s, i, dot);
        assert EmailAtOrAfter(s, i);
      }
      if EmailAtOrAfter(s, i + 1) {
        var at, dot :| i + 1 <= at && EmailAt(s, at, dot);
        assert EmailAtOrAfter(s, i);
      }
    }
  }

  /** The email check as a program evaluates it, which agrees with the pattern search on every string. */
  predicate HasEmailShape(s: string): (has: bool)
    ensures has <==> EmailRegexTest(s)
  {
    EmailFromIff(s, 0);
    RegexIffEmailAt(s);
    EmailFrom(s, 0)
  }

  lemma PlainWordIsNotEmail()
    ensures !HasEmailShape("foo") && !EmailRegexTest("foo")
  {
  }

  lemma SimpleAddressIsEmail()
    ensures HasEmailShape("foo@bar.com") && EmailRegexTest("foo@bar.com")
  {
    var s := "foo@bar.com";
    assert s[4..7] == "bar";
    assert EmailAt(s, 3, 7);
    EmailAtGivesRegexMatch(s, 3, 7);
  }

  /** The test is a search: text around a valid address does not make it fail. */
  lemma SurroundedAddressIsEmail()
    ensures EmailRegexTest("to: foo@bar.com ")
  {
    var s := "to: foo@bar.com ";
    assert s[8..11] == "bar";
    assert EmailAt(s, 7, 11);
    RegexIffEmailAt(s);
  }

  /** A blank string never has the email shape. */
  lemma BlankIsNotEmail(s: string)
    ensures IsBlank(s) ==> !HasEmailShape(s)
  {
    EmailFromIff(s, 0);
  }
}
