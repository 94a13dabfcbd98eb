/**
 * The form checks shared by the sign-up, forgot-password and reset-password
 * screens: the e-mail pattern `^[^\s@]+@[^\s@]+\.[^\s@]+$` and the minimum
 * password length.
 */
module Validation {

  import opened Common
  import opened Js

  /** `[^\s@]*`: no whitespace and no `@`. */
  predicate NoSpaceOrAt(s: string)
  {
    forall i :: 0 <= i < |s| ==> !IsSpace(s[i]) && s[i] != '@'
  }

  /**
   * The regular expression read as a decomposition: a non-empty part, `@`,
   * a non-empty part, a literal `.`, a non-empty part, none of the three
   * holding whitespace or `@`.
   */
  ghost predicate MatchesEmailPattern(s: string)
  {
    exists i, j :: 0 < i && i + 1 < j && j + 1 < |s| && s[i] == '@' && s[j] == '.'
      && NoSpaceOrAt(s[..i]) && NoSpaceOrAt(s[i + 1..j]) && NoSpaceOrAt(s[j + 1..])
  }

  /** The position of the first `c` in `s`. */
  function IndexOf(s: string, c: char): (r: Option<nat>)
    ensures r.None? <==> c !in s
    ensures r.Some? ==> r.value < |s| && s[r.value] == c && c !in s[..r.value]
  {
    if s == [] then None
    else if s[0] == c then Some(0)
    else
      var r := IndexOf(s[1..], c);
      if r.Some? then
        assert s[..r.value + 1] == [s[0]] + s[1..][..r.value];
        Some(r.value + 1)
      else None
  }

  /** A `.` that is neither the first nor the last character. */
  predicate HasInnerDot(d: string)
  {
    |d| >= 3 && '.' in d[1..|d| - 1]
  }

  /**
   * `isValidEmail`: a non-empty local part without whitespace, exactly one
   * `@`, and a domain without whitespace or `@` holding an inner `.`.
   */
  predicate IsValidEmail(s: string)
  {
    var at := IndexOf(s, '@');
    at.Some? && at.value > 0 && NoSpaceOrAt(s[..at.value])
    && NoSpaceOrAt(s[at.value + 1..]) && HasInnerDot(s[at.value + 1..])
  }

  /** Every address the executable check accepts matches the regular expression. */
  lemma ValidEmailMatchesPattern(s: string)
    requires IsValidEmail(s)
    ensures MatchesEmailPattern(s)
  {
    var i := IndexOf(s, '@').value;
    var d := s[i + 1..];
    var k :| 1 <= k < |d| - 1 && d[k] == '.' by {
      var m :| 0 <= m < |d[1..|d| - 1]| && d[1..|d| - 1][m] == '.';
      assert d[m + 1] == '.';
    }
    var j := i + 1 + k;
    assert s[j] == '.';
    assert s[i + 1..j] == d[..k] && s[j + 1..] == d[k + 1..];
    assert NoSpaceOrAt(s[i + 1..j]) && NoSpaceOrAt(s[j + 1..]);
  }

  /** Joining two parts without whitespace or `@` around such a character gives such a part. */
  lemma NoSpaceOrAtJoin(a: string, c: char, b: string)
    requires NoSpaceOrAt(a) && NoSpaceOrAt(b) && !IsSpace(c) && c != '@'
    ensures NoSpaceOrAt(a + [c] + b)
  {
    var t := a + [c] + b;
    forall x | 0 <= x < |t| ensures !IsSpace(t[x]) && t[x] != '@' {
      if x < |a| {
        assert t[x] == a[x];
      } else if x > |a| {
        assert t[x] == b[x - |a| - 1];
      }
    }
  }

  /** A domain made of two parts around an inner `.` has neither whitespace nor `@`, and has an inner dot. */
  lemma DomainFromParts(d: string, k: nat)
    requires 0 < k < |d| - 1 && d[k] == '.' && NoSpaceOrAt(d[..k]) && NoSpaceOrAt(d[k + 1..])
    ensures NoSpaceOrAt(d) && HasInnerDot(d)
  {
    assert d == d[..k] + [d[k]] + d[k + 1..];
    NoSpaceOrAtJoin(d[..k], d[k], d[k + 1..]);
    assert d[1..|d| - 1][k - 1] == '.';
  }

  /** The executable check accepts a first `@` with a usable local part and domain around it. */
  lemma ValidFromParts(s: string, i: nat)
    requires 0 < i < |s| && s[i] == '@' && NoSpaceOrAt(s[..i])
    requires NoSpaceOrAt(s[i + 1..]) && HasInnerDot(s[i + 1..])
    ensures IsValidEmail(s)
  {
    FirstAtIs(s, i);
  }

  /** Every address the regular expression matches passes the executable check. */
  lemma PatternIsValidEmail(s: string)
    requires MatchesEmailPattern(s)
    ensures IsValidEmail(s)
  {
    var i, j :| 0 < i && i + 1 < j && j + 1 < |s| && s[i] == '@' && s[j] == '.'
      && NoSpaceOrAt(s[..i]) && NoSpaceOrAt(s[i + 1..j]) && NoSpaceOrAt(s[j + 1..]);
    var d := s[i + 1..];
    var k := j - i - 1;
    assert d[..k] == s[i + 1..j] && d[k + 1..] == s[j + 1..] && d[k] == '.';
    DomainFromParts(d, k);
    ValidFromParts(s, i);
  }

  /** An `@` preceded by no other `@` is the one `IndexOf` finds. */
  lemma FirstAtIs(s: string, i: nat)
    requires i < |s| && s[i] == '@' && NoSpaceOrAt(s[..i])
    ensures IndexOf(s, '@') == Some(i)
  {
    assert s[i] in s;
  }

  /** The executable check accepts exactly the strings the regular expression matches. */
  lemma EmailCheckIsPattern(s: string)
    ensures IsValidEmail(s) <==> MatchesEmailPattern(s)
  {
    if IsValidEmail(s) {
      ValidEmailMatchesPattern(s);
    }
    if MatchesEmailPattern(s) {
      PatternIsValidEmail(s);
    }
  }

  /** The check rejects whitespace anywhere: a padded address is invalid, and no trimming happens first. */
  lemma PaddedEmailInvalid(s: string)
    requires |s| > 0 && IsSpace(s[0])
    ensures !IsValidEmail(s)
  {
    var at := IndexOf(s, '@');
    if at.Some? && at.value > 0 {
      assert s[..at.value][0] == s[0];
    }
  }

  /** A second `@` makes an address invalid. */
  lemma TwoAtsInvalid(s: string, i: nat, j: nat)
    requires i < j < |s| && s[i] == '@' && s[j] == '@'
    ensures !IsValidEmail(s)
  {
    var at := IndexOf(s, '@');
    if at.Some? && at.value > 0 && NoSpaceOrAt(s[..at.value]) {
      assert at.value <= i;
      assert s[at.value + 1..][j - at.value - 1] == '@';
    }
  }

  /** `isValidPassword`, and the sign-up length check: at least 6 UTF-16 code units. */
  predicate IsValidPassword(p: string)
  {
    Utf16Length(p) >= 6
  }

  /** Six characters are always enough. */
  lemma SixCharactersSuffice(p: string)
    requires |p| >= 6
    ensures IsValidPassword(p)
  {
  }

  /** `length` counts code units, so three characters outside the Basic Multilingual Plane already pass. */
  lemma ThreeAstralCharactersPass()
    ensures IsValidPassword("\U{1F600}\U{1F600}\U{1F600}")
  {
    var p := "\U{1F600}\U{1F600}\U{1F600}";
    assert p[1..][1..][1..] == [];
  }
}
