/** The e-mail pattern `^[^\s@]+@[^\s@]+\.[^\s@]+$` shared by the login, registration and
    user-editing screens. */
module Email {
  import opened Wrappers
  import opened JsText
  import Lists

  /** Every character belongs to the class `[^\s@]`. */
  predicate NoSpaceOrAt(t: string) {
    forall k :: 0 <= k < |t| ==> !IsWhitespace(t[k]) && t[k] != '@'
  }

  /** `s` splits as `A "@" B "." C` around the `@` at `i` and the `.` at `j`, each of
      `A`, `B`, `C` a non-empty run of `[^\s@]`. */
  ghost predicate SplitsAt(s: string, i: int, j: int)
    requires 0 <= i < j < |s|
  {
    s[i] == '@' && s[j] == '.' &&
    0 < i && i + 1 < j && j + 1 < |s| &&
    NoSpaceOrAt(s[..i]) && NoSpaceOrAt(s[i + 1..j]) && NoSpaceOrAt(s[j + 1..])
  }

  /** The language of the pattern: some split into the three runs exists (the matcher
      backtracks over the position of the `.`). */
  ghost predicate MatchesPattern(s: string) {
    exists i, j | 0 <= i < j < |s| :: SplitsAt(s, i, j)
  }

  function IsAtSign(c: char): bool { c == '@' }

  /** Some `.` at an index in `lo..hi-1`. */
  predicate DotBetween(s: string, lo: int, hi: int)
    requires 0 <= lo && hi <= |s|
  {
    exists j | lo <= j < hi :: s[j] == '.'
  }

  /** `re.test(email)`: the first `@` is not in front, nothing but it is blank or `@`, and a
      `.` follows it with at least one character on each side. */
  function ValidEmail(s: string): (r: bool)
    ensures r ==> |s| >= 5
  {
    var at := Lists.FindIndex(s, IsAtSign);
    if at.None? || at.value == 0 || at.value + 2 >= |s| then false
    else NoSpaceOrAt(s[..at.value]) && NoSpaceOrAt(s[at.value + 1..]) && DotBetween(s, at.value + 2, |s| - 1)
  }

  /** The executable check accepts exactly the pattern's language. */
  lemma ValidEmailMatchesPattern(s: string)
    ensures ValidEmail(s) <==> MatchesPattern(s)
  {
    if ValidEmail(s) {
      var i := Lists.FindIndex(s, IsAtSign).value;
      var j :| i + 2 <= j < |s| - 1 && s[j] == '.';
      var tail := s[i + 1..];
      var b := s[i + 1..j];
      assert forall k :: 0 <= k < |b| ==> b[k] == tail[k];
      var c := s[j + 1..];
      assert forall k :: 0 <= k < |c| ==> c[k] == tail[j - i + k];
      assert SplitsAt(s, i, j);
    }
    if MatchesPattern(s) {
      var i, j :| 0 <= i < j < |s| && SplitsAt(s, i, j);
      var at := Lists.FindIndex(s, IsAtSign);
      assert IsAtSign(s[i]);
      assert forall k :: 0 <= k < i ==> s[k] == s[..i][k];
      assert at == Some(i);
      var tail := s[i + 1..];
      forall k | 0 <= k < |tail|
        ensures !IsWhitespace(tail[k]) && tail[k] != '@'
      {
        if i + 1 + k < j {
          assert tail[k] == s[i + 1..j][k];
        } else if i + 1 + k > j {
          assert tail[k] == s[j + 1..][k - (j - i)];
        }
      }
      assert DotBetween(s, i + 2, |s| - 1);
    }
  }

  /** A match has exactly one `@` and no blank anywhere, and is therefore never blank. */
  lemma MatchHasOneAtAndNoBlank(s: string, i: int, j: int)
    requires 0 <= i < j < |s| && SplitsAt(s, i, j)
    ensures forall k :: 0 <= k < |s| && k != i ==> s[k] != '@'
    ensures forall k :: 0 <= k < |s| ==> !IsWhitespace(s[k])
    ensures !IsBlank(s)
  {
    forall k | 0 <= k < |s|
      ensures !IsWhitespace(s[k]) && (k != i ==> s[k] != '@')
    {
      if k < i {
        assert s[k] == s[..i][k];
      } else if i < k < j {
        assert s[k] == s[i + 1..j][k - i - 1];
      } else if j < k {
        assert s[k] == s[j + 1..][k - j - 1];
      }
    }
    BlankIffAllWhitespace(s);
  }

  /** Hence a blank address never matches, so a blank check in front of the pattern only
      chooses the message. */
  lemma MatchIsNotBlank(s: string)
    ensures MatchesPattern(s) ==> !IsBlank(s)
  {
    if MatchesPattern(s) {
      var i, j :| 0 <= i < j < |s| && SplitsAt(s, i, j);
      MatchHasOneAtAndNoBlank(s, i, j);
    }
  }

  /** The screens test blankness on `email.trim()` but the pattern on `email` itself: an
      address with a blank in front or behind is not blank yet never matches. */
  lemma PaddedEmailFailsPattern(s: string)
    requires |s| > 0 && (IsWhitespace(s[0]) || IsWhitespace(s[|s| - 1]))
    requires exists k :: 0 <= k < |s| && !IsWhitespace(s[k])
    ensures !IsBlank(s)
    ensures !ValidEmail(s)
  {
    BlankIffAllWhitespace(s);
    ValidEmailMatchesPattern(s);
    if MatchesPattern(s) {
      var i, j :| 0 <= i < j < |s| && SplitsAt(s, i, j);
      MatchHasOneAtAndNoBlank(s, i, j);
    }
  }
}
