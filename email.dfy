/** The e-mail check `/^[^\s@]+@[^\s@]+\.[^\s@]+$/.test(s)`, written out once and
    used by the three copies of `isValidEmail` in the source. */
module Email {
  import opened Strings

  /** A character of the class `[^\s@]`. */
  predicate EmailChar(c: char) {
    !IsJsWhitespace(c) && c != '@'
  }

  /** What the regular expression matches: a non-empty local part, '@', a non-empty
      run, a '.', and a non-empty run, where every part avoids whitespace and '@'
      ('.' itself belongs to `[^\s@]`, so the domain may contain further dots). */
  ghost predicate MatchesEmailPattern(s: string) {
    exists p, q {:trigger s[p], s[q]} ::
      0 < p && p + 1 < q && q + 1 < |s| && s[p] == '@' && s[q] == '.' &&
      forall i :: 0 <= i < |s| && i != p ==> EmailChar(s[i])
  }

  /** A direct test: the first '@' is not at the start, no other '@' and no whitespace
      occurs, and a '.' sits strictly inside the part after the '@' (not right after
      the '@' and not last). */
  predicate IsValidEmail(s: string) {
    var p := IndexOf(s, '@');
    p > 0
    && (forall i :: 0 <= i < |s| && i != p ==> EmailChar(s[i]))
    && (exists q :: p + 1 < q < |s| - 1 && s[q] == '.')
  }

  /** The direct test decides exactly the language of the regular expression. */
  lemma IsValidEmailMatchesPattern(s: string)
    ensures IsValidEmail(s) <==> MatchesEmailPattern(s)
  {
    var p := IndexOf(s, '@');
    if IsValidEmail(s) {
      var q :| p + 1 < q < |s| - 1 && s[q] == '.';
      assert s[p] == '@' && s[q] == '.';
    }
    if MatchesEmailPattern(s) {
      var p', q' :| 0 < p' && p' + 1 < q' && q' + 1 < |s| && s[p'] == '@' && s[q'] == '.' &&
        forall i :: 0 <= i < |s| && i != p' ==> EmailChar(s[i]);
      // the '@' at p' is the only one, so it is the first one
      assert p == p';
      assert p + 1 < q' < |s| - 1 && s[q'] == '.';
    }
  }

  lemma SampleAddressIsValid()
    ensures IsValidEmail("a@b.co")
  {
    assert IndexOf("a@b.co", '@') == 1;
    assert "a@b.co"[3] == '.';
  }

  lemma NotAnEmailIsInvalid()
    ensures !IsValidEmail("not-an-email")
  {
    assert IndexOf("not-an-email", '@') == -1 by {
      var s := "not-an-email";
      assert forall i :: 0 <= i < |s| ==> s[i] != '@';
    }
  }
}
