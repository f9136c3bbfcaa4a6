/**
 * The landing screen (src/components/LandingScreen.tsx): the email field,
 * its shape check on submit, and the error message it shows.
 */
module LandingScreen {
  import opened Wrappers
  import opened JsStrings

  const InvalidEmailMessage := "Please enter a valid email address"

  /** A run the pattern `[^\s@]+` matches: non-empty, with no white space and no `@`. */
  predicate Plain(s: string) {
    s != [] && forall k :: 0 <= k < |s| ==> !IsWhitespace(s[k]) && s[k] != '@'
  }

  /**
   * `/^[^\s@]+@[^\s@]+\.[^\s@]+$/` matches `s`: an `@` at `at` and a dot at
   * `dot` split it into three plain runs.
   */
  ghost predicate MatchesPattern(s: string) {
    exists at, dot :: 0 <= at < dot < |s| && s[at] == '@' && s[dot] == '.'
      && Plain(s[..at]) && Plain(s[at + 1..dot]) && Plain(s[dot + 1..])
  }

  /**
   * The email test of `handleSubmit`, by its parts: no white space, exactly
   * one `@` with something before it, and a dot after it that is neither the
   * first nor the last character of the domain.
   */
  function ValidEmail(s: string): (b: bool)
    ensures b <==> MatchesPattern(s)
  {
    if s == [] || '@' !in s || exists k :: 0 <= k < |s| && IsWhitespace(s[k]) then
      assert !MatchesPattern(s) by { NoMatchWithoutAt(s); }
      false
    else
      var at := IndexOf(s, '@');
      var domain := s[at + 1..];
      var b := at > 0 && '@' !in domain && |domain| >= 3 && '.' in domain[1..|domain| - 1];
      PatternByParts(s, at);
      b
  }

  /** A string the pattern matches is non-empty, holds an `@` and has no white space. */
  lemma NoMatchWithoutAt(s: string)
    ensures MatchesPattern(s) ==> s != [] && '@' in s && forall k :: 0 <= k < |s| ==> !IsWhitespace(s[k])
  {
    if MatchesPattern(s) {
      var at, dot :| 0 <= at < dot < |s| && s[at] == '@' && s[dot] == '.'
        && Plain(s[..at]) && Plain(s[at + 1..dot]) && Plain(s[dot + 1..]);
      WitnessHasNoSpace(s, at, dot);
    }
  }

  /** Three plain runs around an `@` and a dot leave no white space in the whole string. */
  lemma WitnessHasNoSpace(s: string, at: nat, dot: nat)
    requires at < dot < |s| && s[at] == '@' && s[dot] == '.'
    requires Plain(s[..at]) && Plain(s[at + 1..dot]) && Plain(s[dot + 1..])
    ensures forall k :: 0 <= k < |s| ==> !IsWhitespace(s[k])
  {
    forall k | 0 <= k < |s| ensures !IsWhitespace(s[k]) {
      if k < at {
        PlainAt(s, 0, at, k);
      } else if at < k < dot {
        PlainAt(s, at + 1, dot, k);
      } else if k > dot {
        PlainAt(s, dot + 1, |s|, k);
      }
    }
  }

  /** A character inside a plain run is neither white space nor `@`. */
  lemma PlainAt(s: string, lo: nat, hi: nat, k: nat)
    requires lo <= k < hi <= |s| && Plain(s[lo..hi])
    ensures !IsWhitespace(s[k]) && s[k] != '@'
  {
    assert s[lo..hi][k - lo] == s[k];
  }

  /** With the first `@` at `at`, the parts check implies the pattern. */
  lemma PartsGivePattern(s: string, at: nat)
    requires at < |s| && s[at] == '@' && '@' !in s[..at]
    requires forall k :: 0 <= k < |s| ==> !IsWhitespace(s[k])
    requires var domain := s[at + 1..]; at > 0 && '@' !in domain && |domain| >= 3 && '.' in domain[1..|domain| - 1]
    ensures MatchesPattern(s)
  {
    var domain := s[at + 1..];
    var inner := domain[1..|domain| - 1];
    var k :| 0 <= k < |inner| && inner[k] == '.';
    var dot := at + 2 + k;
    assert s[dot] == '.';
    var left, mid, right := s[..at], s[at + 1..dot], s[dot + 1..];
    forall m | 0 <= m < |left| ensures !IsWhitespace(left[m]) && left[m] != '@' {
      assert left[m] == s[m];
    }
    forall m | 0 <= m < |mid| ensures !IsWhitespace(mid[m]) && mid[m] != '@' {
      assert mid[m] == domain[m] == s[at + 1 + m];
    }
    forall m | 0 <= m < |right| ensures !IsWhitespace(right[m]) && right[m] != '@' {
      assert right[m] == domain[m + k + 2] == s[dot + 1 + m];
    }
  }

  /** An `@` with a plain run before it is the first `@`. */
  lemma FirstAtIsUnique(s: string, at: nat, a: nat)
    requires at < |s| && s[at] == '@' && '@' !in s[..at]
    requires a < |s| && s[a] == '@' && Plain(s[..a])
    ensures a == at
  {
    assert forall m :: 0 <= m < at ==> s[..at][m] == s[m];
    assert forall m :: 0 <= m < a ==> s[..a][m] == s[m];
  }

  /** Two plain runs around a dot make a domain with no `@` and a dot strictly inside it. */
  lemma DomainFromRuns(s: string, at: nat, dot: nat)
    requires at < dot < |s| && s[dot] == '.'
    requires Plain(s[at + 1..dot]) && Plain(s[dot + 1..])
    ensures var domain := s[at + 1..]; '@' !in domain && |domain| >= 3 && '.' in domain[1..|domain| - 1]
  {
    var domain := s[at + 1..];
    var mid, right := s[at + 1..dot], s[dot + 1..];
    forall m | 0 <= m < |domain| ensures domain[m] != '@' {
      if m < dot - at - 1 {
        assert domain[m] == mid[m];
      } else if m > dot - at - 1 {
        assert domain[m] == right[m - (dot - at)];
      }
    }
    assert domain[1..|domain| - 1][dot - at - 2] == '.';
  }

  /** With the first `@` at `at`, the pattern implies the parts check. */
  lemma PatternGivesParts(s: string, at: nat)
    requires at < |s| && s[at] == '@' && '@' !in s[..at]
    requires MatchesPattern(s)
    ensures var domain := s[at + 1..]; at > 0 && '@' !in domain && |domain| >= 3 && '.' in domain[1..|domain| - 1]
  {
    var a, dot :| 0 <= a < dot < |s| && s[a] == '@' && s[dot] == '.'
      && Plain(s[..a]) && Plain(s[a + 1..dot]) && Plain(s[dot + 1..]);
    FirstAtIsUnique(s, at, a);
    DomainFromRuns(s, at, dot);
  }

  /** With the first `@` at `at`, the pattern holds exactly when the parts check does. */
  lemma PatternByParts(s: string, at: nat)
    requires at < |s| && s[at] == '@' && '@' !in s[..at]
    requires forall k :: 0 <= k < |s| ==> !IsWhitespace(s[k])
    ensures var domain := s[at + 1..];
      MatchesPattern(s) <==> at > 0 && '@' !in domain && |domain| >= 3 && '.' in domain[1..|domain| - 1]
  {
    var domain := s[at + 1..];
    if at > 0 && '@' !in domain && |domain| >= 3 && '.' in domain[1..|domain| - 1] {
      PartsGivePattern(s, at);
    }
    if MatchesPattern(s) {
      PatternGivesParts(s, at);
    }
  }

  /** The empty field is rejected, and so are a missing domain dot and a doubled `@`. */
  lemma ValidEmailExamples()
    ensures !ValidEmail("")
    ensures ValidEmail("a@b.co")
    ensures !ValidEmail("a@b")
    ensures !ValidEmail("a@.b")
  {
    var good := "a@b.co";
    assert good[1] == '@' && good[3] == '.';
    assert good[..1] == "a" && good[2..3] == "b" && good[4..] == "co";
    assert MatchesPattern(good);
    assert IndexOf("a@b", '@') == 1;
    assert IndexOf("a@.b", '@') == 1;
    assert "a@.b"[2..][1..1] == [];
  }

  class LandingScreen {
    var email: string
    var error: string

    /** The field and the error both start empty. */
    constructor ()
      ensures email == "" && error == ""
    {
      email := "";
      error := "";
    }

    /** The error line is shown while `error` is non-empty. */
    predicate ShowsError()
      reads this
    {
      error != ""
    }

    /** Every edit stores the text and clears the error. */
    method Edit(text: string)
      modifies this
      ensures email == text && error == ""
    {
      email := text;
      error := "";
    }

    /**
     * `handleSubmit`: a rejected email sets the fixed error and starts
     * nothing; an accepted one is handed to `onStart` unchanged.
     */
    method Submit() returns (started: Option<string>)
      modifies this
      ensures email == old(email)
      ensures !ValidEmail(email) ==> started == None && error == InvalidEmailMessage
      ensures ValidEmail(email) ==> started == Some(email) && error == old(error)
    {
      if email == "" || !ValidEmail(email) {
        error := InvalidEmailMessage;
        return None;
      }
      return Some(email);
    }
  }
}
