/** The e-mail pattern of the registration form, `/^[^\s@]+@[^\s@]+\.[^\s@]+$/`,
    as a predicate on strings, and its reading as a shape of the address. */
module EmailFormat {
  import opened JsText

  /** A character the class `[^\s@]` accepts. */
  predicate PartChar(c: char) {
    !IsSpace(c) && c != '@'
  }

  /** A string the repetition `[^\s@]+` matches in full. */
  predicate Part(s: string) {
    |s| > 0 && forall i :: 0 <= i < |s| ==> PartChar(s[i])
  }

  /** The pattern matches `s` with its `@` at index `at` and its `\.` at index `dot`. */
  predicate MatchesAt(s: string, at: int, dot: int) {
    && 0 <= at < dot < |s|
    && s[at] == '@' && s[dot] == '.'
    && Part(s[..at]) && Part(s[at + 1..dot]) && Part(s[dot + 1..])
  }

  /** `emailRegex.test(s)`: some choice of `@` and `.` makes the whole string match. */
  predicate RegexTest(s: string) {
    exists at, dot | 0 <= at < dot < |s| :: MatchesAt(s, at, dot)
  }

  /** The address read as a shape: no space anywhere, a single `@` with text
      before it, and after it a `.` that is neither its first nor its last character. */
  predicate WellShaped(s: string) {
    && AllSpaceFree(s)
    && exists at | 0 < at < |s| :: s[at] == '@' && OnlyAtSign(s, at) && InnerDot(s[at + 1..])
  }

  predicate AllSpaceFree(s: string) {
    forall i :: 0 <= i < |s| ==> !IsSpace(s[i])
  }

  predicate OnlyAtSign(s: string, at: int) {
    forall i :: 0 <= i < |s| && i != at ==> s[i] != '@'
  }

  predicate InnerDot(d: string) {
    exists k :: 0 < k < |d| - 1 && d[k] == '.'
  }

  lemma RegexTestIffWellShaped(s: string)
    ensures RegexTest(s) <==> WellShaped(s)
  {
    if RegexTest(s) {
      var at, dot :| 0 <= at < dot < |s| && MatchesAt(s, at, dot);
      MatchImpliesShape(s, at, dot);
    }
    if WellShaped(s) {
      var at :| 0 < at < |s| && s[at] == '@' && OnlyAtSign(s, at) && InnerDot(s[at + 1..]);
      var d := s[at + 1..];
      var k :| 0 < k < |d| - 1 && d[k] == '.';
      var dot := at + 1 + k;
      assert s[dot] == '.';
      assert Part(s[..at]) by {
        forall i | 0 <= i < at ensures PartChar(s[..at][i]) {
          assert s[..at][i] == s[i];
        }
      }
      var domain, suffix := s[at + 1..dot], s[dot + 1..];
      assert Part(domain) by {
        forall i | 0 <= i < |domain| ensures PartChar(domain[i]) {
          assert domain[i] == s[at + 1 + i];
        }
      }
      assert Part(suffix) by {
        forall i | 0 <= i < |suffix| ensures PartChar(suffix[i]) {
          assert suffix[i] == s[dot + 1 + i];
        }
      }
      assert MatchesAt(s, at, dot);
    }
  }

  lemma MatchImpliesShape(s: string, at: int, dot: int)
    requires MatchesAt(s, at, dot)
    ensures WellShaped(s)
  {
    forall i | 0 <= i < |s| && i != at && i != dot ensures PartChar(s[i]) {
      if i < at {
        assert s[i] == s[..at][i];
      } else if i < dot {
        assert s[i] == s[at + 1..dot][i - at - 1];
      } else {
        assert s[i] == s[dot + 1..][i - dot - 1];
      }
    }
    assert OnlyAtSign(s, at);
    var d := s[at + 1..];
    assert d[dot - at - 1] == '.';
    assert InnerDot(d);
  }

  /** The pattern is tested on the untrimmed value, so a leading or trailing space rejects. */
  lemma {:induction false} SurroundingSpaceRejected(s: string)
    requires s != [] && (IsSpace(s[0]) || IsSpace(s[|s| - 1]))
    ensures !RegexTest(s)
  {
    RegexTestIffWellShaped(s);
  }

  /** A blank value never matches, so the "required" check covers every blank address. */
  lemma {:induction false} BlankRejected(s: string)
    requires Blank(s)
    ensures !RegexTest(s)
  {
    BlankIffAllSpace(s);
    RegexTestIffWellShaped(s);
    if s != [] {
      assert IsSpace(s[0]);
    }
  }
}
