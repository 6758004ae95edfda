/** The login form's input checks in src/App.jsx: `validateEmail` (the pattern
    /^[^\s@]+@[^\s@]+\.[^\s@]+$/) and the `trim()` blank test. */
module EmailCheck {

  import opened Seqs

  /** JavaScript's `\s`, which is also what `String.prototype.trim` strips:
      the WhiteSpace and LineTerminator characters of ECMAScript. */
  predicate IsWhitespace(c: char) {
    || c == '\t' || c == '\n' || c == '\U{000B}' || c == '\U{000C}' || c == '\r' || c == ' '
    || c == '\U{00A0}' || c == '\U{1680}' || ('\U{2000}' <= c <= '\U{200A}')
    || c == '\U{2028}' || c == '\U{2029}' || c == '\U{202F}' || c == '\U{205F}'
    || c == '\U{3000}' || c == '\U{FEFF}'
  }

  /** A character matched by `[^\s@]`. */
  predicate Plain(c: char) {
    !IsWhitespace(c) && c != '@'
  }

  /** A non-empty run matched by `[^\s@]+`. */
  ghost predicate Segment(s: string) {
    |s| > 0 && forall k :: 0 <= k < |s| ==> Plain(s[k])
  }

  /** The strings the pattern /^[^\s@]+@[^\s@]+\.[^\s@]+$/ matches: a run, '@',
      a run, '.', a run, where no run holds whitespace or '@'. */
  ghost predicate MatchesPattern(s: string) {
    exists i, j :: 0 < i < j < |s| - 1 && s[i] == '@' && s[j] == '.'
      && Segment(s[..i]) && Segment(s[i + 1..j]) && Segment(s[j + 1..])
  }

  /** `validateEmail`: no whitespace anywhere, exactly one '@' with something
      before it, and after it a '.' that is neither first nor last. */
  function ValidateEmail(s: string): bool {
    var at := IndexOf(s, '@');
    && 0 < at < |s|
    && (forall k :: 0 <= k < |s| ==> !IsWhitespace(s[k]))
    && (forall k :: at < k < |s| ==> s[k] != '@')
    && (exists k :: at + 1 < k < |s| - 1 && s[k] == '.')
  }

  /** A string `validateEmail` accepts matches the regular expression. */
  lemma ValidEmailMatches(s: string)
    requires ValidateEmail(s)
    ensures MatchesPattern(s)
  {
    var i := IndexOf(s, '@');
    var j :| i + 1 < j < |s| - 1 && s[j] == '.';
    var first, middle, last := s[..i], s[i + 1..j], s[j + 1..];
    assert Segment(first) by {
      forall k | 0 <= k < |first| ensures Plain(first[k]) {
        assert first[k] == s[k];
      }
    }
    assert Segment(middle) by {
      forall k | 0 <= k < |middle| ensures Plain(middle[k]) {
        assert middle[k] == s[i + 1 + k];
      }
    }
    assert Segment(last) by {
      forall k | 0 <= k < |last| ensures Plain(last[k]) {
        assert last[k] == s[j + 1 + k];
      }
    }
  }

  /** A string the regular expression matches passes `validateEmail`. */
  lemma MatchValidates(s: string, i: nat, j: nat)
    requires 0 < i < j < |s| - 1 && s[i] == '@' && s[j] == '.'
    requires Segment(s[..i]) && Segment(s[i + 1..j]) && Segment(s[j + 1..])
    ensures ValidateEmail(s)
  {
    var first, middle, last := s[..i], s[i + 1..j], s[j + 1..];
    forall k | 0 <= k < |s| ensures !IsWhitespace(s[k]) && (k != i ==> s[k] != '@') {
      if k < i {
        assert Plain(first[k]);
      } else if i < k < j {
        assert Plain(middle[k - i - 1]);
      } else if j < k {
        assert Plain(last[k - j - 1]);
      }
    }
    assert IndexOf(s, '@') == i;
    assert i + 1 < j by {
      assert |middle| > 0;
    }
  }

  /** `validateEmail` accepts exactly the strings the regular expression matches. */
  lemma ValidateEmailMatchesPattern(s: string)
    ensures ValidateEmail(s) <==> MatchesPattern(s)
  {
    if ValidateEmail(s) {
      ValidEmailMatches(s);
    }
    if MatchesPattern(s) {
      var i, j :| 0 < i < j < |s| - 1 && s[i] == '@' && s[j] == '.'
        && Segment(s[..i]) && Segment(s[i + 1..j]) && Segment(s[j + 1..]);
      MatchValidates(s, i, j);
    }
  }

  function TrimStart(s: string): (r: string)
    ensures |r| <= |s| && r == s[|s| - |r|..]
    ensures forall k :: 0 <= k < |s| - |r| ==> IsWhitespace(s[k])
    ensures r == [] || !IsWhitespace(r[0])
  {
    if s != [] && IsWhitespace(s[0]) then TrimStart(s[1..]) else s
  }

  function TrimEnd(s: string): (r: string)
    ensures |r| <= |s| && r == s[..|r|]
    ensures forall k :: |r| <= k < |s| ==> IsWhitespace(s[k])
    ensures r == [] || !IsWhitespace(r[|r| - 1])
  {
    if s != [] && IsWhitespace(s[|s| - 1]) then TrimEnd(s[..|s| - 1]) else s
  }

  /** `String.prototype.trim` */
  function Trim(s: string): string {
    TrimEnd(TrimStart(s))
  }

  /** `!email.trim()` holds exactly for strings made only of whitespace (the empty one included). */
  lemma TrimEmpty(s: string)
    ensures Trim(s) == [] <==> forall k :: 0 <= k < |s| ==> IsWhitespace(s[k])
  {
    var a := TrimStart(s);
    if Trim(s) == [] {
      forall k | 0 <= k < |s| ensures IsWhitespace(s[k]) {
        if k >= |s| - |a| {
          assert a[k - (|s| - |a|)] == s[k];
        }
      }
    } else {
      var r := Trim(s);
      assert !IsWhitespace(r[0]);
      assert r[0] == a[0] == s[|s| - |a|];
    }
  }

  /** A blank string never passes `validateEmail`. */
  lemma BlankIsInvalid(s: string)
    requires Trim(s) == []
    ensures !ValidateEmail(s)
  {
    TrimEmpty(s);
  }
}
