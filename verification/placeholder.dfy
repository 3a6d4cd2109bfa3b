/**
 * Recognition of a placeholder highlight: the JavaScript regular expression
 * `^\{\{(.+?)\}\}$` (no flags) applied to a whole string, and its capture group.
 */
module Placeholder {
  import opened Wrappers

  /** The characters JavaScript's `.` does not match when the `s` flag is off. */
  predicate IsLineTerminator(c: char) {
    c == '\n' || c == '\r' || c == '\U{2028}' || c == '\U{2029}'
  }

  /** Every character of `s` can be consumed by `.`. */
  predicate SingleLine(s: string) {
    forall i :: 0 <= i < |s| ==> !IsLineTerminator(s[i])
  }

  /** The placeholder text for a key: `{{key}}`. */
  function Wrap(key: string): string {
    "{{" + key + "}}"
  }

  /**
   * The key captured by `^\{\{(.+?)\}\}$`, or None when the string does not
   * match. Because `$` anchors the end, the lazy group can only stop in front
   * of the final `}}`: the key is everything between the first two and the
   * last two characters.
   */
  function PlaceholderKey(s: string): (r: Option<string>)
    ensures r.Some? ==> Wrap(r.value) == s && r.value != [] && SingleLine(r.value)
  {
    if 5 <= |s| && s[..2] == "{{" && s[|s| - 2..] == "}}" && SingleLine(s[2..|s| - 2])
    then Some(s[2..|s| - 2])
    else None
  }

  /** Wrapping a matchable key and matching again gives the key back. */
  lemma WrapThenMatch(key: string)
    requires key != [] && SingleLine(key)
    ensures PlaceholderKey(Wrap(key)) == Some(key)
  {
    var s := Wrap(key);
    assert s[..2] == "{{";
    assert s[|s| - 2..] == "}}";
    assert s[2..|s| - 2] == key;
  }

  /** A string matches with capture `key` exactly when it is `{{key}}` for a non-empty single-line key. */
  lemma PlaceholderKeyIff(s: string, key: string)
    ensures PlaceholderKey(s) == Some(key) <==> (s == Wrap(key) && key != [] && SingleLine(key))
  {
    if s == Wrap(key) && key != [] && SingleLine(key) {
      WrapThenMatch(key);
    }
  }

  /**
   * Partial matches do not count: text before the opening braces or after the
   * closing braces makes the whole string a non-placeholder.
   */
  lemma EmbeddedIsNotPlaceholder(before: string, key: string, after: string)
    requires (before != [] && before[0] != '{') || (after != [] && after[|after| - 1] != '}')
    ensures PlaceholderKey(before + Wrap(key) + after) == None
  {
    var s := before + Wrap(key) + after;
    if before != [] && before[0] != '{' {
      assert s[0] == before[0];
    } else {
      assert s[|s| - 1] == after[|after| - 1];
    }
  }

  /** A string whose last character is not `}` is never a placeholder. */
  lemma NoClosingBraceNoMatch(s: string)
    requires s == [] || s[|s| - 1] != '}'
    ensures PlaceholderKey(s) == None
  {
    assert 2 <= |s| ==> s[|s| - 2..][1] == s[|s| - 1];
  }

  /** The lazy group still runs to the final `}}`: `{{a}}b}}` captures `a}}b`. */
  lemma LazyGroupRunsToEnd()
    ensures PlaceholderKey("{{a}}b}}") == Some("a}}b")
  {
    assert Wrap("a}}b") == "{{a}}b}}";
    WrapThenMatch("a}}b");
  }

  /** Group length `n` is followed by `}}` and the end of the string. */
  predicate ClosesAt(s: string, n: int) {
    0 <= n && 2 + n <= |s| && s[2 + n..] == "}}"
  }

  /**
   * The backtracking search a regular-expression engine performs for
   * `^\{\{(.+?)\}\}$`: after the literal `{{`, the lazy group takes one
   * character, then one more each time `\}\}$` fails, and gives up when the
   * next character is a line terminator or the input is exhausted.
   */
  method MatchPlaceholder(s: string) returns (r: Option<string>)
    ensures r == PlaceholderKey(s)
  {
    if |s| < 2 || s[0] != '{' || s[1] != '{' {
      if 5 <= |s| {
        assert s[..2][0] == s[0] && s[..2][1] == s[1];
      }
      return None;
    }
    var n := 1;
    while 2 + n <= |s|
      invariant 1 <= n <= |s| - 1
      invariant SingleLine(s[2..1 + n])
      invariant forall m :: 1 <= m < n ==> !ClosesAt(s, m)
    {
      if IsLineTerminator(s[1 + n]) {
        // A final `}}` any earlier than the group's end would have closed the group.
        assert 5 <= |s| && s[|s| - 2..] == "}}" ==> ClosesAt(s, |s| - 4);
        assert n <= |s| - 4 ==> s[2..|s| - 2][n - 1] == s[1 + n];
        return None;
      }
      if s[2 + n..] == "}}" {
        assert ClosesAt(s, n);
        assert s[2..2 + n] == s[2..1 + n] + [s[1 + n]];
        assert s[..2] == "{{";
        return Some(s[2..2 + n]);
      }
      assert s[2..2 + n] == s[2..1 + n] + [s[1 + n]];
      n := n + 1;
    }
    assert 5 <= |s| && s[|s| - 2..] == "}}" ==> ClosesAt(s, |s| - 4);
    return None;
  }
}
