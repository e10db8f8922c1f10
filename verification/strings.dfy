/** Text operations used to state properties of the install paths: suffix
    tests and the left-to-right, non-overlapping replacement of every
    occurrence of a pattern that Rust's `str::replace` performs. */
module Strings {

  /** `s` ends with `suffix`. */
  predicate EndsWith(s: string, suffix: string) {
    |suffix| <= |s| && s[|s| - |suffix|..] == suffix
  }

  /** Replaces every occurrence of `pattern` in `s` with `with`, scanning from
      the left and resuming after each replaced occurrence. The pattern is
      not empty. */
  function Replace(s: string, pattern: string, with: string): string
    requires |pattern| > 0
    decreases |s|
  {
    if |s| < |pattern| then s
    else if s[..|pattern|] == pattern then with + Replace(s[|pattern|..], pattern, with)
    else [s[0]] + Replace(s[1..], pattern, with)
  }

  /** A text in which the pattern's first character never appears holds no
      occurrence, so replacing leaves it unchanged. */
  lemma {:induction false} ReplaceWithoutFirstChar(s: string, pattern: string, with: string)
    requires |pattern| > 0 && pattern[0] !in s
    ensures Replace(s, pattern, with) == s
    decreases |s|
  {
    if |s| < |pattern| {
    } else {
      assert s[..|pattern|][0] == s[0] != pattern[0];
      assert forall c :: c in s[1..] ==> c in s;
      ReplaceWithoutFirstChar(s[1..], pattern, with);
      assert s == [s[0]] + s[1..];
    }
  }

  /** A text that starts with a character other than the pattern's first
      keeps that character and is scanned on from the next one. */
  lemma ReplaceSkipsMismatch(s: string, pattern: string, with: string)
    requires |pattern| > 0 && |s| >= |pattern| && s[0] != pattern[0]
    ensures Replace(s, pattern, with) == [s[0]] + Replace(s[1..], pattern, with)
  {
    assert s[..|pattern|][0] == s[0];
  }

  /** A text that starts with the pattern has it replaced, and the scan
      resumes right after it. */
  lemma ReplaceAtStart(pattern: string, with: string, rest: string)
    requires |pattern| > 0
    ensures Replace(pattern + rest, pattern, with) == with + Replace(rest, pattern, with)
  {
    var s := pattern + rest;
    assert s[..|pattern|] == pattern;
    assert s[|pattern|..] == rest;
  }

  /** Splitting off the first character of a non-empty `prefix` in
      `prefix + middle + rest`. */
  lemma ConcatUncons(prefix: string, middle: string, rest: string)
    requires |prefix| > 0
    ensures (prefix + middle + rest)[0] == prefix[0]
    ensures (prefix + middle + rest)[1..] == prefix[1..] + middle + rest
    ensures prefix + middle + rest == [prefix[0]] + (prefix[1..] + middle + rest)
  {
  }

  /** When the pattern's first character does not appear in `prefix`, the
      first occurrence of the pattern in `prefix + pattern + rest` is the one
      right after `prefix`, so it is replaced and the scan resumes on
      `rest`. */
  lemma {:induction false} ReplaceAfterPrefix(prefix: string, pattern: string, with: string, rest: string)
    requires |pattern| > 0 && pattern[0] !in prefix
    ensures Replace(prefix + pattern + rest, pattern, with) == prefix + with + Replace(rest, pattern, with)
    decreases |prefix|
  {
    if |prefix| == 0 {
      assert prefix + pattern + rest == pattern + rest;
      ReplaceAtStart(pattern, with, rest);
    } else {
      var tail, done := prefix[1..], Replace(rest, pattern, with);
      assert pattern[0] !in tail by {
        assert forall c :: c in tail ==> c in prefix;
      }
      ReplaceAfterPrefix(tail, pattern, with, rest);
      ConcatUncons(prefix, pattern, rest);
      ReplaceSkipsMismatch(prefix + pattern + rest, pattern, with);
      ConcatUncons(prefix, with, done);
    }
  }
}
