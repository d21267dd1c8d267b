/**
 This module models the string operations the parser and the upload
 loop rely on: Python's argument-less `str.strip()`, `str.startswith` and
 `str.endswith`. Strings are sequences of Unicode scalar values, so
 `|s|` is Python's `len(s)`.
 */
module Text {

  /** The characters for which Python's `str.isspace()` holds, i.e. what
      `strip()` with no argument removes. The ideographic space U+3000 is
      among them, which matters for Chinese text. */
  predicate IsSpace(c: char) {
    || c == ' ' || c == '\t' || c == '\n' || c == '\r'
    || c == '\U{000B}' || c == '\U{000C}'
    || ('\U{001C}' <= c <= '\U{001F}')
    || c == '\U{0085}' || c == '\U{00A0}' || c == '\U{1680}'
    || ('\U{2000}' <= c <= '\U{200A}')
    || c == '\U{2028}' || c == '\U{2029}' || c == '\U{202F}'
    || c == '\U{205F}' || c == '\U{3000}'
  }

  /** Every character of `s` is whitespace (true of ""); Python's
      `not s.strip()`. */
  predicate AllSpace(s: string) {
    s == [] || (IsSpace(s[0]) && AllSpace(s[1..]))
  }

  /** `s` neither begins nor ends with whitespace. */
  predicate Trimmed(s: string) {
    s == [] || (!IsSpace(s[0]) && !IsSpace(s[|s| - 1]))
  }

  /** Python's `s.strip()`: `s` with whitespace removed from both ends. */
  function Trim(s: string): (r: string)
    ensures Trimmed(r)
    ensures |r| <= |s|
    decreases |s|
  {
    if |s| > 0 && IsSpace(s[0]) then Trim(s[1..])
    else if |s| > 0 && IsSpace(s[|s| - 1]) then Trim(s[..|s| - 1])
    else s
  }

  /** Whitespace runs concatenate to a whitespace run. */
  lemma {:induction false} AllSpaceConcat(a: string, b: string)
    requires AllSpace(a) && AllSpace(b)
    ensures AllSpace(a + b)
  {
    if a != [] {
      AllSpaceConcat(a[1..], b);
      assert (a + b)[0] == a[0] && (a + b)[1..] == a[1..] + b;
    } else {
      assert a + b == b;
    }
  }

  /** `s` is the whitespace run `s[..i]`, then `r`, then a whitespace run. */
  ghost predicate InfixAt(r: string, s: string, i: nat) {
    && i + |r| <= |s|
    && s[i..i + |r|] == r
    && AllSpace(s[..i]) && AllSpace(s[i + |r|..])
  }

  /** A leading whitespace character widens the leading run. */
  lemma InfixAtFront(r: string, s: string, i: nat)
    requires |s| > 0 && IsSpace(s[0]) && InfixAt(r, s[1..], i)
    ensures InfixAt(r, s, i + 1)
  {
    var s' := s[1..];
    assert s[..i + 1] == [s[0]] + s'[..i];
    assert s[i + 1..i + 1 + |r|] == s'[i..i + |r|];
    assert s[i + 1 + |r|..] == s'[i + |r|..];
  }

  /** A trailing whitespace character widens the trailing run. */
  lemma InfixAtBack(r: string, s: string, i: nat)
    requires |s| > 0 && IsSpace(s[|s| - 1]) && InfixAt(r, s[..|s| - 1], i)
    ensures InfixAt(r, s, i)
  {
    var s' := s[..|s| - 1];
    assert s[..i] == s'[..i];
    assert s[i..i + |r|] == s'[i..i + |r|];
    assert s[i + |r|..] == s'[i + |r|..] + [s[|s| - 1]];
    AllSpaceConcat(s'[i + |r|..], [s[|s| - 1]]);
  }

  /** `strip()` keeps an infix of `s` and cuts only whitespace: `s` is a
      whitespace run, then `Trim(s)`, then a whitespace run. */
  lemma {:induction false} TrimIsInfix(s: string)
    ensures exists i: nat :: InfixAt(Trim(s), s, i)
    decreases |s|
  {
    var r := Trim(s);
    if |s| > 0 && IsSpace(s[0]) {
      TrimIsInfix(s[1..]);
      var i: nat :| InfixAt(r, s[1..], i);
      InfixAtFront(r, s, i);
    } else if |s| > 0 && IsSpace(s[|s| - 1]) {
      TrimIsInfix(s[..|s| - 1]);
      var i: nat :| InfixAt(r, s[..|s| - 1], i);
      InfixAtBack(r, s, i);
    } else {
      assert s[..0] == [] && s[|s|..] == [] && s[0..|s|] == s;
      assert InfixAt(r, s, 0);
    }
  }

  /** A string strips to "" exactly when it is all whitespace. */
  lemma {:induction false} TrimEmptyIffAllSpace(s: string)
    ensures Trim(s) == [] <==> AllSpace(s)
    decreases |s|
  {
    if |s| > 0 && IsSpace(s[0]) {
      TrimEmptyIffAllSpace(s[1..]);
    } else if |s| > 0 && IsSpace(s[|s| - 1]) {
      var s' := s[..|s| - 1];
      TrimEmptyIffAllSpace(s');
      assert s'[0] == s[0];
    }
  }

  /** A stripped string is its own strip. */
  lemma TrimOfTrimmed(s: string)
    requires Trimmed(s)
    ensures Trim(s) == s
  {
  }

  /** Python's `s.startswith(prefix)`. */
  predicate StartsWith(s: string, prefix: string) {
    |prefix| <= |s| && s[..|prefix|] == prefix
  }

  /** `startswith` holds exactly when `s` is `prefix` followed by some
      rest. */
  lemma StartsWithIffPrefix(s: string, prefix: string)
    ensures StartsWith(s, prefix) <==> exists rest :: s == prefix + rest
  {
    if StartsWith(s, prefix) {
      assert s == prefix + s[|prefix|..];
    }
  }

  /** Python's `s.endswith(suffix)`. */
  predicate EndsWith(s: string, suffix: string) {
    |suffix| <= |s| && s[|s| - |suffix|..] == suffix
  }

  /** `endswith` holds exactly when `s` is some front followed by
      `suffix`. */
  lemma EndsWithIffSuffix(s: string, suffix: string)
    ensures EndsWith(s, suffix) <==> exists front :: s == front + suffix
  {
    if EndsWith(s, suffix) {
      assert s == s[..|s| - |suffix|] + suffix;
    }
  }
}
