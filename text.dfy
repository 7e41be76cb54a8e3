/** The three string operations the phone-number check is built from:
    substring removal (a single left-to-right pass, like Python's
    `str.replace(pattern, "")`), whitespace stripping at both ends
    (`str.strip()`) and the all-digits test (`str.isdigit()`). */
module Text {

  /** The characters `str.strip()` removes, restricted to ASCII: space, tab,
      line feed, vertical tab, form feed, carriage return and the four
      separator controls 0x1C-0x1F. */
  predicate IsSpace(c: char) {
    c == ' ' || '\t' <= c <= '\r' || '\U{1C}' <= c <= '\U{1F}'
  }

  predicate AllSpace(s: string) {
    forall i :: 0 <= i < |s| ==> IsSpace(s[i])
  }

  predicate IsDigit(c: char) {
    '0' <= c <= '9'
  }

  /** `isdigit()`: at least one character, all digits. A digit string
      holds neither whitespace nor a '+'. */
  predicate IsDigitString(s: string)
    ensures IsDigitString(s) ==> s != [] && '+' !in s && !IsSpace(s[0]) && !IsSpace(s[|s| - 1])
  {
    |s| > 0 && forall i :: 0 <= i < |s| ==> IsDigit(s[i])
  }

  /** Removes every non-overlapping occurrence of `pattern`, scanning from the
      left; text that forms a new occurrence once one is removed stays. */
  function RemoveAll(s: string, pattern: string): (r: string)
    requires |pattern| > 0
    ensures |r| <= |s|
    ensures multiset(r) <= multiset(s)
    decreases |s|
  {
    if |s| < |pattern| then s
    else if s[..|pattern|] == pattern then
      assert s == s[..|pattern|] + s[|pattern|..];
      RemoveAll(s[|pattern|..], pattern)
    else
      assert s == [s[0]] + s[1..];
      [s[0]] + RemoveAll(s[1..], pattern)
  }

  /** Text that does not contain the pattern's first character passes through. */
  lemma {:induction false} RemoveAllAbsent(s: string, pattern: string)
    requires |pattern| > 0 && pattern[0] !in s
    ensures RemoveAll(s, pattern) == s
    decreases |s|
  {
    if |s| >= |pattern| {
      assert s[..|pattern|][0] == s[0];
      RemoveAllAbsent(s[1..], pattern);
    }
  }

  /** A prefix free of the pattern's first character is kept as it is, and the
      removal continues on the rest. */
  lemma {:induction false} RemoveAllKeepsPrefix(a: string, b: string, pattern: string)
    requires |pattern| > 0 && pattern[0] !in a
    ensures RemoveAll(a + b, pattern) == a + RemoveAll(b, pattern)
    decreases |a|
  {
    if a == [] {
      assert a + b == b;
    } else {
      var s := a + b;
      assert s[0] == a[0] && s[1..] == a[1..] + b;
      assert a[0] != pattern[0] by {
        assert a[0] in a;
      }
      assert pattern[0] !in a[1..] by {
        forall c | c in a[1..] ensures c in a { }
      }
      if |s| >= |pattern| {
        assert s[..|pattern|] != pattern by {
          assert s[..|pattern|][0] == a[0];
        }
        assert RemoveAll(s, pattern) == [a[0]] + RemoveAll(a[1..] + b, pattern);
        RemoveAllKeepsPrefix(a[1..], b, pattern);
        assert a == [a[0]] + a[1..];
      } else {
        assert RemoveAll(b, pattern) == b;
      }
    }
  }

  /** A character survives the removal unless an occurrence of the pattern
      swallows it: that needs the character to start an occurrence, or to
      equal a later character of the pattern. */
  lemma {:induction false} RemoveAllKeeps(s: string, pattern: string, k: nat)
    requires |pattern| > 0 && k < |s|
    requires s[k] !in pattern[1..]
    requires !(k + |pattern| <= |s| && s[k..k + |pattern|] == pattern)
    ensures s[k] in RemoveAll(s, pattern)
    decreases |s|
  {
    var n := |pattern|;
    if |s| < n {
    } else if s[..n] == pattern {
      assert s[n..][k - n] == s[k];
      assert k + n <= |s| ==> s[n..][k - n..k] == s[k..k + n];
      RemoveAllKeeps(s[n..], pattern, k - n);
    } else if k == 0 {
      assert RemoveAll(s, pattern) == [s[0]] + RemoveAll(s[1..], pattern);
    } else {
      assert s[1..][k - 1] == s[k];
      assert k + n <= |s| ==> s[1..][k - 1..k - 1 + n] == s[k..k + n];
      RemoveAllKeeps(s[1..], pattern, k - 1);
    }
  }

  /** An occurrence at the front is dropped. */
  lemma RemoveAllDropsLeading(b: string, pattern: string)
    requires |pattern| > 0
    ensures RemoveAll(pattern + b, pattern) == RemoveAll(b, pattern)
  {
    assert (pattern + b)[..|pattern|] == pattern;
    assert (pattern + b)[|pattern|..] == b;
  }

  /** Drops leading whitespace. */
  function TrimStart(s: string): (r: string)
    ensures |r| <= |s| && r == s[|s| - |r|..]
    ensures AllSpace(s[..|s| - |r|])
    ensures r != [] ==> !IsSpace(r[0])
  {
    if s != [] && IsSpace(s[0]) then TrimStart(s[1..]) else s
  }

  /** Drops trailing whitespace. */
  function TrimEnd(s: string): (r: string)
    ensures |r| <= |s| && r == s[..|r|]
    ensures AllSpace(s[|r|..])
    ensures r != [] ==> !IsSpace(r[|r| - 1])
  {
    if s != [] && IsSpace(s[|s| - 1]) then TrimEnd(s[..|s| - 1]) else s
  }

  /** Python's `str.strip()` with no argument: a slice of the input that
      neither starts nor ends with whitespace. */
  function Strip(s: string): (r: string)
    ensures |r| <= |s|
    ensures r != [] ==> !IsSpace(r[0]) && !IsSpace(r[|r| - 1])
  {
    TrimEnd(TrimStart(s))
  }

  /** Stripping yields the longest slice of `s` that neither starts nor ends
      with whitespace: what lies outside it is all whitespace. */
  lemma StripIsCore(s: string)
    ensures exists i :: 0 <= i <= |s| - |Strip(s)| &&
              Strip(s) == s[i..i + |Strip(s)|] &&
              AllSpace(s[..i]) && AllSpace(s[i + |Strip(s)|..])
    ensures Strip(s) != [] ==> !IsSpace(Strip(s)[0]) && !IsSpace(Strip(s)[|Strip(s)| - 1])
  {
    var t := TrimStart(s);
    var r := Strip(s);
    var i := |s| - |t|;
    assert t == s[i..];
    assert r == t[..|r|];
    assert r == s[i..i + |r|];
    assert s[i + |r|..] == t[|r|..];
    if r != [] {
      assert r[0] == t[0];
    }
  }

  /** Every character that is not whitespace survives stripping. */
  lemma StripKeepsNonSpace(s: string, k: nat) returns (j: nat)
    requires k < |s| && !IsSpace(s[k])
    ensures j < |Strip(s)| && Strip(s)[j] == s[k]
  {
    var t := TrimStart(s);
    var i := |s| - |t|;
    assert t[k - i] == s[k];
    var r := TrimEnd(t);
    j := k - i;
    assert r[j] == t[j];
  }

  /** Whitespace around a core that does not start or end with whitespace is
      removed, and the core is returned unchanged. */
  lemma {:induction false} TrimStartPadded(pre: string, core: string)
    requires AllSpace(pre)
    requires core != [] && !IsSpace(core[0])
    ensures TrimStart(pre + core) == core
    decreases |pre|
  {
    if pre == [] {
      assert pre + core == core;
    } else {
      assert (pre + core)[0] == pre[0];
      assert (pre + core)[1..] == pre[1..] + core;
      TrimStartPadded(pre[1..], core);
    }
  }

  lemma {:induction false} TrimEndPadded(core: string, post: string)
    requires AllSpace(post)
    requires core != [] && !IsSpace(core[|core| - 1])
    ensures TrimEnd(core + post) == core
    decreases |post|
  {
    if post == [] {
      assert core + post == core;
    } else {
      var s := core + post;
      assert s[|s| - 1] == post[|post| - 1];
      assert s[..|s| - 1] == core + post[..|post| - 1];
      TrimEndPadded(core, post[..|post| - 1]);
    }
  }

  lemma StripPadded(pre: string, core: string, post: string)
    requires AllSpace(pre) && AllSpace(post)
    requires core != [] && !IsSpace(core[0]) && !IsSpace(core[|core| - 1])
    ensures Strip(pre + core + post) == core
  {
    assert pre + core + post == pre + (core + post);
    TrimStartPadded(pre, core + post);
    TrimEndPadded(core, post);
  }
}
