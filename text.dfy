/** Python's `str.strip()` with no argument, restricted to the ASCII range:
    the characters `str.isspace` accepts there are TAB, LF, VT, FF, CR, the
    four separators FS, GS, RS, US and SPACE. */
module Text {

  predicate IsSpace(c: char) {
    ('\t' <= c <= '\r') || ('\U{1C}' <= c <= '\U{1F}') || c == ' '
  }

  predicate AllSpace(t: string) {
    forall k :: 0 <= k < |t| ==> IsSpace(t[k])
  }

  /** Neither starts nor ends with whitespace. */
  predicate Trimmed(t: string) {
    t == [] || (!IsSpace(t[0]) && !IsSpace(t[|t| - 1]))
  }

  /** `r` is the suffix of `s` left after dropping all leading whitespace:
      only whitespace goes before it, and it does not start with whitespace. */
  predicate LeftTrimmed(s: string, r: string) {
    && |r| <= |s| && r == s[|s| - |r|..]
    && AllSpace(s[..|s| - |r|])
    && (r == [] || !IsSpace(r[0]))
  }

  /** `r` is the prefix of `s` left after dropping all trailing whitespace:
      only whitespace comes after it, and it does not end with whitespace. */
  predicate RightTrimmed(s: string, r: string) {
    && |r| <= |s| && r == s[..|r|]
    && AllSpace(s[|r|..])
    && (r == [] || !IsSpace(r[|r| - 1]))
  }

  /** `s.lstrip()`. */
  function TrimStart(s: string): (r: string)
    ensures LeftTrimmed(s, r)
  {
    if s != [] && IsSpace(s[0]) then
      var r := TrimStart(s[1..]);
      assert forall k :: 1 <= k < |s| - |r| ==> s[k] == s[1..][..|s| - 1 - |r|][k - 1];
      r
    else s
  }

  /** `s.rstrip()`. */
  function TrimEnd(s: string): (r: string)
    ensures RightTrimmed(s, r)
  {
    if s != [] && IsSpace(s[|s| - 1]) then
      var r := TrimEnd(s[..|s| - 1]);
      assert forall k :: |r| <= k < |s| - 1 ==> s[k] == s[..|s| - 1][|r|..][k - |r|];
      r
    else s
  }

  /** `s` is `core` with only whitespace added before and after it. */
  predicate Surrounds(pre: string, core: string, post: string, s: string) {
    AllSpace(pre) && AllSpace(post) && s == pre + core + post
  }

  /** `s.strip()`: `s` is the result surrounded by whitespace only, and the
      result itself is trimmed. */
  function Strip(s: string): (r: string)
    ensures Trimmed(r)
    ensures exists pre, post :: Surrounds(pre, r, post, s)
  {
    var t := TrimStart(s);
    var r := TrimEnd(t);
    TrimmedCore(s, t, r);
    r
  }

  /** A suffix of `s` left by dropping leading whitespace, cut down to a prefix
      by dropping trailing whitespace, is a trimmed core of `s`. */
  lemma TrimmedCore(s: string, t: string, r: string)
    requires LeftTrimmed(s, t) && RightTrimmed(t, r)
    ensures Trimmed(r)
    ensures Surrounds(s[..|s| - |t|], r, t[|r|..], s)
  {
    if r != [] {
      assert r[0] == t[0];
    }
    var pre, post := s[..|s| - |t|], t[|r|..];
    assert s == pre + t;
    assert t == r + post;
    assert s == pre + (r + post);
  }

  /** Dropping leading whitespace stops exactly where the trimmed core begins. */
  lemma {:induction false} TrimStartPast(pre: string, rest: string)
    requires AllSpace(pre)
    requires rest == [] || !IsSpace(rest[0])
    ensures TrimStart(pre + rest) == rest
  {
    if pre != [] {
      assert (pre + rest)[1..] == pre[1..] + rest;
      TrimStartPast(pre[1..], rest);
    } else {
      assert pre + rest == rest;
    }
  }

  /** Dropping trailing whitespace stops exactly where the trimmed core ends. */
  lemma {:induction false} TrimEndPast(rest: string, post: string)
    requires AllSpace(post)
    requires rest == [] || !IsSpace(rest[|rest| - 1])
    ensures TrimEnd(rest + post) == rest
  {
    if post != [] {
      assert (rest + post)[..|rest + post| - 1] == rest + post[..|post| - 1];
      TrimEndPast(rest, post[..|post| - 1]);
    } else {
      assert rest + post == rest;
    }
  }

  /** `strip` is determined by its contract: whatever trimmed core is
      surrounded by whitespace only is what `strip` returns. */
  lemma StripUnique(pre: string, core: string, post: string)
    requires AllSpace(pre) && AllSpace(post) && Trimmed(core)
    ensures Strip(pre + core + post) == core
  {
    if core == [] {
      assert pre + core + post == pre + post;
      assert AllSpace(pre + post);
      TrimStartPast(pre + post, []);
      assert pre + post + [] == pre + post;
    } else {
      assert pre + core + post == pre + (core + post);
      TrimStartPast(pre, core + post);
      TrimEndPast(core, post);
    }
  }

  /** Stripping twice is stripping once. */
  lemma StripIdempotent(s: string)
    ensures Strip(Strip(s)) == Strip(s)
  {
    StripKeepsTrimmed(Strip(s));
  }

  /** Whitespace-only text strips to "". */
  lemma StripAllSpace(s: string)
    requires AllSpace(s)
    ensures Strip(s) == []
  {
    assert s + [] + [] == s;
    StripUnique(s, [], []);
  }

  /** Trimmed text is left as it is. */
  lemma StripKeepsTrimmed(s: string)
    requires Trimmed(s)
    ensures Strip(s) == s
  {
    assert [] + s + [] == s;
    StripUnique([], s, []);
  }
}
