/** The two pieces of Python string semantics the scanner relies on:
    `str.strip()` with no argument and the `in` substring test. */
module PyText {

  /** Python's `str.isspace()` for a single code point: the characters whose
      Unicode bidirectional class is WS, B or S, or whose category is Zs. */
  predicate IsSpace(c: char) {
    || ('\t' <= c <= '\r')                    // tab, newline, vertical tab, form feed, carriage return
    || ('\U{1C}' <= c <= '\U{1F}')            // the four information separators
    || c == ' ' || c == '\U{85}' || c == '\U{A0}' || c == '\U{1680}'
    || ('\U{2000}' <= c <= '\U{200A}')
    || c == '\U{2028}' || c == '\U{2029}' || c == '\U{202F}' || c == '\U{205F}' || c == '\U{3000}'
  }

  /** Every character of `s` is whitespace (this includes the empty string). */
  predicate Blank(s: string) {
    forall i :: 0 <= i < |s| ==> IsSpace(s[i])
  }

  /** Python's `needle in hay` for strings. */
  predicate Contains(hay: string, needle: string) {
    exists i | 0 <= i <= |hay| :: needle <= hay[i..]
  }

  /** Python's `s.lstrip()`: a suffix of `s` that is what remains after the
      leading whitespace, and that does not itself start with whitespace. */
  function TrimStart(s: string): (r: string)
    ensures |r| <= |s| && r == s[|s| - |r|..]
    ensures forall i :: 0 <= i < |s| - |r| ==> IsSpace(s[i])
    ensures r != [] ==> !IsSpace(r[0])
    decreases |s|
  {
    if s != [] && IsSpace(s[0]) then TrimStart(s[1..]) else s
  }

  /** Python's `s.rstrip()`: a prefix of `s` that is what remains after the
      trailing whitespace, and that does not itself end with whitespace. */
  function TrimEnd(s: string): (r: string)
    ensures |r| <= |s| && r == s[..|r|]
    ensures forall i :: |r| <= i < |s| ==> IsSpace(s[i])
    ensures r != [] ==> !IsSpace(r[|r| - 1])
    decreases |s|
  {
    if s != [] && IsSpace(s[|s| - 1]) then TrimEnd(s[..|s| - 1]) else s
  }

  /** Python's `s.strip()`: the slice of `s` between its leading and its
      trailing whitespace. `Lead(s)` is where that slice starts. */
  function Strip(s: string): (r: string)
    ensures Lead(s) + |r| <= |s| && r == s[Lead(s)..Lead(s) + |r|]
    ensures forall i :: 0 <= i < Lead(s) ==> IsSpace(s[i])
    ensures forall i :: Lead(s) + |r| <= i < |s| ==> IsSpace(s[i])
    ensures r != [] ==> !IsSpace(r[0]) && !IsSpace(r[|r| - 1])
  {
    TrimEnd(TrimStart(s))
  }

  /** The number of leading whitespace characters of `s`. */
  function Lead(s: string): nat
    ensures Lead(s) <= |s|
  {
    |s| - |TrimStart(s)|
  }

  /** `not s.strip()` holds exactly when `s` is empty or all whitespace. */
  lemma StripEmptyIffBlank(s: string)
    ensures Strip(s) == [] <==> Blank(s)
  {
  }

  /** An occurrence inside the slice `s[a..]` is an occurrence in `s`. */
  lemma ContainsInSlice(s: string, a: nat, t: string, needle: string)
    requires a + |t| <= |s| && t == s[a..a + |t|] && Contains(t, needle)
    ensures Contains(s, needle)
  {
    var i :| 0 <= i <= |t| && needle <= t[i..];
    assert needle <= s[a + i..] by {
      forall k | 0 <= k < |needle| ensures s[a + i..][k] == needle[k] {
        assert t[i..][k] == t[i + k] == s[a + i + k];
      }
    }
  }

  /** An occurrence in `s` of a needle with non-whitespace ends lies inside
      any slice `s[a..a + |t|]` that only whitespace surrounds. */
  lemma ContainsInCore(s: string, a: nat, t: string, needle: string)
    requires a + |t| <= |s| && t == s[a..a + |t|]
    requires forall i :: 0 <= i < a ==> IsSpace(s[i])
    requires forall i :: a + |t| <= i < |s| ==> IsSpace(s[i])
    requires needle != [] && !IsSpace(needle[0]) && !IsSpace(needle[|needle| - 1])
    requires Contains(s, needle)
    ensures Contains(t, needle)
  {
    var n := |needle|;
    var j :| 0 <= j <= |s| && needle <= s[j..];
    assert s[j] == needle[0];
    assert s[j + n - 1] == needle[n - 1];
    assert a <= j && j + n <= a + |t|;
    assert needle <= t[j - a..] by {
      forall k | 0 <= k < n ensures t[j - a..][k] == needle[k] {
        assert s[j..][k] == s[j + k];
      }
    }
  }

  /** A needle that neither starts nor ends with whitespace occurs in the
      stripped string exactly when it occurs in the original one, so
      stripping before the substring test changes nothing. */
  lemma ContainsAfterStrip(s: string, needle: string)
    requires needle != [] && !IsSpace(needle[0]) && !IsSpace(needle[|needle| - 1])
    ensures Contains(Strip(s), needle) <==> Contains(s, needle)
  {
    var r, a := Strip(s), Lead(s);
    if Contains(r, needle) {
      ContainsInSlice(s, a, r, needle);
    }
    if Contains(s, needle) {
      ContainsInCore(s, a, r, needle);
    }
  }
}
