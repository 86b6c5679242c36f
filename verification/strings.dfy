/** The few pieces of Python's `str` behaviour the invoice code relies on:
    whitespace stripping, `lstrip` of one character, `split(c)[0]` and `join`. */
module Strings {
  import opened Wrappers

  /** Python truthiness of a value that is None or a string. */
  predicate Truthy(o: Option<string>) {
    o.Some? && o.value != ""
  }

  /** `s.startswith(pre)`. */
  predicate StartsWith(s: string, pre: string) {
    |pre| <= |s| && s[..|pre|] == pre
  }

  /** A string whose first character differs from the prefix's does not
      start with it. */
  lemma NotStartsWith(s: string, pre: string)
    requires |s| > 0 && |pre| > 0 && s[0] != pre[0]
    ensures !StartsWith(s, pre)
  {
    if |pre| <= |s| {
      assert s[..|pre|][0] == s[0];
    }
  }

  lemma ConcatRegroup(a: string, b: string, c: string, d: string)
    ensures a + b + c + d == a + (b + c + d)
  {
    assert (a + b + c + d)[..|a|] == a;
    assert (a + b + c + d)[|a|..] == b + c + d;
  }

  /** The middle of a concatenation of three. */
  lemma Between(a: string, m: string, b: string)
    ensures (a + m + b)[|a|..|a + m + b| - |b|] == m
  {
    assert (a + m + b)[..|a| + |m|] == a + m;
  }

  /** Python's `str.isspace` for a single character: the characters that
      `str.strip()` removes when called without arguments. */
  predicate IsSpace(c: char) {
    c == ' ' || '\t' <= c <= '\r' || '\U{1C}' <= c <= '\U{1F}'
    || c == '\U{85}' || c == '\U{A0}' || c == '\U{1680}'
    || '\U{2000}' <= c <= '\U{200A}' || c == '\U{2028}' || c == '\U{2029}'
    || c == '\U{202F}' || c == '\U{205F}' || c == '\U{3000}'
  }

  predicate AllSpace(s: string) {
    forall k :: 0 <= k < |s| ==> IsSpace(s[k])
  }

  /** No whitespace at either end. */
  predicate Trimmed(s: string) {
    s == [] || (!IsSpace(s[0]) && !IsSpace(s[|s| - 1]))
  }

  /** `s.lstrip()`: whitespace removed from the front. */
  function LStrip(s: string): string {
    if s != [] && IsSpace(s[0]) then LStrip(s[1..]) else s
  }

  /** `s.rstrip()`: whitespace removed from the back. */
  function RStrip(s: string): string {
    if s != [] && IsSpace(s[|s| - 1]) then RStrip(s[..|s| - 1]) else s
  }

  /** What `lstrip` leaves is the longest suffix not starting with whitespace. */
  lemma LStripSpec(s: string)
    ensures |LStrip(s)| <= |s| && LStrip(s) == s[|s| - |LStrip(s)|..]
    ensures LStrip(s) == [] || !IsSpace(LStrip(s)[0])
    ensures forall k :: 0 <= k < |s| - |LStrip(s)| ==> IsSpace(s[k])
  {
    LStripSuffix(s);
    LStripHead(s);
    LStripSpaces(s);
  }

  lemma {:induction false} LStripSuffix(s: string)
    ensures |LStrip(s)| <= |s| && LStrip(s) == s[|s| - |LStrip(s)|..]
  {
    if s != [] && IsSpace(s[0]) {
      LStripSuffix(s[1..]);
    }
  }

  lemma {:induction false} LStripHead(s: string)
    ensures LStrip(s) == [] || !IsSpace(LStrip(s)[0])
  {
    if s != [] && IsSpace(s[0]) {
      LStripHead(s[1..]);
    }
  }

  lemma {:induction false} LStripSpaces(s: string)
    ensures forall k :: 0 <= k < |s| - |LStrip(s)| ==> IsSpace(s[k])
  {
    if s != [] && IsSpace(s[0]) {
      LStripSpaces(s[1..]);
    }
  }

  /** What `rstrip` leaves is the longest prefix not ending with whitespace. */
  lemma RStripSpec(s: string)
    ensures |RStrip(s)| <= |s| && RStrip(s) == s[..|RStrip(s)|]
    ensures RStrip(s) == [] || !IsSpace(RStrip(s)[|RStrip(s)| - 1])
    ensures forall k :: |RStrip(s)| <= k < |s| ==> IsSpace(s[k])
  {
    RStripPrefix(s);
    RStripTail(s);
    RStripSpaces(s);
  }

  lemma {:induction false} RStripPrefix(s: string)
    ensures |RStrip(s)| <= |s| && RStrip(s) == s[..|RStrip(s)|]
  {
    if s != [] && IsSpace(s[|s| - 1]) {
      RStripPrefix(s[..|s| - 1]);
    }
  }

  lemma {:induction false} RStripTail(s: string)
    ensures RStrip(s) == [] || !IsSpace(RStrip(s)[|RStrip(s)| - 1])
  {
    if s != [] && IsSpace(s[|s| - 1]) {
      RStripTail(s[..|s| - 1]);
    }
  }

  lemma {:induction false} RStripSpaces(s: string)
    ensures forall k :: |RStrip(s)| <= k < |s| ==> IsSpace(s[k])
  {
    if s != [] && IsSpace(s[|s| - 1]) {
      RStripPrefix(s[..|s| - 1]);
      RStripSpaces(s[..|s| - 1]);
    }
  }

  /** `s.strip()`: whitespace removed from both ends, nothing else touched:
      the result is a slice of `s` with only whitespace before and after it,
      and it neither starts nor ends with whitespace. */
  function Strip(s: string): (r: string)
    ensures |r| <= |s| && Trimmed(r)
    ensures exists i, j :: 0 <= i <= j <= |s| && r == s[i..j] && AllSpace(s[..i]) && AllSpace(s[j..])
    ensures r == [] <==> AllSpace(s)
    ensures Trimmed(s) ==> r == s
  {
    StripSpec(s);
    RStrip(LStrip(s))
  }

  lemma StripSpec(s: string)
    ensures |RStrip(LStrip(s))| <= |s| && Trimmed(RStrip(LStrip(s)))
    ensures exists i, j :: 0 <= i <= j <= |s| && RStrip(LStrip(s)) == s[i..j] && AllSpace(s[..i]) && AllSpace(s[j..])
    ensures RStrip(LStrip(s)) == [] <==> AllSpace(s)
    ensures Trimmed(s) ==> RStrip(LStrip(s)) == s
  {
    var l := LStrip(s);
    var r := RStrip(l);
    var i := |s| - |l|;
    var j := i + |r|;
    StripSlice(s);
    assert Trimmed(r) by {
      LStripSpec(s);
      RStripSpec(l);
      if r != [] {
        assert r[0] == l[0];
      }
    }
    assert r == [] <==> AllSpace(s) by {
      if r == [] {
        assert s == s[..i] + s[j..];
      } else {
        assert r[0] == s[i];
      }
    }
    if Trimmed(s) && s != [] {
      assert LStrip(s) == s;
      assert RStrip(s) == s;
    }
  }

  /** The slice `strip` keeps, with the whitespace around it. */
  lemma StripSlice(s: string)
    ensures var l := LStrip(s);
      var r := RStrip(l);
      var i := |s| - |l|;
      && 0 <= i <= i + |r| <= |s| && r == s[i..i + |r|] && AllSpace(s[..i]) && AllSpace(s[i + |r|..])
  {
    var l := LStrip(s);
    var r := RStrip(l);
    LStripSuffix(s);
    RStripPrefix(l);
    assert r == s[|s| - |l|..|s| - |l| + |r|];
    StripBefore(s);
    StripAfter(s);
  }

  lemma StripBefore(s: string)
    ensures |LStrip(s)| <= |s| && AllSpace(s[..|s| - |LStrip(s)|])
  {
    LStripSuffix(s);
    LStripSpaces(s);
  }

  lemma StripAfter(s: string)
    ensures var l := LStrip(s);
      |l| <= |s| && |s| - |l| + |RStrip(l)| <= |s| && AllSpace(s[|s| - |l| + |RStrip(l)|..])
  {
    var l := LStrip(s);
    var r := RStrip(l);
    LStripSuffix(s);
    RStripPrefix(l);
    RStripSpaces(l);
    var j := |s| - |l| + |r|;
    forall k | 0 <= k < |s| - j ensures IsSpace(s[j..][k]) {
      assert s[j..][k] == l[|r| + k];
    }
  }

  /** `s.lstrip(c)`: every leading occurrence of `c` removed. */
  function LStripChar(s: string, c: char): (r: string)
    ensures |r| <= |s| && r == s[|s| - |r|..]
    ensures r == [] || r[0] != c
    ensures forall k :: 0 <= k < |s| - |r| ==> s[k] == c
  {
    if s != [] && s[0] == c then LStripChar(s[1..], c) else s
  }

  /** `s.split(c)[0]`: everything before the first `c` (all of `s` when it has none). */
  function TakeUntil(s: string, c: char): (r: string)
    ensures |r| <= |s| && r == s[..|r|]
    ensures c !in r
    ensures |r| < |s| ==> s[|r|] == c
  {
    if s == [] || s[0] == c then [] else [s[0]] + TakeUntil(s[1..], c)
  }

  /** `sep.join(parts)`. */
  function Join(parts: seq<string>, sep: string): string {
    if parts == [] then ""
    else if |parts| == 1 then parts[0]
    else parts[0] + sep + Join(parts[1..], sep)
  }

  /** The separator only ever appears between two parts: joining one part is
      that part, and joining a part in front of a non-empty list puts exactly
      one separator after it. */
  lemma JoinCons(p: string, rest: seq<string>, sep: string)
    ensures Join([p], sep) == p
    ensures rest != [] ==> Join([p] + rest, sep) == p + sep + Join(rest, sep)
  {
    assert ([p] + rest)[1..] == rest;
  }
}
