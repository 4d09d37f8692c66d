/**
 * The handful of Python `str` operations the agents use on oracle text:
 * `strip`, `strip(chars)`, `startswith`, `endswith`, `find`, `replace`,
 * `lower`, the `in` substring test and `sep.join`.
 */
module PyText {
  import opened Wrappers

  /** The characters for which Python's `str.isspace()` holds; `strip()` with
      no argument removes exactly these. */
  const Whitespace: set<char> := {
    '\t', '\n', '\U{0B}', '\U{0C}', '\r', '\U{1C}', '\U{1D}', '\U{1E}', '\U{1F}', ' ',
    '\U{85}', '\U{A0}', '\U{1680}', '\U{2000}', '\U{2001}', '\U{2002}', '\U{2003}',
    '\U{2004}', '\U{2005}', '\U{2006}', '\U{2007}', '\U{2008}', '\U{2009}', '\U{200A}',
    '\U{2028}', '\U{2029}', '\U{202F}', '\U{205F}', '\U{3000}'
  }

  /** Removes the longest prefix made of characters in `drop`. */
  function TrimStart(s: string, drop: set<char>): (r: string)
    ensures |r| <= |s| && r == s[|s| - |r|..]
    ensures forall i :: 0 <= i < |s| - |r| ==> s[i] in drop
    ensures r != [] ==> r[0] !in drop
  {
    if s != [] && s[0] in drop then TrimStart(s[1..], drop) else s
  }

  /** Removes the longest suffix made of characters in `drop`. */
  function TrimEnd(s: string, drop: set<char>): (r: string)
    ensures |r| <= |s| && r == s[..|r|]
    ensures forall i :: |r| <= i < |s| ==> s[i] in drop
    ensures r != [] ==> r[|r| - 1] !in drop
  {
    if s != [] && s[|s| - 1] in drop then TrimEnd(s[..|s| - 1], drop) else s
  }

  /** Python `s.strip(chars)`: both ends, every character of `drop`. */
  function StripChars(s: string, drop: set<char>): (r: string)
    ensures r != [] ==> r[0] !in drop && r[|r| - 1] !in drop
    ensures IsSlice(r, s)
  {
    var t := TrimStart(s, drop);
    var r := TrimEnd(t, drop);
    assert r == s[|s| - |t|..|s| - |t| + |r|];
    r
  }

  /** Python `s.strip()`. */
  function Strip(s: string): (r: string)
    ensures r != [] ==> r[0] !in Whitespace && r[|r| - 1] !in Whitespace
    ensures IsSlice(r, s)
  {
    StripChars(s, Whitespace)
  }

  /** Python truthiness of a string that may be None. */
  predicate Given(o: Option<string>) {
    o.Some? && o.value != []
  }

  predicate StartsWith(s: string, prefix: string) {
    |prefix| <= |s| && s[..|prefix|] == prefix
  }

  predicate EndsWith(s: string, suffix: string) {
    |suffix| <= |s| && s[|s| - |suffix|..] == suffix
  }

  predicate OccursAt(s: string, pat: string, i: nat) {
    i + |pat| <= |s| && s[i..i + |pat|] == pat
  }

  /** Python `s.find(pat, from)`, with None for -1. */
  function FindFrom(s: string, pat: string, from: nat): (r: Option<nat>)
    requires from <= |s|
    decreases |s| - from
    ensures r.Some? ==> from <= r.value && OccursAt(s, pat, r.value)
    ensures r.Some? ==> forall k :: from <= k < r.value ==> !OccursAt(s, pat, k)
    ensures r.None? ==> forall k :: from <= k <= |s| ==> !OccursAt(s, pat, k)
  {
    if OccursAt(s, pat, from) then Some(from)
    else if from == |s| then None
    else FindFrom(s, pat, from + 1)
  }

  /** Python `s.find(pat)`. */
  function Find(s: string, pat: string): (r: Option<nat>)
    ensures r.Some? ==> OccursAt(s, pat, r.value) && forall k :: 0 <= k < r.value ==> !OccursAt(s, pat, k)
    ensures r.None? ==> forall k :: 0 <= k <= |s| ==> !OccursAt(s, pat, k)
  {
    FindFrom(s, pat, 0)
  }

  /** Python `pat in s` on two strings. */
  predicate Contains(s: string, pat: string) {
    Find(s, pat).Some?
  }

  /** Python `s.replace(pat, rep, 1)`: only the leftmost occurrence is replaced. */
  function ReplaceFirst(s: string, pat: string, rep: string): (r: string)
    ensures Find(s, pat).None? ==> r == s
    ensures Find(s, pat).Some? ==>
      var i := Find(s, pat).value; r == s[..i] + rep + s[i + |pat|..]
  {
    match Find(s, pat)
    case None => s
    case Some(i) => s[..i] + rep + s[i + |pat|..]
  }

  /** Python `s.replace(a, b)` for one-character `a` and `b`: every occurrence. */
  function ReplaceChar(s: string, a: char, b: char): (r: string)
    ensures |r| == |s|
    ensures forall i :: 0 <= i < |s| ==> r[i] == (if s[i] == a then b else s[i])
  {
    seq(|s|, i requires 0 <= i < |s| => if s[i] == a then b else s[i])
  }

  function LowerChar(c: char): char {
    if 'A' <= c <= 'Z' then (c as int + 32) as char else c
  }

  /** Python `s.lower()` on the ASCII letters. */
  function Lower(s: string): (r: string)
    ensures |r| == |s|
    ensures forall i :: 0 <= i < |s| ==> r[i] == LowerChar(s[i])
  {
    seq(|s|, i requires 0 <= i < |s| => LowerChar(s[i]))
  }

  /** Python `sep.join(parts)`. */
  function Join(parts: seq<string>, sep: string): string
  {
    if parts == [] then ""
    else if |parts| == 1 then parts[0]
    else parts[0] + sep + Join(parts[1..], sep)
  }

  /** `u` is a contiguous piece of `t`. */
  ghost predicate IsSlice(u: string, t: string) {
    exists i, j :: 0 <= i <= j <= |t| && u == t[i..j]
  }

  lemma SliceOfSlice(u: string, v: string, w: string)
    requires IsSlice(u, v) && IsSlice(v, w)
    ensures IsSlice(u, w)
  {
    var i, j :| 0 <= i <= j <= |v| && u == v[i..j];
    var a, b :| 0 <= a <= b <= |w| && v == w[a..b];
    assert |v| == b - a;
    assert forall k :: 0 <= k < j - i ==> u[k] == v[i + k] == w[a + i + k];
    assert u == w[a + i..a + j];
  }

  /** The first position of `ch` in `s`. */
  function FirstIndexOfChar(s: string, ch: char): (r: Option<nat>)
    ensures r.Some? ==> r.value < |s| && s[r.value] == ch && forall k :: 0 <= k < r.value ==> s[k] != ch
    ensures r.None? ==> forall k :: 0 <= k < |s| ==> s[k] != ch
  {
    if s == [] then None
    else if s[0] == ch then Some(0)
    else match FirstIndexOfChar(s[1..], ch)
      case None => None
      case Some(i) => Some(i + 1)
  }

  /** The last position of `ch` in `s`. */
  function LastIndexOfChar(s: string, ch: char): (r: Option<nat>)
    ensures r.Some? ==> r.value < |s| && s[r.value] == ch && forall k :: r.value < k < |s| ==> s[k] != ch
    ensures r.None? ==> forall k :: 0 <= k < |s| ==> s[k] != ch
  {
    if s == [] then None
    else if s[|s| - 1] == ch then Some(|s| - 1)
    else LastIndexOfChar(s[..|s| - 1], ch)
  }

  /** When exactly the first `n` characters are in `drop`, those are what
      `TrimStart` removes. */
  lemma TrimStartExact(s: string, n: nat, drop: set<char>)
    requires n <= |s|
    requires forall k :: 0 <= k < n ==> s[k] in drop
    requires n < |s| ==> s[n] !in drop
    ensures TrimStart(s, drop) == s[n..]
  {
  }

  /** When exactly the last `n` characters are in `drop`, those are what
      `TrimEnd` removes. */
  lemma TrimEndExact(s: string, n: nat, drop: set<char>)
    requires n <= |s|
    requires forall k :: |s| - n <= k < |s| ==> s[k] in drop
    requires n < |s| ==> s[|s| - n - 1] !in drop
    ensures TrimEnd(s, drop) == s[..|s| - n]
  {
  }

  /** `TrimStart` passes over a prefix made of dropped characters. */
  lemma {:induction false} TrimStartSkips(a: string, b: string, drop: set<char>)
    requires forall k :: 0 <= k < |a| ==> a[k] in drop
    ensures TrimStart(a + b, drop) == TrimStart(b, drop)
  {
    if a != [] {
      assert (a + b)[0] == a[0];
      assert (a + b)[1..] == a[1..] + b;
      TrimStartSkips(a[1..], b, drop);
    } else {
      assert a + b == b;
    }
  }

  /** `TrimEnd` passes over a suffix made of dropped characters. */
  lemma {:induction false} TrimEndSkips(a: string, b: string, drop: set<char>)
    requires forall k :: 0 <= k < |b| ==> b[k] in drop
    ensures TrimEnd(a + b, drop) == TrimEnd(a, drop)
  {
    if b != [] {
      var b' := b[..|b| - 1];
      assert (a + b)[|a + b| - 1] == b[|b| - 1];
      assert (a + b)[..|a + b| - 1] == a + b';
      TrimEndSkips(a, b', drop);
    } else {
      assert a + b == a;
    }
  }

  /** `strip(chars)` of a kept middle between two runs of dropped characters
      is that middle. */
  lemma StripCharsAround(a: string, m: string, b: string, drop: set<char>)
    requires forall k :: 0 <= k < |a| ==> a[k] in drop
    requires forall k :: 0 <= k < |b| ==> b[k] in drop
    requires m != [] && m[0] !in drop && m[|m| - 1] !in drop
    ensures StripChars(a + m + b, drop) == m
  {
    assert a + m + b == a + (m + b);
    TrimStartSkips(a, m + b, drop);
    assert (m + b)[0] == m[0];
    assert TrimStart(m + b, drop) == m + b;
    TrimEndSkips(m, b, drop);
  }

  /** A string that neither begins nor ends with whitespace is its own `strip()`. */
  lemma StripOfTrimmed(s: string)
    requires s != [] ==> s[0] !in Whitespace && s[|s| - 1] !in Whitespace
    ensures Strip(s) == s
  {
    if s != [] {
      StripCharsAround([], s, [], Whitespace);
      assert [] + s + [] == s;
    }
  }
}
