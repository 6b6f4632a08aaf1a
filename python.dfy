/**
 * The pieces of Python semantics the server-side modules rely on: slicing
 * with negative and out-of-range bounds, indexing that can raise IndexError,
 * str.strip, ASCII lower-casing, and floating-point values that may be NaN.
 */
module Py {
  import opened Wrappers

  /** Python's normalisation of one slice bound against a sequence of length n. */
  function Bound(i: int, n: nat): (r: nat)
    ensures r <= n
    ensures 0 <= i <= n ==> r == i
    ensures i < 0 && 0 <= i + n ==> r as int == n + i
    ensures i + n < 0 ==> r == 0
    ensures n < i ==> r == n
  {
    if i < 0 then (if i + n < 0 then 0 else i + n) else if i > n then n else i
  }

  /** s[a:b] */
  function Slice<T>(s: seq<T>, a: int, b: int): (r: seq<T>)
  {
    var lo, hi := Bound(a, |s|), Bound(b, |s|);
    if lo <= hi then s[lo..hi] else []
  }

  /** s[a:] */
  function SliceFrom<T>(s: seq<T>, a: int): (r: seq<T>)
  {
    s[Bound(a, |s|)..]
  }

  /** Inside the sequence, a Python slice is Dafny's subsequence. */
  lemma SliceInside<T>(s: seq<T>, a: int, b: int)
    requires 0 <= a <= b <= |s|
    ensures Slice(s, a, b) == s[a..b]
  {
  }

  /**
   * s[-k:] is the last k elements for 0 < k <= |s|, the whole sequence for
   * k > |s|, and also the whole sequence for k == 0, because -0 == 0.
   */
  lemma SliceLast<T>(s: seq<T>, k: int)
    requires k >= 0
    ensures k == 0 ==> SliceFrom(s, -k) == s
    ensures 0 < k <= |s| ==> SliceFrom(s, -k) == s[|s| - k..] && |SliceFrom(s, -k)| == k
    ensures |s| < k ==> SliceFrom(s, -k) == s
  {
  }

  /** s[i], or None where Python raises IndexError. */
  function Index<T>(s: seq<T>, i: int): (r: Option<T>)
    ensures r.Some? <==> -|s| <= i < |s|
    ensures 0 <= i < |s| ==> r == Some(s[i])
    ensures -|s| <= i < 0 ==> r == Some(s[|s| + i])
  {
    if 0 <= i < |s| then Some(s[i])
    else if -|s| <= i < 0 then Some(s[|s| + i])
    else None
  }

  /** The characters str.isspace accepts. */
  predicate IsSpace(c: char) {
    || c == ' ' || '\t' <= c <= '\r' || '\U{1c}' <= c <= '\U{1f}' || c == '\U{85}' || c == '\U{a0}'
    || c == '\U{1680}' || '\U{2000}' <= c <= '\U{200a}' || c == '\U{2028}' || c == '\U{2029}'
    || c == '\U{202f}' || c == '\U{205f}' || c == '\U{3000}'
  }

  /** str.lstrip(): leading whitespace removed. */
  function TrimStart(s: string): (r: string)
    ensures |r| <= |s|
  {
    if s != [] && IsSpace(s[0]) then TrimStart(s[1..]) else s
  }

  /** lstrip keeps a suffix, removes only whitespace, and what it keeps does not start with any. */
  lemma {:induction false} TrimStartParts(s: string)
    ensures var r := TrimStart(s);
            r == s[|s| - |r|..] &&
            (forall i :: 0 <= i < |s| - |r| ==> IsSpace(s[i])) && (r != [] ==> !IsSpace(r[0]))
  {
    if s != [] && IsSpace(s[0]) {
      TrimStartParts(s[1..]);
      var r := TrimStart(s);
      assert r == TrimStart(s[1..]);
      assert s[1..][|s| - 1 - |r|..] == s[|s| - |r|..];
      forall i | 0 <= i < |s| - |r|
        ensures IsSpace(s[i])
      {
        if i > 0 {
          assert s[i] == s[1..][i - 1];
        }
      }
    }
  }

  /** str.rstrip(): trailing whitespace removed. */
  function TrimEnd(s: string): (r: string)
    ensures |r| <= |s|
  {
    if s != [] && IsSpace(s[|s| - 1]) then TrimEnd(s[..|s| - 1]) else s
  }

  /** rstrip keeps a prefix, removes only whitespace, and what it keeps does not end with any. */
  lemma {:induction false} TrimEndParts(s: string)
    ensures var r := TrimEnd(s);
            r == s[..|r|] &&
            (forall i :: |r| <= i < |s| ==> IsSpace(s[i])) && (r != [] ==> !IsSpace(r[|r| - 1]))
  {
    if s != [] && IsSpace(s[|s| - 1]) {
      TrimEndParts(s[..|s| - 1]);
      var r := TrimEnd(s);
      assert r == TrimEnd(s[..|s| - 1]);
      assert s[..|s| - 1][..|r|] == s[..|r|];
      forall i | |r| <= i < |s|
        ensures IsSpace(s[i])
      {
        if i < |s| - 1 {
          assert s[i] == s[..|s| - 1][i];
        }
      }
    }
  }

  /** str.strip(): leading and trailing whitespace removed. */
  function Strip(s: string): (r: string)
  {
    TrimEnd(TrimStart(s))
  }

  /** A string strips to "" exactly when every character is whitespace. */
  lemma StripBlank(s: string)
    ensures Strip(s) == [] <==> forall i :: 0 <= i < |s| ==> IsSpace(s[i])
  {
    var t := TrimStart(s);
    TrimStartParts(s);
    TrimEndParts(t);
    if !forall i :: 0 <= i < |s| ==> IsSpace(s[i]) {
      var j :| 0 <= j < |s| && !IsSpace(s[j]);
      assert j >= |s| - |t|;
      assert t[j - (|s| - |t|)] == s[j];
    }
  }

  /** str.lower() on ASCII letters; other characters are left as they are. */
  function LowerChar(c: char): char {
    if 'A' <= c <= 'Z' then (c as int + 32) as char else c
  }

  function Lower(s: string): (r: string)
    ensures |r| == |s| && forall i :: 0 <= i < |s| ==> r[i] == LowerChar(s[i])
  {
    seq(|s|, i requires 0 <= i < |s| => LowerChar(s[i]))
  }

  predicate EndsWith(s: string, suffix: string) {
    |suffix| <= |s| && s[|s| - |suffix|..] == suffix
  }

  /** A floating-point value: NaN or a finite real (infinities are not modelled). */
  datatype Float = NaN | Fin(v: real)

  predicate IsNaN(x: Float) { x.NaN? }
}
