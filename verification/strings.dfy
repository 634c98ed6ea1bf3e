/**
 * The parts of Go's `strings` package that the account selector uses, for a
 * cutset of one character: `strings.Trim(s, ".")` and `strings.TrimPrefix`.
 */
module Strings {

  /** Removes every leading `c` (Go's `strings.TrimLeft(s, string(c))`). */
  function TrimLeft(s: string, c: char): (r: string)
    ensures |r| <= |s| && r == s[|s| - |r|..]
    ensures forall k :: 0 <= k < |s| - |r| ==> s[k] == c
    ensures r == [] || r[0] != c
    decreases |s|
  {
    if s != [] && s[0] == c then TrimLeft(s[1..], c) else s
  }

  /** Removes every trailing `c` (Go's `strings.TrimRight(s, string(c))`). */
  function TrimRight(s: string, c: char): (r: string)
    ensures |r| <= |s| && r == s[..|r|]
    ensures forall k :: |r| <= k < |s| ==> s[k] == c
    ensures r == [] || r[|r| - 1] != c
    decreases |s|
  {
    if s != [] && s[|s| - 1] == c then TrimRight(s[..|s| - 1], c) else s
  }

  /** True when `s[i..j]` is what remains of `s` once every leading and trailing `c` is cut off. */
  ghost predicate IsTrimmedSegment(s: string, c: char, i: int, j: int)
  {
    && 0 <= i <= j <= |s|
    && (forall k :: 0 <= k < i ==> s[k] == c)
    && (forall k :: j <= k < |s| ==> s[k] == c)
    && (i < j ==> s[i] != c && s[j - 1] != c)
  }

  /**
   * Removes every leading and every trailing `c` (Go's `strings.Trim(s, string(c))`):
   * the result is a segment of `s` that neither starts nor ends with `c`, and
   * everything cut off on either side is `c`.
   */
  function Trim(s: string, c: char): (r: string)
    ensures |r| <= |s|
    ensures r == [] || (r[0] != c && r[|r| - 1] != c)
    ensures exists i, j :: IsTrimmedSegment(s, c, i, j) && r == s[i..j]
  {
    var l := TrimLeft(s, c);
    var r := TrimRight(l, c);
    CutRunsLeaveSegment(s, c, l, r);
    r
  }

  /** A suffix after a run of `c`, then a prefix of it before a run of `c`, is a trimmed segment. */
  lemma {:induction false} CutRunsLeaveSegment(s: string, c: char, l: string, r: string)
    requires |l| <= |s| && l == s[|s| - |l|..]
    requires forall k :: 0 <= k < |s| - |l| ==> s[k] == c
    requires |r| <= |l| && r == l[..|r|]
    requires forall k :: |r| <= k < |l| ==> l[k] == c
    requires r == [] || (r[0] != c && r[|r| - 1] != c)
    ensures var i := |s| - |l|; IsTrimmedSegment(s, c, i, i + |r|) && r == s[i..i + |r|]
  {
    var i := |s| - |l|;
    forall k | i + |r| <= k < |s| ensures s[k] == c {
      assert s[k] == l[k - i];
    }
    if r != [] {
      assert s[i] == r[0];
      assert s[i + |r| - 1] == r[|r| - 1];
    }
  }

  /** There is only one way to cut `s` as `Trim` does, so `Trim` is exactly that cut. */
  lemma {:induction false} TrimIsTheTrimmedSegment(s: string, c: char, i: int, j: int)
    requires IsTrimmedSegment(s, c, i, j)
    ensures Trim(s, c) == s[i..j]
  {

  }

  /** Trimming twice cuts nothing more. */
  lemma {:induction false} TrimIdempotent(s: string, c: char)
    ensures Trim(Trim(s, c), c) == Trim(s, c)
  {

  }

  /** Removes `prefix` once from the front of `s` when `s` starts with it (Go's `strings.TrimPrefix`). */
  function TrimPrefix(s: string, prefix: string): (r: string)
    ensures prefix <= s ==> s == prefix + r
    ensures !(prefix <= s) ==> r == s
  {
    if prefix <= s then s[|prefix|..] else s
  }

  /** A doubled prefix loses only its first copy. */
  lemma {:induction false} TrimPrefixTwice(s: string, prefix: string, rest: string)
    requires s == prefix + prefix + rest
    ensures TrimPrefix(s, prefix) == prefix + rest
  {
    assert s == prefix + (prefix + rest);
    assert prefix <= s;
  }
}
