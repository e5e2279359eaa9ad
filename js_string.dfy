/**
 * `String.prototype.indexOf` and `String.prototype.split` for a non-empty
 * string separator, as ECMAScript defines them: the scan goes left to right
 * and occurrences of the separator do not overlap.
 */
module JsString {
  import opened Wrappers

  /** `sep` occurs in `s` starting at index `k`. */
  predicate OccursAt(s: string, sep: string, k: nat) {
    k + |sep| <= |s| && s[k..k + |sep|] == sep
  }

  /** `sep` occurs nowhere in `t`. */
  ghost predicate Free(t: string, sep: string) {
    forall k: nat :: !OccursAt(t, sep, k)
  }

  /** `s.indexOf(sep, from)`, with `None` for -1. */
  function IndexOf(s: string, sep: string, from: nat): (r: Option<nat>)
    requires |sep| > 0
    ensures r.Some? ==> from <= r.value && OccursAt(s, sep, r.value)
    ensures r.Some? ==> forall k: nat :: from <= k < r.value ==> !OccursAt(s, sep, k)
    ensures r.None? ==> forall k: nat :: from <= k ==> !OccursAt(s, sep, k)
    decreases |s| - from
  {
    if from + |sep| > |s| then None
    else if OccursAt(s, sep, from) then Some(from)
    else IndexOf(s, sep, from + 1)
  }

  /**
   * The pieces that `split` produces from `s[p..]`, where the current piece
   * starts at `p` and the search for the next separator has reached `q`.
   */
  function SplitFrom(s: string, sep: string, p: nat, q: nat): (pieces: seq<string>)
    requires |sep| > 0 && p <= q <= |s|
    ensures |pieces| >= 1
    decreases |s| - q
  {
    if q + |sep| > |s| then [s[p..]]
    else if OccursAt(s, sep, q) then [s[p..q]] + SplitFrom(s, sep, q + |sep|, q + |sep|)
    else SplitFrom(s, sep, p, q + 1)
  }

  /** `s.split(sep)`. */
  function Split(s: string, sep: string): seq<string>
    requires |sep| > 0
  {
    SplitFrom(s, sep, 0, 0)
  }

  /** `pieces.join(sep)`, the inverse of `Split`. */
  function Join(pieces: seq<string>, sep: string): string
    decreases |pieces|
  {
    if |pieces| == 0 then ""
    else if |pieces| == 1 then pieces[0]
    else pieces[0] + sep + Join(pieces[1..], sep)
  }

  /** An occurrence inside a slice is an occurrence in the whole string. */
  lemma OccursInSlice(s: string, sep: string, a: nat, b: nat, j: nat)
    requires a <= b <= |s|
    ensures OccursAt(s[a..b], sep, j) ==> OccursAt(s, sep, a + j) && a + j + |sep| <= b
  {
    if j + |sep| <= b - a {
      var u, w := s[a..b][j..j + |sep|], s[a + j..a + j + |sep|];
      forall i | 0 <= i < |sep| ensures u[i] == w[i] {
        assert u[i] == s[a..b][j + i];
      }
      assert u == w;
    }
  }

  /** Joining the pieces with the separator gives back the string. */
  lemma {:induction false} SplitFromJoin(s: string, sep: string, p: nat, q: nat)
    requires |sep| > 0 && p <= q <= |s|
    ensures Join(SplitFrom(s, sep, p, q), sep) == s[p..]
    decreases |s| - q
  {
    if q + |sep| > |s| {
    } else if OccursAt(s, sep, q) {
      var rest := SplitFrom(s, sep, q + |sep|, q + |sep|);
      SplitFromJoin(s, sep, q + |sep|, q + |sep|);
      assert ([s[p..q]] + rest)[1..] == rest;
      assert s[p..] == s[p..q] + s[q..q + |sep|] + s[q + |sep|..];
    } else {
      SplitFromJoin(s, sep, p, q + 1);
    }
  }

  /** No piece contains the separator, provided the scan skipped none. */
  lemma {:induction false} SplitFromPiecesFree(s: string, sep: string, p: nat, q: nat)
    requires |sep| > 0 && p <= q <= |s|
    requires forall k: nat :: p <= k < q ==> !OccursAt(s, sep, k)
    ensures forall i :: 0 <= i < |SplitFrom(s, sep, p, q)| ==> Free(SplitFrom(s, sep, p, q)[i], sep)
    decreases |s| - q
  {
    var pieces := SplitFrom(s, sep, p, q);
    if q + |sep| > |s| {
      assert s[p..] == s[p..|s|];
      forall k: nat ensures !OccursAt(s[p..], sep, k) {
        OccursInSlice(s, sep, p, |s|, k);
      }
    } else if OccursAt(s, sep, q) {
      SplitFromPiecesFree(s, sep, q + |sep|, q + |sep|);
      forall k: nat ensures !OccursAt(s[p..q], sep, k) {
        OccursInSlice(s, sep, p, q, k);
      }
      forall i | 0 <= i < |pieces| ensures Free(pieces[i], sep) {
        if i > 0 {
          assert pieces[i] == SplitFrom(s, sep, q + |sep|, q + |sep|)[i - 1];
        }
      }
    } else {
      SplitFromPiecesFree(s, sep, p, q + 1);
    }
  }

  /** `s.split(sep)` is a list of separator-free pieces that `join(sep)` reassembles into `s`. */
  lemma SplitCharacterized(s: string, sep: string)
    requires |sep| > 0
    ensures Join(Split(s, sep), sep) == s
    ensures forall i :: 0 <= i < |Split(s, sep)| ==> Free(Split(s, sep)[i], sep)
  {
    SplitFromJoin(s, sep, 0, 0);
    SplitFromPiecesFree(s, sep, 0, 0);
  }

  /** The piece that starts at `p` ends at the first separator found from `q` on. */
  lemma {:induction false} SplitFromNext(s: string, sep: string, p: nat, q: nat)
    requires |sep| > 0 && p <= q <= |s|
    ensures match IndexOf(s, sep, q)
      case None => SplitFrom(s, sep, p, q) == [s[p..]]
      case Some(i) =>
        p <= i && i + |sep| <= |s| &&
        SplitFrom(s, sep, p, q) == [s[p..i]] + SplitFrom(s, sep, i + |sep|, i + |sep|)
    decreases |s| - q
  {
    if q + |sep| > |s| {
    } else if OccursAt(s, sep, q) {
    } else {
      SplitFromNext(s, sep, p, q + 1);
    }
  }

  /** Where the piece that starts at `from` ends: the next separator, or the end of `s`. */
  function SegmentEnd(s: string, sep: string, from: nat): (e: nat)
    requires |sep| > 0 && from <= |s|
    ensures from <= e <= |s|
  {
    match IndexOf(s, sep, from)
    case None => |s|
    case Some(j) => j
  }

  /** The second piece of a split lies between the first and the second separator. */
  lemma SecondPiece(s: string, sep: string)
    requires |sep| > 0
    ensures IndexOf(s, sep, 0).None? ==> Split(s, sep) == [s]
    ensures IndexOf(s, sep, 0).Some? ==>
      var start := IndexOf(s, sep, 0).value + |sep|;
      start <= |s| && |Split(s, sep)| > 1 && Split(s, sep)[1] == s[start..SegmentEnd(s, sep, start)]
  {
    SplitFromNext(s, sep, 0, 0);
    match IndexOf(s, sep, 0)
    case None =>
      assert s[0..] == s;
    case Some(i) =>
      var start := i + |sep|;
      SplitFromNext(s, sep, start, start);
  }
}
