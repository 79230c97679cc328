/** `Array.prototype.filter`, the one list operation every page uses, and what it keeps. */
module Lists {

  /** `s.filter(p)`: the elements of `s` that satisfy `p`, in their original order. */
  function Filter<T>(s: seq<T>, p: T -> bool): (r: seq<T>)
    ensures |r| <= |s|
    ensures forall k :: 0 <= k < |r| ==> r[k] in s && p(r[k])
    ensures forall i :: 0 <= i < |s| && p(s[i]) ==> s[i] in r
  {
    if s == [] then []
    else if p(s[0]) then [s[0]] + Filter(s[1..], p)
    else Filter(s[1..], p)
  }

  /** `r` holds, in order, the elements of `s` at the positions `idx`. */
  ghost predicate Aligned<T>(s: seq<T>, r: seq<T>, idx: seq<nat>) {
    |idx| == |r| && forall k :: 0 <= k < |idx| ==> idx[k] < |s| && r[k] == s[idx[k]]
  }

  ghost predicate Increasing(idx: seq<nat>) {
    forall k, l :: 0 <= k < l < |idx| ==> idx[k] < idx[l]
  }

  /** `idx` names exactly the positions of `s` whose element satisfies `p`. */
  ghost predicate ExactlyWhere<T>(s: seq<T>, p: T -> bool, idx: seq<nat>) {
    forall i :: 0 <= i < |s| ==> (p(s[i]) <==> i in idx)
  }

  /**
   * `idx` lists, in increasing order, exactly the positions of `s` whose
   * element satisfies `p`, and `r` holds the elements at those positions.
   */
  ghost predicate SelectsAt<T>(s: seq<T>, p: T -> bool, r: seq<T>, idx: seq<nat>) {
    Aligned(s, r, idx) && Increasing(idx) && ExactlyWhere(s, p, idx)
  }

  function Shifted(idx: seq<nat>): (r: seq<nat>)
    ensures |r| == |idx| && forall k :: 0 <= k < |idx| ==> r[k] == idx[k] + 1
  {
    if idx == [] then [] else [idx[0] + 1] + Shifted(idx[1..])
  }

  lemma ShiftedMembers(idx: seq<nat>, i: nat)
    ensures i + 1 in Shifted(idx) <==> i in idx
    ensures 0 !in Shifted(idx)
  {
    var moved := Shifted(idx);
    if i + 1 in moved {
      var k :| 0 <= k < |moved| && moved[k] == i + 1;
      assert idx[k] == i;
    }
    if i in idx {
      var k :| 0 <= k < |idx| && idx[k] == i;
      assert moved[k] == i + 1;
    }
  }

  lemma AlignedCons<T>(s: seq<T>, rt: seq<T>, tail: seq<nat>, keep: bool)
    requires s != [] && Aligned(s[1..], rt, tail)
    ensures Aligned(s, if keep then [s[0]] + rt else rt, if keep then [0] + Shifted(tail) else Shifted(tail))
  {
    var moved := Shifted(tail);
    if keep {
      var r, idx := [s[0]] + rt, [0] + moved;
      forall k | 0 <= k < |idx|
        ensures idx[k] < |s| && r[k] == s[idx[k]]
      {
        if k > 0 {
          assert idx[k] == tail[k - 1] + 1 && r[k] == rt[k - 1];
        }
      }
    }
  }

  lemma IncreasingCons(tail: seq<nat>, keep: bool)
    requires Increasing(tail)
    ensures Increasing(if keep then [0] + Shifted(tail) else Shifted(tail))
  {
  }

  lemma ExactlyWhereCons<T>(s: seq<T>, p: T -> bool, tail: seq<nat>)
    requires s != [] && ExactlyWhere(s[1..], p, tail)
    ensures ExactlyWhere(s, p, if p(s[0]) then [0] + Shifted(tail) else Shifted(tail))
  {
    var idx := if p(s[0]) then [0] + Shifted(tail) else Shifted(tail);
    forall i | 0 <= i < |s|
      ensures p(s[i]) <==> i in idx
    {
      if i > 0 {
        assert s[i] == s[1..][i - 1];
        ShiftedMembers(tail, i - 1);
      } else {
        ShiftedMembers(tail, 0);
      }
    }
  }

  /** The filter keeps exactly the positions whose element satisfies `p`, in increasing order. */
  lemma {:induction false} FilterSelects<T>(s: seq<T>, p: T -> bool) returns (idx: seq<nat>)
    ensures SelectsAt(s, p, Filter(s, p), idx)
  {
    if s == [] {
      idx := [];
    } else {
      var tail := FilterSelects(s[1..], p);
      idx := if p(s[0]) then [0] + Shifted(tail) else Shifted(tail);
      AlignedCons(s, Filter(s[1..], p), tail, p(s[0]));
      IncreasingCons(tail, p(s[0]));
      ExactlyWhereCons(s, p, tail);
    }
  }

  /** When every element satisfies `p` (an empty search term, say), the filter keeps the whole list. */
  lemma {:induction false} FilterKeepsAll<T>(s: seq<T>, p: T -> bool)
    requires forall i :: 0 <= i < |s| ==> p(s[i])
    ensures Filter(s, p) == s
  {
    if s != [] {
      FilterKeepsAll(s[1..], p);
      assert [s[0]] + s[1..] == s;
    }
  }

  /** Filtering distributes over concatenation, which is what keeping the order means. */
  lemma {:induction false} FilterAppend<T>(a: seq<T>, b: seq<T>, p: T -> bool)
    ensures Filter(a + b, p) == Filter(a, p) + Filter(b, p)
  {
    if a == [] {
      assert a + b == b;
    } else {
      assert (a + b)[0] == a[0];
      assert (a + b)[1..] == a[1..] + b;
      FilterAppend(a[1..], b, p);
    }
  }

  /** Two tests that agree on every element of `s` filter it alike. */
  lemma {:induction false} FilterAgreeing<T>(s: seq<T>, p: T -> bool, q: T -> bool)
    requires forall i :: 0 <= i < |s| ==> p(s[i]) == q(s[i])
    ensures Filter(s, p) == Filter(s, q)
  {
    if s != [] {
      FilterAgreeing(s[1..], p, q);
    }
  }
}
