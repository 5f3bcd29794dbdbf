/** Sequence operations that the profile code reaches through the
    JavaScript array built-ins `filter` and `find`, stated once and
    characterised once, so that every filter in the model (search, blank
    entries, `filter(Boolean)`, delete-by-id) inherits the same facts. */
module Seqs {

  datatype Option<T> = None | Some(value: T)

  /** `xs.filter(p)`: the elements of `xs` that satisfy `p`, in order. */
  function Filter<T>(xs: seq<T>, p: T -> bool): (r: seq<T>)
    ensures |r| <= |xs|
    ensures forall i :: 0 <= i < |r| ==> p(r[i])
  {
    if xs == [] then [] else (if p(xs[0]) then [xs[0]] else []) + Filter(xs[1..], p)
  }

  /** Every kept element comes from `xs`, and every element of `xs` that
      satisfies `p` is kept. */
  lemma {:induction false} FilterMembers<T>(xs: seq<T>, p: T -> bool)
    ensures forall i :: 0 <= i < |Filter(xs, p)| ==> Filter(xs, p)[i] in xs
    ensures forall i :: 0 <= i < |xs| && p(xs[i]) ==> xs[i] in Filter(xs, p)
  {
    if xs != [] {
      FilterMembers(xs[1..], p);
    }
  }

  /** Adds one to every index. */
  function Shifted(ks: seq<nat>): (r: seq<nat>)
    ensures |r| == |ks|
    ensures forall k :: 0 <= k < |ks| ==> r[k] == ks[k] + 1
  {
    seq(|ks|, k requires 0 <= k < |ks| => ks[k] + 1)
  }

  /** The positions of `xs` whose elements satisfy `p`, ascending. */
  function KeptIndices<T>(xs: seq<T>, p: T -> bool): seq<nat>
  {
    if xs == [] then [] else (if p(xs[0]) then [0] else []) + Shifted(KeptIndices(xs[1..], p))
  }

  /** `Filter(xs, p)` is `xs` read at the positions `KeptIndices(xs, p)`. */
  ghost predicate ReadAtKept<T>(xs: seq<T>, p: T -> bool) {
    && |KeptIndices(xs, p)| == |Filter(xs, p)|
    && forall k :: 0 <= k < |KeptIndices(xs, p)| ==>
         KeptIndices(xs, p)[k] < |xs| && Filter(xs, p)[k] == xs[KeptIndices(xs, p)[k]]
  }

  /** A filter result is `xs` read at the kept positions. */
  lemma {:induction false} FilterAtKept<T>(xs: seq<T>, p: T -> bool)
    ensures ReadAtKept(xs, p)
  {
    if xs != [] {
      FilterAtKept(xs[1..], p);
      if p(xs[0]) {
        ReadAtKeptHead(xs, p);
      } else {
        ReadAtKeptSkip(xs, p);
      }
    }
  }

  lemma ReadAtKeptHead<T>(xs: seq<T>, p: T -> bool)
    requires xs != [] && p(xs[0]) && ReadAtKept(xs[1..], p)
    ensures ReadAtKept(xs, p)
  {
    var tail := xs[1..];
    var rest := KeptIndices(tail, p);
    var sh := Shifted(rest);
    var r := Filter(tail, p);
    var ks := KeptIndices(xs, p);
    var f := Filter(xs, p);
    assert ks == [0] + sh;
    assert f == [xs[0]] + r;
    forall k | 1 <= k < |ks|
      ensures ks[k] < |xs| && f[k] == xs[ks[k]]
    {
      var j := rest[k - 1];
      assert j < |tail| && r[k - 1] == tail[j];
      assert ks[k] == sh[k - 1] == j + 1;
      assert f[k] == r[k - 1];
      assert tail[j] == xs[j + 1];
    }
  }

  lemma ReadAtKeptSkip<T>(xs: seq<T>, p: T -> bool)
    requires xs != [] && !p(xs[0]) && ReadAtKept(xs[1..], p)
    ensures ReadAtKept(xs, p)
  {
    var tail := xs[1..];
    var rest := KeptIndices(tail, p);
    var sh := Shifted(rest);
    var r := Filter(tail, p);
    var ks := KeptIndices(xs, p);
    var f := Filter(xs, p);
    assert ks == sh;
    assert f == r;
    forall k | 0 <= k < |ks|
      ensures ks[k] < |xs| && f[k] == xs[ks[k]]
    {
      assert ks[k] == sh[k] == rest[k] + 1;
      assert f[k] == r[k] == tail[rest[k]];
    }
  }

  /** The kept positions are strictly increasing. */
  lemma {:induction false} KeptAscending<T>(xs: seq<T>, p: T -> bool)
    ensures forall k, l :: 0 <= k < l < |KeptIndices(xs, p)| ==> KeptIndices(xs, p)[k] < KeptIndices(xs, p)[l]
  {
    if xs != [] {
      KeptAscending(xs[1..], p);
    }
  }

  /** The kept positions are exactly those whose element satisfies `p`. */
  lemma {:induction false} KeptExactly<T>(xs: seq<T>, p: T -> bool)
    ensures forall i :: 0 <= i < |xs| ==> (p(xs[i]) <==> i in KeptIndices(xs, p))
  {
    if xs != [] {
      var tail := xs[1..];
      KeptExactly(tail, p);
      var rest := KeptIndices(tail, p);
      var ks := KeptIndices(xs, p);
      assert ks == (if p(xs[0]) then [0] else []) + Shifted(rest);
      forall i | 1 <= i < |xs|
        ensures p(xs[i]) <==> i in ks
      {
        assert xs[i] == tail[i - 1];
        ShiftedMembers(rest, i);
      }
      ShiftedMembers(rest, 0);
    }
  }

  lemma ShiftedMembers(ks: seq<nat>, i: nat)
    ensures i in Shifted(ks) <==> i >= 1 && i - 1 in ks
  {
    var sh := Shifted(ks);
    if i >= 1 && i - 1 in ks {
      var k :| 0 <= k < |ks| && ks[k] == i - 1;
      assert sh[k] == i;
    }
    if i in sh {
      var k :| 0 <= k < |sh| && sh[k] == i;
      assert ks[k] == i - 1;
    }
  }

  /** The three facts together: a filter is an order-preserving
      subsequence that keeps precisely the elements satisfying `p`. */
  lemma FilterIsSubsequence<T>(xs: seq<T>, p: T -> bool)
    ensures |KeptIndices(xs, p)| == |Filter(xs, p)|
    ensures forall k :: 0 <= k < |KeptIndices(xs, p)| ==>
      KeptIndices(xs, p)[k] < |xs| && Filter(xs, p)[k] == xs[KeptIndices(xs, p)[k]]
    ensures forall k, l :: 0 <= k < l < |KeptIndices(xs, p)| ==> KeptIndices(xs, p)[k] < KeptIndices(xs, p)[l]
    ensures forall i :: 0 <= i < |xs| ==> (p(xs[i]) <==> i in KeptIndices(xs, p))
  {
    FilterAtKept(xs, p);
    KeptAscending(xs, p);
    KeptExactly(xs, p);
  }

  /** `r` keeps exactly the elements of `xs` that satisfy `p`, in their
      order: it is `xs` read at the ascending positions `KeptIndices(xs, p)`,
      and those are exactly the positions where `p` holds. */
  ghost predicate SelectsInOrder<T>(xs: seq<T>, r: seq<T>, p: T -> bool) {
    && |KeptIndices(xs, p)| == |r|
    && (forall k :: 0 <= k < |KeptIndices(xs, p)| ==>
          KeptIndices(xs, p)[k] < |xs| && r[k] == xs[KeptIndices(xs, p)[k]])
    && (forall k, l :: 0 <= k < l < |KeptIndices(xs, p)| ==> KeptIndices(xs, p)[k] < KeptIndices(xs, p)[l])
    && (forall i :: 0 <= i < |xs| ==> (p(xs[i]) <==> i in KeptIndices(xs, p)))
  }

  lemma {:induction false} FilterConcat<T>(a: seq<T>, b: seq<T>, p: T -> bool)
    ensures Filter(a + b, p) == Filter(a, p) + Filter(b, p)
  {
    if a == [] {
      assert a + b == b;
    } else {
      assert (a + b)[1..] == a[1..] + b;
      FilterConcat(a[1..], b, p);
    }
  }

  /** Filtering keeps a sequence whole exactly when every element passes. */
  lemma {:induction false} FilterKeepsAll<T>(xs: seq<T>, p: T -> bool)
    ensures Filter(xs, p) == xs <==> forall i :: 0 <= i < |xs| ==> p(xs[i])
  {
    if xs != [] {
      FilterKeepsAll(xs[1..], p);
      if !p(xs[0]) {
        assert |Filter(xs, p)| < |xs|;
      }
    }
  }

  lemma FilterSingleton<T>(x: T, p: T -> bool)
    ensures Filter([x], p) == if p(x) then [x] else []
  {
    assert [x][1..] == [];
  }

  /** `xs.findIndex(p)`, with -1 as `None`: the first position satisfying `p`. */
  function FindIndex<T>(xs: seq<T>, p: T -> bool): (r: Option<nat>)
    ensures r.Some? ==> r.value < |xs| && p(xs[r.value])
    ensures r.Some? ==> forall j :: 0 <= j < r.value ==> !p(xs[j])
    ensures r.None? <==> forall j :: 0 <= j < |xs| ==> !p(xs[j])
  {
    if xs == [] then None
    else if p(xs[0]) then Some(0)
    else match FindIndex(xs[1..], p)
      case None => None
      case Some(k) => Some(k + 1)
  }
}
