/** The two list queries the application services use: `Where` (a filter
    that keeps order) and `FirstOrDefault` (the first element matching a
    predicate, or nothing). */
module Query {
  import opened Common

  /** The elements of `xs` satisfying `p`, in their order in `xs`. */
  function Where<T(!new)>(xs: seq<T>, p: T -> bool): (r: seq<T>)
    ensures |r| <= |xs|
    ensures forall x :: x in r <==> x in xs && p(x)
  {
    if xs == [] then []
    else (if p(xs[0]) then [xs[0]] else []) + Where(xs[1..], p)
  }

  /** Filtering a concatenation filters each part and keeps them in order:
      the filter never reorders. */
  lemma {:induction false} WhereAppend<T(!new)>(xs: seq<T>, ys: seq<T>, p: T -> bool)
    ensures Where(xs + ys, p) == Where(xs, p) + Where(ys, p)
  {
    if xs == [] {
      assert xs + ys == ys;
    } else {
      assert (xs + ys)[1..] == xs[1..] + ys;
      WhereAppend(xs[1..], ys, p);
    }
  }

  /** Appending one element adds it to the end of the filtered list when it
      matches, and changes nothing otherwise. */
  lemma WhereSnoc<T(!new)>(xs: seq<T>, x: T, p: T -> bool)
    ensures Where(xs + [x], p) == Where(xs, p) + (if p(x) then [x] else [])
  {
    WhereAppend(xs, [x], p);
    assert [x][1..] == [];
  }

  /** The index of the first element satisfying `p`. */
  function FirstIndex<T>(xs: seq<T>, p: T -> bool): (r: Option<nat>)
    ensures r.None? <==> forall k :: 0 <= k < |xs| ==> !p(xs[k])
    ensures r.Some? ==> r.value < |xs| && p(xs[r.value])
    ensures r.Some? ==> forall k :: 0 <= k < r.value ==> !p(xs[k])
  {
    if xs == [] then None
    else if p(xs[0]) then Some(0)
    else
      var rest := FirstIndex(xs[1..], p);
      if rest.None? then None else Some(rest.value + 1)
  }

  /** `FirstOrDefault`: the first element satisfying `p`, or `None`. */
  function FirstOrDefault<T>(xs: seq<T>, p: T -> bool): (r: Option<T>)
    ensures r.None? <==> forall k :: 0 <= k < |xs| ==> !p(xs[k])
    ensures r.Some? ==> exists i :: 0 <= i < |xs| && r.value == xs[i] && p(xs[i]) && forall k :: 0 <= k < i ==> !p(xs[k])
  {
    var i := FirstIndex(xs, p);
    if i.None? then None else Some(xs[i.value])
  }

  /** The first match is determined by its defining property. */
  lemma FirstIndexIs<T>(xs: seq<T>, p: T -> bool, i: nat)
    requires i < |xs| && p(xs[i])
    requires forall k :: 0 <= k < i ==> !p(xs[k])
    ensures FirstIndex(xs, p) == Some(i)
  {
  }

  /** Appending never changes an existing first match, and makes the new
      element the first match when there was none. */
  lemma FirstAfterAppend<T>(xs: seq<T>, x: T, p: T -> bool)
    ensures FirstIndex(xs + [x], p)
      == if FirstIndex(xs, p).Some? then FirstIndex(xs, p) else if p(x) then Some(|xs|) else None
  {
    var l := FirstIndex(xs, p);
    if l.Some? {
      FirstKeptByAppend(xs, x, p, l.value);
    } else {
      NoMatchBeforeAppend(xs, x, p);
    }
  }

  lemma FirstKeptByAppend<T>(xs: seq<T>, x: T, p: T -> bool, i: nat)
    requires i < |xs| && p(xs[i])
    requires forall k :: 0 <= k < i ==> !p(xs[k])
    ensures FirstIndex(xs + [x], p) == Some(i)
  {
    var ys := xs + [x];
    assert forall k :: 0 <= k <= i ==> ys[k] == xs[k];
    FirstIndexIs(ys, p, i);
  }

  lemma NoMatchBeforeAppend<T>(xs: seq<T>, x: T, p: T -> bool)
    requires forall k :: 0 <= k < |xs| ==> !p(xs[k])
    ensures FirstIndex(xs + [x], p) == if p(x) then Some(|xs|) else None
  {
    var ys := xs + [x];
    assert forall k :: 0 <= k < |xs| ==> ys[k] == xs[k];
    assert ys[|xs|] == x;
    if p(x) {
      FirstIndexIs(ys, p, |xs|);
    }
  }
}
