/** What a filtering comprehension or loop makes of a list, said by position. */
module Selections {

  /** `r` is what `f` makes of exactly the elements of `xs` that `keep` admits, in their order:
      `ix` gives the positions they come from. */
  ghost predicate SelectionAt<T, U>(xs: seq<T>, keep: T -> bool, f: T -> U, r: seq<U>, ix: seq<nat>) {
    && |ix| == |r|
    && (forall j :: 0 <= j < |ix| ==> ix[j] < |xs| && keep(xs[ix[j]]) && r[j] == f(xs[ix[j]]))
    && (forall i, j :: 0 <= i < j < |ix| ==> ix[i] < ix[j])
    && (forall i :: 0 <= i < |xs| && keep(xs[i]) ==> i in ix)
  }

  ghost predicate Selection<T, U>(xs: seq<T>, keep: T -> bool, f: T -> U, r: seq<U>) {
    exists ix :: SelectionAt(xs, keep, f, r, ix)
  }

  lemma NoSelection<T, U>(keep: T -> bool, f: T -> U)
    ensures Selection([], keep, f, [])
  {
    assert SelectionAt([], keep, f, [], []);
  }

  /** One more element is kept or not. */
  lemma SelectionMore<T, U>(xs: seq<T>, x: T, keep: T -> bool, f: T -> U, r: seq<U>)
    requires Selection(xs, keep, f, r)
    ensures Selection(xs + [x], keep, f, r + if keep(x) then [f(x)] else [])
  {
    var ix: seq<nat> :| SelectionAt(xs, keep, f, r, ix);
    if keep(x) {
      OneMoreKept(xs, x, keep, f, r, ix);
    } else {
      assert r + [] == r;
      OneMoreDropped(xs, x, keep, f, r, ix);
    }
  }

  lemma OneMoreKept<T, U>(xs: seq<T>, x: T, keep: T -> bool, f: T -> U, r: seq<U>, ix: seq<nat>)
    requires SelectionAt(xs, keep, f, r, ix) && keep(x)
    ensures SelectionAt(xs + [x], keep, f, r + [f(x)], ix + [|xs|])
  {
    var ys, q, iy := xs + [x], r + [f(x)], ix + [|xs|];
    forall j | 0 <= j < |iy| ensures iy[j] < |ys| && keep(ys[iy[j]]) && q[j] == f(ys[iy[j]]) {
      if j < |ix| { assert iy[j] == ix[j] && ys[iy[j]] == xs[ix[j]] && q[j] == r[j]; }
    }
    forall i | 0 <= i < |ys| && keep(ys[i]) ensures i in iy {
      if i < |xs| {
        assert keep(xs[i]) && i in ix;
      } else {
        assert iy[|ix|] == i;
      }
    }
  }

  lemma OneMoreDropped<T, U>(xs: seq<T>, x: T, keep: T -> bool, f: T -> U, r: seq<U>, ix: seq<nat>)
    requires SelectionAt(xs, keep, f, r, ix) && !keep(x)
    ensures SelectionAt(xs + [x], keep, f, r, ix)
  {
    var ys := xs + [x];
    forall j | 0 <= j < |ix| ensures ix[j] < |ys| && keep(ys[ix[j]]) && r[j] == f(ys[ix[j]]) {
      assert ys[ix[j]] == xs[ix[j]];
    }
    forall i | 0 <= i < |ys| && keep(ys[i]) ensures i in ix {
      assert ys[i] == xs[i];
    }
  }

  /** Positions that increase and leave none out are all of them. */
  lemma {:induction false} PositionsOfAll(n: nat, ix: seq<nat>, j: nat)
    requires (forall i, j :: 0 <= i < j < |ix| ==> ix[i] < ix[j]) && (forall j :: 0 <= j < |ix| ==> ix[j] < n)
    requires (forall i :: 0 <= i < n ==> i in ix) && j < |ix|
    ensures ix[j] == j
    decreases j
  {
    if j > 0 { PositionsOfAll(n, ix, j - 1); }
    assert j <= ix[j] < n;
    assert j in ix;
    var m :| 0 <= m < |ix| && ix[m] == j;
  }

  /** If all are kept, each stands where it stood. */
  lemma SelectionOfAll<T, U>(xs: seq<T>, keep: T -> bool, f: T -> U, r: seq<U>)
    requires Selection(xs, keep, f, r) && forall i :: 0 <= i < |xs| ==> keep(xs[i])
    ensures |r| == |xs| && forall i :: 0 <= i < |xs| ==> r[i] == f(xs[i])
  {
    var ix: seq<nat> :| SelectionAt(xs, keep, f, r, ix);
    forall j | 0 <= j < |ix| ensures ix[j] == j { PositionsOfAll(|xs|, ix, j); }
    if |xs| > 0 {
      assert keep(xs[|xs| - 1]);
      var m :| 0 <= m < |ix| && ix[m] == |xs| - 1;
    }
    if |ix| > 0 { assert ix[|ix| - 1] < |xs|; }
  }
}
