/**
 * The Go idiom `for _, x := range xs { y, err := f(x); if err != nil { return nil, err }; ys = append(ys, y) }`:
 * map a fallible step over a sequence, stopping at the first error.
 */
module Traversal {
  import opened Wrappers

  function Traverse<A, B>(f: A -> Result<B>, xs: seq<A>): Result<seq<B>>
    decreases |xs|
  {
    if xs == [] then Ok([])
    else
      var done :- Traverse(f, xs[..|xs| - 1]);
      var y :- f(xs[|xs| - 1]);
      Ok(done + [y])
  }

  /** Traversal succeeds exactly when every step does, and then yields one result per element, in order. */
  lemma {:induction false} TraverseOk<A, B>(f: A -> Result<B>, xs: seq<A>)
    ensures Traverse(f, xs).Ok? <==> forall i :: 0 <= i < |xs| ==> f(xs[i]).Ok?
    ensures Traverse(f, xs).Ok? ==>
      |Traverse(f, xs).value| == |xs| &&
      forall i :: 0 <= i < |xs| ==> Traverse(f, xs).value[i] == f(xs[i]).value
    decreases |xs|
  {
    if xs != [] {
      var n := |xs| - 1;
      TraverseOk(f, xs[..n]);
      assert forall i :: 0 <= i < n ==> xs[..n][i] == xs[i];
    }
  }

  /** The first failing step's error is the traversal's error: later elements are never attempted. */
  lemma {:induction false} TraverseFirstError<A, B>(f: A -> Result<B>, xs: seq<A>, k: nat)
    requires k < |xs|
    requires forall j :: 0 <= j < k ==> f(xs[j]).Ok?
    requires f(xs[k]).Err?
    ensures Traverse(f, xs) == Err(f(xs[k]).error)
    decreases |xs|
  {
    var n := |xs| - 1;
    if k < n {
      TraverseFirstError(f, xs[..n], k);
    } else {
      TraverseOk(f, xs[..n]);
    }
  }

  /** Appending one element: the traversal so far, then the new step. */
  lemma TraverseSnoc<A, B>(f: A -> Result<B>, xs: seq<A>, x: A)
    ensures Traverse(f, xs + [x]) ==
      match Traverse(f, xs)
      case Err(e) => Err(e)
      case Ok(done) => (match f(x) case Err(e) => Err(e) case Ok(y) => Ok(done + [y]))
  {
    assert (xs + [x])[..|xs|] == xs;
  }

  /** Once a traversal has failed, elements appended after it do not change the error. */
  lemma {:induction false} TraverseErrExtends<A, B>(f: A -> Result<B>, xs: seq<A>, ys: seq<A>)
    requires Traverse(f, xs).Err?
    ensures Traverse(f, xs + ys) == Traverse(f, xs)
    decreases |ys|
  {
    if ys == [] {
      assert xs + ys == xs;
    } else {
      var n := |ys| - 1;
      TraverseErrExtends(f, xs, ys[..n]);
      assert xs + ys == (xs + ys[..n]) + [ys[n]];
      TraverseSnoc(f, xs + ys[..n], ys[n]);
    }
  }
}
