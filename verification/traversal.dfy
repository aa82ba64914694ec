/**
 * Applying a step that may throw to every element of a list, in order, the
 * way a JavaScript `forEach` or `map` does: the first exception ends the
 * traversal and is the result.
 */
module Traversal {
  import opened Wrappers

  /** The results of `f` on `xs`, or the first exception `f` throws. */
  function Traverse<A, B>(f: A -> Result<B>, xs: seq<A>): Result<seq<B>> {
    if xs == [] then Ok([])
    else
      match Traverse(f, xs[..|xs| - 1])
      case Err(e) => Err(e)
      case Ok(ys) =>
        match f(xs[|xs| - 1])
        case Err(e) => Err(e)
        case Ok(y) => Ok(ys + [y])
  }

  /** Once a prefix has thrown, the whole traversal throws the same exception. */
  lemma {:induction false} TraversePrefixErr<A, B>(f: A -> Result<B>, xs: seq<A>, k: nat)
    requires k <= |xs| && Traverse(f, xs[..k]).Err?
    ensures Traverse(f, xs) == Traverse(f, xs[..k])
  {
    if k == |xs| {
      assert xs[..k] == xs;
    } else {
      var init := xs[..|xs| - 1];
      assert init[..k] == xs[..k];
      TraversePrefixErr(f, init, k);
    }
  }

  /** Extending a successful traversal by one element. */
  lemma TraverseSnoc<A, B>(f: A -> Result<B>, xs: seq<A>, i: nat)
    requires i < |xs| && Traverse(f, xs[..i]).Ok?
    ensures Traverse(f, xs[..i + 1]) ==
      match f(xs[i])
      case Err(e) => Err(e)
      case Ok(y) => Ok(Traverse(f, xs[..i]).value + [y])
  {
    assert xs[..i + 1][..i] == xs[..i];
  }

  /** The traversal succeeds exactly when no element throws. */
  lemma {:induction false} TraverseOkIff<A, B>(f: A -> Result<B>, xs: seq<A>)
    ensures Traverse(f, xs).Ok? <==> forall i :: 0 <= i < |xs| ==> f(xs[i]).Ok?
  {
    if xs != [] {
      var n := |xs| - 1;
      var init := xs[..n];
      TraverseOkIff(f, init);
      var front := Traverse(f, init);
      if front.Ok? && f(xs[n]).Ok? {
        forall i | 0 <= i < |xs| ensures f(xs[i]).Ok? {
          if i < n { assert init[i] == xs[i]; }
        }
      } else if front.Err? {
        var j :| 0 <= j < n && !f(init[j]).Ok?;
        assert init[j] == xs[j];
      }
    }
  }

  /** A successful traversal has one result per element, each the result of `f` on that element. */
  lemma {:induction false} TraverseOkAt<A, B>(f: A -> Result<B>, xs: seq<A>, k: nat)
    requires Traverse(f, xs).Ok? && k < |xs|
    ensures |Traverse(f, xs).value| == |xs|
    ensures f(xs[k]).Ok? && Traverse(f, xs).value[k] == f(xs[k]).value
  {
    var n := |xs| - 1;
    var init := xs[..n];
    var front := Traverse(f, init);
    if n > 0 {
      TraverseOkAt(f, init, if k < n then k else 0);
      if k < n {
        assert init[k] == xs[k];
      }
    }
  }

  /** A failed traversal reports the exception of the first element that throws. */
  lemma {:induction false} TraverseErrIsFirst<A, B>(f: A -> Result<B>, xs: seq<A>)
    requires Traverse(f, xs).Err?
    ensures exists i :: (0 <= i < |xs| && f(xs[i]) == Err(Traverse(f, xs).error) &&
      forall j :: 0 <= j < i ==> f(xs[j]).Ok?)
  {
    var n := |xs| - 1;
    var init := xs[..n];
    assert forall j :: 0 <= j < n ==> init[j] == xs[j];
    if Traverse(f, init).Err? {
      TraverseErrIsFirst(f, init);
    } else {
      TraverseOkIff(f, init);
      assert f(xs[n]) == Err(Traverse(f, xs).error);
    }
  }
}
