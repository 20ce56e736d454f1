/** Optional values and results that either succeed or fail.  Every Java exception the codec can
    raise (IOException, JSONException, NumberFormatException, NullPointerException) is collapsed
    into the single failure `Fail`. */
module Results {

  datatype Option<+T> = None | Some(value: T) {

    /** The wrapped value, or `default` when there is none. */
    function GetOr(default: T): T {
      if Some? then value else default
    }
  }

  datatype Result<+T> = Ok(value: T) | Fail {

    predicate IsFailure() {
      Fail?
    }

    function PropagateFailure<U>(): Result<U>
      requires Fail?
    {
      Fail
    }

    function Extract(): T
      requires Ok?
    {
      value
    }
  }

  /** `f` applied to each element in order; the first failure fails the whole. */
  function Traverse<A, B>(f: A -> Result<B>, xs: seq<A>): Result<seq<B>> {
    if xs == [] then Ok([])
    else
      var init :- Traverse(f, xs[..|xs| - 1]);
      var last :- f(xs[|xs| - 1]);
      Ok(init + [last])
  }

  /** A traversal succeeds exactly when `f` succeeds on every element, and then has one result
      per element. */
  lemma {:induction false} TraverseOk<A, B>(f: A -> Result<B>, xs: seq<A>)
    ensures Traverse(f, xs).Ok? <==> forall k :: 0 <= k < |xs| ==> f(xs[k]).Ok?
    ensures Traverse(f, xs).Ok? ==> |Traverse(f, xs).value| == |xs|
  {
    if xs != [] {
      var n := |xs| - 1;
      var init := xs[..n];
      TraverseOk(f, init);
      assert forall k :: 0 <= k < n ==> init[k] == xs[k];
    }
  }

  /** Result k of a successful traversal is what `f` gives for element k. */
  lemma {:induction false} TraverseAt<A, B>(f: A -> Result<B>, xs: seq<A>, k: nat)
    requires k < |xs| && Traverse(f, xs).Ok?
    ensures f(xs[k]).Ok? && k < |Traverse(f, xs).value|
    ensures Traverse(f, xs).value[k] == f(xs[k]).value
  {
    var n := |xs| - 1;
    var init := xs[..n];
    TraverseOk(f, init);
    if k < n {
      TraverseAt(f, init, k);
      assert init[k] == xs[k];
    }
  }

  /** Traversing one more element appends its result. */
  lemma TraverseSnoc<A, B>(f: A -> Result<B>, xs: seq<A>, x: A)
    ensures Traverse(f, xs + [x]) ==
      if Traverse(f, xs).Ok? && f(x).Ok? then Ok(Traverse(f, xs).value + [f(x).value]) else Fail
  {
    assert (xs + [x])[..|xs|] == xs;
  }
}
