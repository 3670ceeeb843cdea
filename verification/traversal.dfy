/** Processing the children of a section one by one, in document order, where the
    first child that throws aborts the section. */
module Traversal {
  import opened Results

  function Traverse<T, A>(xs: seq<T>, f: T -> Result<A>): (r: Result<seq<A>>)
    ensures r.Success? <==> forall i :: 0 <= i < |xs| ==> f(xs[i]).Success?
    ensures r.Success? ==> |r.value| == |xs| && forall i :: 0 <= i < |xs| ==> r.value[i] == f(xs[i]).value
    ensures r.Failure? ==> exists k :: 0 <= k < |xs| && f(xs[k]) == Failure(r.error)
                                       && forall i :: 0 <= i < k ==> f(xs[i]).Success?
  {
    if |xs| == 0 then Success([])
    else
      var head :- f(xs[0]);
      var rest :- Traverse(xs[1..], f);
      Success([head] + rest)
  }
}
