/** Linear search: the first element of a sequence that satisfies a test. */
module Search {
  import opened Wrappers

  /** `i` is the position of the first element of `xs` that satisfies `p`. */
  ghost predicate IsFirst<T>(xs: seq<T>, p: T -> bool, i: int) {
    0 <= i < |xs| && p(xs[i]) && forall j :: 0 <= j < i ==> !p(xs[j])
  }

  /** The first element satisfying `p`, scanning from the front (Rust's `iter().find`). */
  function Find<T>(xs: seq<T>, p: T -> bool): (r: Option<T>)
    ensures r.None? <==> forall j :: 0 <= j < |xs| ==> !p(xs[j])
    ensures r.Some? ==> exists i :: IsFirst(xs, p, i) && xs[i] == r.value
    decreases |xs|
  {
    if |xs| == 0 then None
    else if p(xs[0]) then (assert IsFirst(xs, p, 0); Some(xs[0]))
    else
      var rest := Find(xs[1..], p);
      if rest.Some? then
        assert exists i :: IsFirst(xs, p, i) && xs[i] == rest.value by {
          var i :| IsFirst(xs[1..], p, i) && xs[1..][i] == rest.value;
          assert IsFirst(xs, p, i + 1);
        }
        rest
      else
        assert forall j :: 1 <= j < |xs| ==> xs[j] == xs[1..][j - 1];
        None
  }
}
