/** `Array.prototype.find` and JavaScript's strict equality on the values it compares. */
module Lookup {
  import opened Wrappers
  import opened JsValues

  /** `a === b` on scalar values: NaN equals nothing, not even itself. */
  predicate StrictEquals(a: Value, b: Value) {
    a == b && !a.NaN?
  }

  /** The index of the first element satisfying p, or |xs| when there is none. */
  function FirstIndex<T>(xs: seq<T>, p: T -> bool): (k: nat)
    ensures k <= |xs|
    ensures forall j :: 0 <= j < k ==> !p(xs[j])
    ensures k < |xs| ==> p(xs[k])
    decreases |xs|
  {
    if xs == [] then 0
    else if p(xs[0]) then 0
    else 1 + FirstIndex(xs[1..], p)
  }

  /** `xs.find(p)`: the first element satisfying p, or undefined (None). */
  function Find<T>(xs: seq<T>, p: T -> bool): (r: Option<T>)
    ensures r.None? <==> forall j :: 0 <= j < |xs| ==> !p(xs[j])
    ensures r.Some? ==> r.value in xs && p(r.value)
  {
    var k := FirstIndex(xs, p);
    if k < |xs| then Some(xs[k]) else None
  }

  /** find returns the first match: an element found earlier in the sequence wins. */
  lemma FindIsFirst<T>(xs: seq<T>, p: T -> bool, i: nat)
    requires i < |xs| && p(xs[i])
    ensures Find(xs, p).Some?
    ensures Find(xs, p) == Some(xs[FirstIndex(xs, p)]) && FirstIndex(xs, p) <= i
  {
  }

  /** Appending elements after a match does not change what find returns. */
  lemma {:induction false} FindIgnoresAppended<T>(xs: seq<T>, ys: seq<T>, p: T -> bool)
    requires Find(xs, p).Some?
    ensures Find(xs + ys, p) == Find(xs, p)
  {
    var k := FirstIndex(xs, p);
    FirstIndexOfPrefix(xs, ys, p);
    assert (xs + ys)[k] == xs[k];
  }

  lemma {:induction false} FirstIndexOfPrefix<T>(xs: seq<T>, ys: seq<T>, p: T -> bool)
    requires FirstIndex(xs, p) < |xs|
    ensures FirstIndex(xs + ys, p) == FirstIndex(xs, p)
    decreases |xs|
  {
    assert (xs + ys)[0] == xs[0];
    if !p(xs[0]) {
      assert (xs + ys)[1..] == xs[1..] + ys;
      FirstIndexOfPrefix(xs[1..], ys, p);
    }
  }
}
