/**
 * The loop the services share: walk a list of raw results, turn each one
 * into a record at its 1-based position, and stop at the first one that
 * cannot be turned into a record. Defined on prefixes, so that a loop
 * over the list can keep "the records so far" as an invariant.
 */
module Positions {
  import opened Wrappers

  /** `f` applied to every element at its 1-based position, or the first error it gives. */
  function MapPositions<T, U>(f: (T, nat) -> Result<U>, xs: seq<T>): Result<seq<U>>
    decreases |xs|
  {
    if xs == [] then Ok([])
    else
      match MapPositions(f, xs[..|xs| - 1])
      case Err(e) => Err(e)
      case Ok(us) =>
        match f(xs[|xs| - 1], |xs|)
        case Err(e) => Err(e)
        case Ok(u) => Ok(us + [u])
  }

  /** The fold succeeds exactly when every element succeeds at its position, and then keeps one record per element. */
  lemma {:induction false} MapPositionsOk<T, U>(f: (T, nat) -> Result<U>, xs: seq<T>)
    ensures MapPositions(f, xs).Ok? <==> forall i :: 0 <= i < |xs| ==> f(xs[i], i + 1).Ok?
    ensures MapPositions(f, xs).Ok? ==> |MapPositions(f, xs).value| == |xs|
    decreases |xs|
  {
    if xs != [] {
      var init := xs[..|xs| - 1];
      MapPositionsOk(f, init);
      assert forall i :: 0 <= i < |init| ==> init[i] == xs[i];
    }
  }

  /** Record `i` is element `i` taken at position `i + 1`. */
  lemma {:induction false} MapPositionsAt<T, U>(f: (T, nat) -> Result<U>, xs: seq<T>, i: nat)
    requires MapPositions(f, xs).Ok? && i < |xs|
    ensures i < |MapPositions(f, xs).value| && f(xs[i], i + 1) == Ok(MapPositions(f, xs).value[i])
    decreases |xs|
  {
    MapPositionsOk(f, xs);
    var init := xs[..|xs| - 1];
    MapPositionsOk(f, init);
    if i < |xs| - 1 {
      MapPositionsAt(f, init, i);
    }
  }

  /** Once a prefix fails, the whole list fails with the same error. */
  lemma {:induction false} MapPositionsStaysErr<T, U>(f: (T, nat) -> Result<U>, xs: seq<T>, n: nat)
    requires n <= |xs| && MapPositions(f, xs[..n]).Err?
    ensures MapPositions(f, xs) == MapPositions(f, xs[..n])
    decreases |xs| - n
  {
    if n < |xs| {
      assert xs[..n + 1][..n] == xs[..n];
      MapPositionsStaysErr(f, xs, n + 1);
    } else {
      assert xs[..n] == xs;
    }
  }

  /** One more element: the records so far, then the new one. */
  lemma MapPositionsSnoc<T, U>(f: (T, nat) -> Result<U>, xs: seq<T>, i: nat, us: seq<U>, u: U)
    requires i < |xs| && MapPositions(f, xs[..i]) == Ok(us) && f(xs[i], i + 1) == Ok(u)
    ensures MapPositions(f, xs[..i + 1]) == Ok(us + [u])
  {
    assert xs[..i + 1][..i] == xs[..i];
  }
}
