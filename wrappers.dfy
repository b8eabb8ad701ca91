/** Failure-carrying values used across the model: an optional value, the
    outcome of a call that may raise (its error text standing for str(e)),
    and the values kept from a sequence of optional ones. */
module Wrappers {

  datatype Option<+T> = None | Some(value: T)

  datatype Result<+T> = Ok(value: T) | Err(message: string)

  /** The values present in a sequence of optional values, in order. */
  function Present<T>(xs: seq<Option<T>>): (values: seq<T>)
    ensures |values| <= |xs|
  {
    if xs == [] then []
    else
      var front := Present(xs[..|xs| - 1]);
      match xs[|xs| - 1]
      case Some(id) => front + [id]
      case None => front
  }

  /** Keeping the values is compositional over appending one more. */
  lemma PresentSnoc<T>(xs: seq<Option<T>>, x: Option<T>)
    ensures Present(xs + [x]) == Present(xs) + (if x.Some? then [x.value] else [])
  {
    assert (xs + [x])[..|xs|] == xs;
  }

  /** A value is kept exactly when it occurs wrapped in Some. */
  lemma {:induction false} PresentMembership<T>(xs: seq<Option<T>>, id: T)
    ensures id in Present(xs) <==> Some(id) in xs
  {
    if xs != [] {
      var front := xs[..|xs| - 1];
      PresentMembership(front, id);
      assert xs == front + [xs[|xs| - 1]];
    }
  }

  /** When every entry is present, all of them are kept, in order. */
  lemma {:induction false} PresentOfAllSome<T>(xs: seq<Option<T>>, ids: seq<T>)
    requires |xs| == |ids|
    requires forall k :: 0 <= k < |xs| ==> xs[k] == Some(ids[k])
    ensures Present(xs) == ids
  {
    if xs != [] {
      PresentOfAllSome(xs[..|xs| - 1], ids[..|ids| - 1]);
    }
  }
}
