/**
 * Failure-carrying values shared by every module: an optional value, a
 * result that is either a value or the Python exception the source raises.
 */
module Base {

  datatype Option<+T> = None | Some(value: T)

  /** The exception classes the modelled code raises or catches. */
  datatype PyError =
    | ValueError      // invalid input, e.g. a URL with no video id
    | RuntimeError    // the source's own wrapper for a failed stage
    | TypeError       // an operation applied to a value of the wrong type
    | AttributeError  // a string method called on a non-string value
    | ServiceError    // an exception escaping an external service call

  datatype Result<+T> = Ok(value: T) | Err(error: PyError)

  predicate NoDuplicates<T(==)>(xs: seq<T>) {
    forall i, j :: 0 <= i < j < |xs| ==> xs[i] != xs[j]
  }

  /** `list(s)`: the elements of a set, each once, in some order. */
  method ListOf<T(==)>(s: set<T>) returns (xs: seq<T>)
    ensures NoDuplicates(xs)
    ensures forall x :: x in xs <==> x in s
  {
    xs := [];
    var rest := s;
    while rest != {}
      invariant NoDuplicates(xs)
      invariant forall x :: x in xs ==> x !in rest
      invariant forall x :: x in s <==> x in xs || x in rest
      decreases |rest|
    {
      var x :| x in rest;
      xs := xs + [x];
      rest := rest - {x};
    }
  }
}
