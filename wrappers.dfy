/** Option and Result, the two failure-carrying shapes the rest of the model uses
    for Go's `nil`-able values and `(value, error)` returns. */
module Wrappers {

  datatype Option<+T> = None | Some(value: T) {
    function GetOr(default: T): T {
      match this
      case Some(v) => v
      case None => default
    }
  }

  datatype Result<+R, +E> = Success(value: R) | Failure(error: E) {
    predicate IsFailure() {
      Failure?
    }
  }
}

/** Go `error` values. Errors are compared by identity in Go; here an error that
    comes from code outside the model is told apart by an opaque tag. */
module Errors {
  datatype Error =
    | ErrUnregisteredStatement      // database.ErrUnregisteredStatement, "statement not registered"
    | External(tag: nat)            // any error produced by a collaborator outside the model
}

/** Go map iteration: a `range` over a map visits every key exactly once, in an
    order the program does not choose. The order is an input to the model. */
module GoMaps {
  ghost predicate IsIterationOrder<V>(m: map<string, V>, keys: seq<string>) {
    && |keys| == |m|
    && (forall k :: k in keys <==> k in m)
    && (forall i, j :: 0 <= i < j < |keys| ==> keys[i] != keys[j])
  }
}
