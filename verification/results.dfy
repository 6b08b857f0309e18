/** Failure-carrying return types for the deserialisers.

    Every `fromJSON` of the library either returns a typed object or throws; a
    thrown error is modelled as `Failure`, with the kind of error that the
    library raises at that point. */
module Results {

  datatype Option<+T> = None | Some(value: T)

  /** What a call can throw. Joi's error objects and messages are not modelled:
      every schema violation is one `SchemaError`. */
  datatype Error =
    | ParseError        // JSON.parse rejected the input text
    | SchemaError       // Joi.validate reported an error, a failing default function included
    | DerivationError   // generate$source found no source to derive from
    | UnexpectedObject  // the assertNever fallback of a type dispatch

  datatype Result<+T> = Success(value: T) | Failure(error: Error) {

    predicate IsFailure() {
      Failure?
    }

    function PropagateFailure<U>(): Result<U>
      requires Failure?
    {
      Failure(error)
    }

    function Extract(): T
      requires Success?
    {
      value
    }
  }

  /** `xs.map(f)` where `f` may throw: the first element whose conversion
      throws ends the whole call with that error, and no partial list is
      returned. */
  function MapAll<A, B>(f: A -> Result<B>, xs: seq<A>): (r: Result<seq<B>>)
    ensures r.Success? <==> forall i :: 0 <= i < |xs| ==> f(xs[i]).Success?
    ensures r.Success? ==>
      && |r.value| == |xs|
      && forall i :: 0 <= i < |xs| ==> f(xs[i]) == Success(r.value[i])
    ensures r.Failure? ==>
      exists i :: 0 <= i < |xs| && f(xs[i]) == Failure(r.error)
                                && forall j :: 0 <= j < i ==> f(xs[j]).Success?
    decreases |xs|
  {
    if xs == [] then Success([])
    else
      match f(xs[0])
      case Failure(e) => Failure(e)
      case Success(y) =>
        match MapAll(f, xs[1..])
        case Failure(e) =>
          assert exists i :: 0 <= i < |xs| && f(xs[i]) == Failure(e)
                             && forall j :: 0 <= j < i ==> f(xs[j]).Success? by {
            var i :| 0 <= i < |xs[1..]| && f(xs[1..][i]) == Failure(e)
                     && forall j :: 0 <= j < i ==> f(xs[1..][j]).Success?;
            assert xs[1..][i] == xs[i + 1];
            forall j | 0 <= j < i + 1
              ensures f(xs[j]).Success?
            {
              if j > 0 { assert xs[j] == xs[1..][j - 1]; }
            }
          }
          Failure(e)
        case Success(ys) =>
          assert forall i :: 1 <= i < |xs| ==> xs[i] == xs[1..][i - 1];
          Success([y] + ys)
  }
}
