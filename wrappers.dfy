/** Go's nil-able values and `error` values, shared by every service of the platform. */
module Wrappers {

  /** A value that may be nil. */
  datatype Option<+T> = None | Some(value: T)

  /** A non-nil Go `error`. */
  datatype Error =
    | Message(text: string)       // errors.New, or an error reported by a driver or a library
    | Joined(errs: seq<Error>)    // what errors.Join returns: the non-nil arguments, in order
    | InvalidTopParameter         // the statistic service's InvalidTopParameterError{}
    | TxDone                      // sql.ErrTxDone
    | NotFound(cause: Error)      // status.Errorf(codes.NotFound, cause.Error())

  /** A Go `(value, error)` pair where the value is meaningless once the error is non-nil. */
  datatype Result<+T> = Ok(value: T) | Err(error: Error)

  /** errors.Is: `err` is `target` or wraps it through errors.Join. */
  predicate Is(err: Error, target: Error)
    decreases err
  {
    err == target || (err.Joined? && exists i :: 0 <= i < |err.errs| && Is(err.errs[i], target))
  }

  /** The non-nil errors of `errs`, in order. */
  function NonNil(errs: seq<Option<Error>>): (r: seq<Error>)
    ensures |r| <= |errs|
    ensures forall i :: 0 <= i < |errs| && errs[i].Some? ==> errs[i].value in r
    ensures forall e :: e in r ==> Some(e) in errs
    ensures r == [] <==> forall i :: 0 <= i < |errs| ==> errs[i].None?
  {
    if errs == [] then []
    else
      var rest := NonNil(errs[1..]);
      assert forall i :: 1 <= i < |errs| ==> errs[i] == errs[1..][i - 1];
      if errs[0].Some? then [errs[0].value] + rest else rest
  }

  /** errors.Join: nil when every argument is nil, otherwise an error wrapping each non-nil argument. */
  function Join(errs: seq<Option<Error>>): (r: Option<Error>)
    ensures r.None? <==> forall i :: 0 <= i < |errs| ==> errs[i].None?
    ensures forall i :: 0 <= i < |errs| && errs[i].Some? ==> r.Some? && Is(r.value, errs[i].value)
  {
    var present := NonNil(errs);
    if present == [] then None
    else
      var r := Joined(present);
      assert forall e :: e in present ==> Is(r, e) by {
        forall e | e in present ensures Is(r, e) {
          var i :| 0 <= i < |present| && present[i] == e;
          assert Is(present[i], e);
        }
      }
      Some(r)
  }

  /** errors.Join of two values, the form every caller in the platform uses. */
  function Join2(a: Option<Error>, b: Option<Error>): (r: Option<Error>)
    ensures r.None? <==> a.None? && b.None?
    ensures a.Some? ==> r.Some? && Is(r.value, a.value)
    ensures b.Some? ==> r.Some? && Is(r.value, b.value)
  {
    var r := Join([a, b]);
    assert [a, b][0] == a && [a, b][1] == b;
    r
  }
}
