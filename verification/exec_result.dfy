/** The execution result of the second core draft and its conversions to and from a plain
    result and to a control-flow signal. */
module ExecResults {
  import opened Wrappers

  datatype ExecResult<S> = Success(success: S) | Failure(failure: string)

  /** `std::ops::ControlFlow`: go on with a value, or break with a reason. */
  datatype ControlFlow<B, C> = Continue(c: C) | Break(b: B)

  /** `unwrap`: success goes on, failure breaks, the payload is kept. */
  function Unwrap<S>(e: ExecResult<S>): (r: ControlFlow<string, S>)
    ensures r.Continue? <==> e.Success?
    ensures r.Continue? ==> r.c == e.success
    ensures r.Break? ==> r.b == e.failure
  {
    match e
    case Success(s) => Continue(s)
    case Failure(f) => Break(f)
  }

  /** `into`: an execution result as a plain result. */
  function Into<S>(e: ExecResult<S>): (r: Result<S, string>)
    ensures r.Success? <==> e.Success?
  {
    match e
    case Success(s) => Result.Success(s)
    case Failure(f) => Result.Failure(f)
  }

  /** `from`: a plain result as an execution result. */
  function From<S>(r: Result<S, string>): (e: ExecResult<S>)
    ensures e.Success? <==> r.Success?
  {
    match r
    case Success(s) => ExecResult.Success(s)
    case Failure(f) => ExecResult.Failure(f)
  }

  /** Converting a result and back gives it again. */
  lemma IntoFrom<S>(r: Result<S, string>)
    ensures Into(From(r)) == r
  {
  }

  /** Converting an execution result and back gives it again. */
  lemma FromInto<S>(e: ExecResult<S>)
    ensures From(Into(e)) == e
  {
  }

  /** Unwrapping agrees with the conversion: a continuation carries the success value, a
      break the failure message. */
  lemma UnwrapAgreesWithInto<S>(e: ExecResult<S>)
    ensures Unwrap(e).Continue? ==> Into(e) == Result.Success(Unwrap(e).c)
    ensures Unwrap(e).Break? ==> Into(e) == Result.Failure(Unwrap(e).b)
  {
  }
}
