/** Outcomes of the pipeline's operations: the exceptions the toolkit raises
  * (its own GPTRuntimeError and DownloadError, and the Python built-in
  * exceptions its code lets escape) and the usual Option/Result wrappers. */
module Errors {

  datatype Option<T> = None | Some(value: T)

  /** The exception kinds the modelled code can raise. */
  datatype Error =
    | GptRuntimeError(code: int)   // the external graph-processing tool failed
    | DownloadError                // a download or a whole batch did not complete
    | TypeError                    // an unsupported product type or setting
    | ValueError                   // a malformed value (date, id, option)
    | FileNotFoundError            // a product that should be on disk is not
    | IndexError                   // an index or list element that does not exist
    | AttributeError               // an attribute the code never set
    | NameError                    // a local variable the code never bound
    | RuntimeError                 // a generic failure (land-sea mask creation)
    | ZeroDivisionError            // a division by a zero setting
    | KeyError                     // a dictionary key that is not there
    | NotADirectoryError           // a data mount that does not exist

  datatype Result<T> = Success(value: T) | Failure(error: Error)
  {
    predicate IsFailure() { Failure? }

    function PropagateFailure<U>(): Result<U>
      requires Failure?
    {
      Failure(this.error)
    }

    function Extract(): T
      requires Success?
    {
      value
    }
  }

  /** A list comprehension whose step may raise: `[f(x) for x in xs]`,
    * raising the first failure in list order. */
  function Traverse<T, U>(f: T -> Result<U>, xs: seq<T>): (r: Result<seq<U>>)
    ensures r.Success? <==> forall k :: 0 <= k < |xs| ==> f(xs[k]).Success?
    ensures r.Success? ==> |r.value| == |xs|
    ensures r.Success? ==> forall k :: 0 <= k < |xs| ==> r.value[k] == f(xs[k]).value
    ensures r.Failure? ==> exists k :: 0 <= k < |xs| && f(xs[k]) == Failure(r.error)
  {
    if |xs| == 0 then Success([])
    else
      var head := f(xs[0]);
      if head.Failure? then Failure(head.error)
      else
        var rest := Traverse(f, xs[1..]);
        assert forall k :: 0 < k < |xs| ==> xs[k] == xs[1..][k - 1];
        if rest.Failure? then Failure(rest.error) else Success([head.value] + rest.value)
  }
}
