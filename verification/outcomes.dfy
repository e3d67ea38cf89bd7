/** Failure-compatible results for the scorer. The scoring script never
    catches an exception: whatever Python raises ends the run, so every
    error path of the model is an `Err` carrying the exception that the
    script would raise. */
module Outcomes {

  datatype Option<+T> = None | Some(value: T)

  /** The Python exceptions the scoring path can raise. */
  datatype PyError =
    | OverflowError            // round() of an infinite float
    | ValueError               // round() of a NaN
    | IndexError(index: nat)   // a list subscript past the end
    | KeyError(key: string)    // a missing column or row label

  datatype Result<+T> = Ok(value: T) | Err(error: PyError) {

    predicate IsFailure() {
      Err?
    }

    function PropagateFailure<U>(): Result<U>
      requires Err?
    {
      Err(error)
    }

    function Extract(): T
      requires Ok?
    {
      value
    }
  }

  /** Run steps in order and stop at the first that fails: the values of
      all of them, or the error of the first failing one. */
  function Collect<T>(outs: seq<Result<T>>): (r: Result<seq<T>>)
    ensures r.Ok? <==> forall j :: 0 <= j < |outs| ==> outs[j].Ok?
    ensures r.Ok? ==> |r.value| == |outs| && forall j :: 0 <= j < |outs| ==> outs[j] == Ok(r.value[j])
    ensures r.Err? ==> exists j :: 0 <= j < |outs| && outs[j] == Err(r.error) && AllOk(outs[..j])
  {
    if |outs| == 0 then Ok([])
    else if outs[0].Err? then
      assert AllOk(outs[..0]);
      Err(outs[0].error)
    else
      var tail := outs[1..];
      var rest := Collect(tail);
      if rest.Err? then
        var j :| 0 <= j < |tail| && tail[j] == Err(rest.error) && AllOk(tail[..j]);
        assert outs[..j + 1] == [outs[0]] + tail[..j];
        Err(rest.error)
      else
        assert forall j :: 1 <= j < |outs| ==> outs[j] == tail[j - 1];
        Ok([outs[0].value] + rest.value)
  }

  predicate AllOk<T>(outs: seq<Result<T>>) {
    forall j :: 0 <= j < |outs| ==> outs[j].Ok?
  }
}
