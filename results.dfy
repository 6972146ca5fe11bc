/** Failure values for the transposer: every exception the Python code can raise
    becomes an `Err` carrying one of the error kinds below. */
module Results {

  datatype Option<+T> = None | Some(value: T)

  /** The kinds of failure the transposer can report. */
  datatype Error =
    | InvalidKey(key: string)            // "Invalid key: %s"
    | InvalidChord(chord: string)        // "Invalid chord: %s"
    | InvalidOutputStyle(style: string)  // "Invalid output chord style: %s"
    | ValueNotInList(item: string)       // list.index on a missing value (ValueError)
    | IndexOutOfRange(index: int)        // subscript past the end of a list (IndexError)
    | KeyNotFound(key: string)           // dictionary subscript on a missing key (KeyError)

  datatype Result<+T> = Ok(value: T) | Err(error: Error) {
    predicate IsFailure() { Err? }

    function PropagateFailure<U>(): Result<U>
      requires Err?
    {
      Err(error)
    }

    function Extract(): T
      requires Ok?
    {
      value
    }
  }

  /** `f` applied to each element in turn, left to right; the first failure stops the run and
      is its result. This is what a Python loop or `re.sub` callback that raises does. */
  function MapUntilFailure<A, B>(xs: seq<A>, f: A -> Result<B>): (r: Result<seq<B>>)
    ensures r.Ok? ==> |r.value| == |xs|
    decreases |xs|
  {
    if xs == [] then Ok([])
    else
      var done :- MapUntilFailure(xs[..|xs| - 1], f);
      var last :- f(xs[|xs| - 1]);
      Ok(done + [last])
  }

  /** The run over one more element. */
  lemma MapStep<A, B>(xs: seq<A>, k: nat, f: A -> Result<B>, done: seq<B>)
    requires k < |xs| && MapUntilFailure(xs[..k], f) == Ok(done)
    ensures f(xs[k]).Ok? ==> MapUntilFailure(xs[..k + 1], f) == Ok(done + [f(xs[k]).value])
    ensures f(xs[k]).Err? ==> MapUntilFailure(xs[..k + 1], f) == Err(f(xs[k]).error)
  {
    assert xs[..k + 1][..k] == xs[..k];
  }

  /** Once an element fails, every longer run fails with its error. */
  lemma {:induction false} MapStopsAt<A, B>(xs: seq<A>, k: nat, n: nat, f: A -> Result<B>, done: seq<B>)
    requires k < n <= |xs| && MapUntilFailure(xs[..k], f) == Ok(done) && f(xs[k]).Err?
    ensures MapUntilFailure(xs[..n], f) == Err(f(xs[k]).error)
    decreases n
  {
    if n == k + 1 {
      MapStep(xs, k, f, done);
    } else {
      MapStopsAt(xs, k, n - 1, f, done);
      assert xs[..n][..n - 1] == xs[..n - 1];
    }
  }

  /** The run succeeds exactly when every element succeeds, and then holds each element's
      result at the element's own position. */
  lemma {:induction false} MapElementwise<A, B>(xs: seq<A>, f: A -> Result<B>)
    ensures MapUntilFailure(xs, f).Ok? <==> forall i | 0 <= i < |xs| :: f(xs[i]).Ok?
    ensures MapUntilFailure(xs, f).Ok? ==> forall i | 0 <= i < |xs| :: MapUntilFailure(xs, f).value[i] == f(xs[i]).value
    decreases |xs|
  {
    if xs != [] {
      var init := xs[..|xs| - 1];
      MapElementwise(init, f);
      assert forall i | 0 <= i < |init| :: init[i] == xs[i];
    }
  }

  /** A failed run reports the failure of the leftmost element that fails. */
  lemma {:induction false} MapFirstFailure<A, B>(xs: seq<A>, f: A -> Result<B>)
    requires MapUntilFailure(xs, f).Err?
    ensures exists i | 0 <= i < |xs| ::
      f(xs[i]) == Err(MapUntilFailure(xs, f).error) && forall j | 0 <= j < i :: f(xs[j]).Ok?
    decreases |xs|
  {
    var init := xs[..|xs| - 1];
    assert forall i | 0 <= i < |init| :: init[i] == xs[i];
    if MapUntilFailure(init, f).Err? {
      MapFirstFailure(init, f);
      var i :| 0 <= i < |init| && f(init[i]) == Err(MapUntilFailure(init, f).error) &&
        forall j | 0 <= j < i :: f(init[j]).Ok?;
      assert f(xs[i]) == Err(MapUntilFailure(xs, f).error);
    } else {
      MapElementwise(init, f);
    }
  }

  /** Functions that agree on every element give the same run. */
  lemma {:induction false} MapAgrees<A, B>(xs: seq<A>, f: A -> Result<B>, g: A -> Result<B>)
    requires forall i | 0 <= i < |xs| :: f(xs[i]) == g(xs[i])
    ensures MapUntilFailure(xs, f) == MapUntilFailure(xs, g)
    decreases |xs|
  {
    if xs != [] {
      var init := xs[..|xs| - 1];
      assert forall i | 0 <= i < |init| :: init[i] == xs[i];
      MapAgrees(init, f, g);
    }
  }
}
