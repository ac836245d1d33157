/** Running a list of fallible steps in order, as a loop that raises at
    the first failing step does. */
module StepRuns {
  import opened Wrappers

  /** Running a list of steps in order: every value, or the first
      error. */
  function Collect<T, E>(rs: seq<Result<T, E>>): Result<seq<T>, E>
    decreases |rs|
  {
    if rs == [] then Ok([])
    else
      var prev :- Collect(rs[..|rs| - 1]);
      var last :- rs[|rs| - 1];
      Ok(prev + [last])
  }

  /** Once a step fails, the run fails with that error. */
  lemma {:induction false} CollectErr<T, E>(rs: seq<Result<T, E>>, k: nat)
    requires k <= |rs| && Collect(rs[..k]).Err?
    ensures Collect(rs) == Collect(rs[..k])
    decreases |rs| - k
  {
    if k < |rs| {
      var front := rs[..|rs| - 1];
      assert front[..k] == rs[..k];
      CollectErr(front, k);
    } else {
      assert rs[..k] == rs;
    }
  }

  /** The run succeeds exactly when every step does, and then holds each
      step's value in order. */
  lemma {:induction false} CollectOk<T, E>(rs: seq<Result<T, E>>)
    ensures Collect(rs).Ok? <==> forall i :: 0 <= i < |rs| ==> rs[i].Ok?
    ensures Collect(rs).Ok? ==> (|Collect(rs).value| == |rs|
      && forall i :: 0 <= i < |rs| ==> rs[i] == Ok(Collect(rs).value[i]))
    decreases |rs|
  {
    if rs != [] {
      var front := rs[..|rs| - 1];
      CollectOk(front);
      assert forall i :: 0 <= i < |front| ==> front[i] == rs[i];
    }
  }
}
