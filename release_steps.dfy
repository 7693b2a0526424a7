/** The shape every release system's `Release` shares: a fixed list of external
    steps, each of which either fails, ending the release with its error, or
    succeeds and records what it did in the release system's state. */
module ReleaseSteps {
  import opened Wrappers
  import opened Effects

  /** How a release ended: its error (none when every step succeeded), the state it
      left and the index of the step it stopped at (the step count when none failed). */
  datatype Ended<S> = Ended(err: Failure, state: S, at: nat)

  /** A step that only succeeds or fails: on success the state becomes `next`. */
  function Then<S>(c: Out<Failure>, next: S): (r: Out<Result<S>>)
    ensures r.calls == c.calls
    ensures r.value.Ok? <==> c.value.None?
    ensures r.value.Ok? ==> r.value.value == next
    ensures r.value.Err? ==> r.value.error == c.value.value
  {
    Out(if c.value.Some? then Err(c.value.value) else Ok(next), c.calls)
  }
}
