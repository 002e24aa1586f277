/**
 * The generator object itself: a class whose fields `attach` and the
 * producer's `detach` update in place.
 */
module SimpleCoroutines {
  import opened CoroutineModel

  class SimpleCoroutine<T> {
    /** The producer body: the values it detaches, in order, before it returns. */
    const script: seq<T>
    /** Set by the completion continuation once the producer body has returned. */
    var done: bool
    /** The slot `detach` writes and `attach` reads; never cleared. */
    var value: Option<T>
    /**
     * Where the stored continuation resumes the producer: right after its
     * `resumePoint`-th detach, or at the start of the body when 0.
     */
    var resumePoint: nat

    ghost function State(): Snapshot<T>
      reads this
    {
      Snapshot(done, value, resumePoint)
    }

    ghost predicate Valid()
      reads this
    {
      Reachable(script, State())
    }

    /** Binds the producer body; no producer step runs yet. */
    constructor (script: seq<T>)
      ensures this.script == script
      ensures State() == Initial() && Valid()
    {
      this.script := script;
      done := false;
      value := None;
      resumePoint := 0;
    }

    /** Whether the producer has finished; reading it changes nothing. */
    function IsDone(): (r: bool)
      reads this
      requires Valid()
      ensures r <==> State().done
      ensures r ==> resumePoint == |script| && value == LastSlot(script)
    {
      done
    }

    /**
     * Consumer side: fails on a finished generator, otherwise resumes the
     * producer and returns what is in the slot.
     */
    method Attach() returns (r: Outcome<T>)
      requires Valid()
      modifies this
      ensures Valid()
      ensures (State(), r) == AttachStep(script, old(State()))
      ensures old(done) ==> r == Threw(IllegalState) && unchanged(this)
    {
      if done {
        return Threw(IllegalState);
      }
      Resume();
      r := if value.Some? then Returned(value.value) else Threw(NullAssertion);
    }

    /**
     * Resumes the stored continuation: the producer runs to its next detach,
     * or off its end into the completion continuation.
     */
    method Resume()
      requires Valid() && !done
      modifies this
      ensures Valid()
      ensures old(resumePoint) < |script| ==>
                State() == Snapshot(false, Some(script[old(resumePoint)]), old(resumePoint) + 1)
      ensures old(resumePoint) == |script| ==> State() == old(State()).(done := true)
    {
      if resumePoint < |script| {
        Detach(script[resumePoint]);
      } else {
        Complete();
      }
    }

    /**
     * Producer side: stores `v` in the slot and suspends, saving the
     * continuation just past this detach.
     */
    method Detach(v: T)
      requires Valid() && !done && resumePoint < |script| && v == script[resumePoint]
      modifies this
      ensures Valid()
      ensures value == Some(v) && resumePoint == old(resumePoint) + 1 && done == old(done)
    {
      value := Some(v);
      resumePoint := resumePoint + 1;
    }

    /** The completion continuation: runs when the producer body returns. */
    method Complete()
      requires Valid() && resumePoint == |script|
      modifies this
      ensures Valid()
      ensures done && value == old(value) && resumePoint == old(resumePoint)
    {
      done := true;
    }
  }
}
