/**
 * The behaviour of a caller-driven generator, stated on values.
 *
 * The producer body is an arbitrary suspendable block in the original
 * program. Here it is an explicit script: the sequence of values it hands to
 * `detach`, in order, after which the body returns. The continuation that the
 * generator keeps between two resumptions is represented by how many of those
 * detaches have already run.
 */
module CoroutineModel {

  datatype Option<T> = None | Some(value: T)

  /** The exceptions `attach()` can end with. */
  datatype Failure =
    | IllegalState   // attaching a generator whose completion flag is already set
    | NullAssertion  // `value!!` on a slot that no detach has ever filled

  /** What one `attach()` call does for its caller: return a value or throw. */
  datatype Outcome<T> = Returned(value: T) | Threw(failure: Failure)

  /**
   * The generator's state: the completion flag, the value slot and the
   * resume point (the number of detaches the producer has executed; the
   * producer is suspended right after the last of them, or has not started
   * when it is 0).
   */
  datatype Snapshot<T> = Snapshot(done: bool, value: Option<T>, resumePoint: nat)

  /** A freshly constructed generator: nothing has run, the slot is empty. */
  function Initial<T>(): Snapshot<T>
  {
    Snapshot(false, None, 0)
  }

  /**
   * The states a generator running `script` can be in: the slot holds the
   * value of the last detach executed (empty before the first one), and the
   * flag is set only once the producer has run past its last detach.
   */
  ghost predicate Reachable<T>(script: seq<T>, s: Snapshot<T>)
  {
    && s.resumePoint <= |script|
    && (s.done ==> s.resumePoint == |script|)
    && s.value == (if s.resumePoint == 0 then None else Some(script[s.resumePoint - 1]))
  }

  /** The value the completing attach hands back: the stale slot, if any detach ever ran. */
  function LastSlot<T>(script: seq<T>): Option<T>
  {
    if |script| == 0 then None else Some(script[|script| - 1])
  }

  /**
   * One `attach()` call. On a finished generator it throws and changes
   * nothing. Otherwise it resumes the producer, which either detaches its
   * next value (storing it in the slot and suspending) or runs off its end
   * (the completion continuation sets the flag); then it returns the slot,
   * failing if the slot is empty.
   */
  function AttachStep<T>(script: seq<T>, s: Snapshot<T>): (res: (Snapshot<T>, Outcome<T>))
    requires s.resumePoint <= |script|
    ensures Reachable(script, s) ==> Reachable(script, res.0)
    ensures s.done ==> res.0 == s && res.1 == Threw(IllegalState)
    ensures res.0.done <==> s.done || s.resumePoint == |script|
    ensures !s.done && s.resumePoint < |script| && Reachable(script, s) ==>
              res.1 == Returned(script[s.resumePoint]) && res.0.resumePoint == s.resumePoint + 1
    ensures !s.done && s.resumePoint == |script| && Reachable(script, s) ==>
              res.0.value == s.value &&
              res.1 == (if |script| == 0 then Threw(NullAssertion) else Returned(script[|script| - 1]))
  {
    if s.done then
      (s, Threw(IllegalState))
    else
      var s' := if s.resumePoint < |script| then s.(value := Some(script[s.resumePoint]), resumePoint := s.resumePoint + 1)
                else s.(done := true);
      (s', if s'.value.Some? then Returned(s'.value.value) else Threw(NullAssertion))
  }

  /**
   * The state left by `k` consecutive `attach()` calls on a fresh generator,
   * and the outcome of each call, in order.
   */
  function Run<T>(script: seq<T>, k: nat): (res: (Snapshot<T>, seq<Outcome<T>>))
    ensures Reachable(script, res.0)
    ensures |res.1| == k
  {
    if k == 0 then
      (Initial(), [])
    else
      var prev := Run(script, k - 1);
      var next := AttachStep(script, prev.0);
      (next.0, prev.1 + [next.1])
  }

  /** Later calls never revise what earlier calls returned. */
  lemma {:induction false} RunExtends<T>(script: seq<T>, k: nat, j: nat)
    requires k <= j
    ensures Run(script, j).1[..k] == Run(script, k).1
  {
    if k < j {
      RunExtends(script, k, j - 1);
      assert Run(script, j).1[..j - 1] == Run(script, j - 1).1;
    }
  }

  /**
   * Value fidelity: for a producer that detaches v1..vn, the first k <= n
   * attaches return exactly v1..vk, in order; the flag is still clear and the
   * slot holds vk.
   */
  lemma {:induction false} RunBeforeEnd<T>(script: seq<T>, k: nat)
    requires k <= |script|
    ensures Run(script, k).0 == Snapshot(false, if k == 0 then None else Some(script[k - 1]), k)
    ensures forall i :: 0 <= i < k ==> Run(script, k).1[i] == Returned(script[i])
  {
    if k > 0 {
      RunBeforeEnd(script, k - 1);
    }
  }

  /**
   * The (n+1)-th attach runs the producer to its end: it sets the flag and
   * returns the stale last value vn, or throws on the empty slot when the
   * producer detached nothing.
   */
  lemma CompletingAttach<T>(script: seq<T>)
    ensures Run(script, |script| + 1).0 == Snapshot(true, LastSlot(script), |script|)
    ensures Run(script, |script| + 1).1[|script|] ==
              (if |script| == 0 then Threw(NullAssertion) else Returned(script[|script| - 1]))
  {
    RunBeforeEnd(script, |script|);
  }

  /**
   * Terminal irreversibility: past the completing attach the state never
   * changes again and every further attach throws IllegalState.
   */
  lemma {:induction false} AfterCompletion<T>(script: seq<T>, k: nat)
    requires k > |script|
    ensures Run(script, k).0 == Snapshot(true, LastSlot(script), |script|)
    ensures forall i :: |script| < i < k ==> Run(script, k).1[i] == Threw(IllegalState)
  {
    if k == |script| + 1 {
      CompletingAttach(script);
    } else {
      AfterCompletion(script, k - 1);
      RunExtends(script, k - 1, k);
    }
  }

  /** The flag is set after exactly n+1 attaches, and not before. */
  lemma DoneExactlyAfterEnd<T>(script: seq<T>, k: nat)
    ensures Run(script, k).0.done <==> k > |script|
  {
    if k <= |script| {
      RunBeforeEnd(script, k);
    } else {
      AfterCompletion(script, k);
    }
  }

  /** The flag only ever goes from false to true. */
  lemma {:induction false} DoneStaysSet<T>(script: seq<T>, k: nat, j: nat)
    requires k <= j
    requires Run(script, k).0.done
    ensures Run(script, j).0.done
  {
    DoneExactlyAfterEnd(script, k);
    DoneExactlyAfterEnd(script, j);
  }

  /**
   * Everything the first n+1 attaches return, together: v1..vn and then vn
   * again (or a single failure when nothing was detached).
   */
  lemma AllOutcomes<T>(script: seq<T>)
    ensures |script| > 0 ==>
              Run(script, |script| + 1).1 == seq(|script|, i requires 0 <= i < |script| => Returned(script[i])) + [Returned(script[|script| - 1])]
    ensures |script| == 0 ==> Run(script, 1).1 == [Threw(NullAssertion)]
  {
    RunBeforeEnd(script, |script|);
    CompletingAttach(script);
    RunExtends(script, |script|, |script| + 1);
  }
}
