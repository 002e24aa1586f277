/**
 * The sample driver: it attaches to a generator for as long as the
 * generator reports that it is not done.
 */
module MagicNumbers {
  import opened CoroutineModel
  import opened SimpleCoroutines

  /** How a driver run ends: the loop exits, or an attach throws out of it. */
  datatype DriverResult<T> = Finished(outputs: seq<T>) | Crashed(outputs: seq<T>, failure: Failure)

  /** The producer of the sample: detaches 7, 9 and 13, then returns. */
  function MagicScript(): seq<int>
  {
    [7, 9, 13]
  }

  /**
   * `while (!isDone) attach()` over a fresh generator for `script`. It makes
   * n+1 attaches and receives every detached value and then the last one
   * again; a producer that detaches nothing crashes the first attach.
   */
  method Drive<T>(script: seq<T>) returns (result: DriverResult<T>, attaches: nat)
    ensures attaches == |script| + 1
    ensures |script| == 0 ==> result == Crashed([], NullAssertion)
    ensures |script| > 0 ==> result == Finished(script + [script[|script| - 1]])
  {
    var c := new SimpleCoroutine(script);
    var outputs: seq<T> := [];
    attaches := 0;
    while !c.IsDone()
      invariant c.Valid() && c.script == script
      invariant attaches == c.resumePoint + (if c.done then 1 else 0)
      invariant !c.done ==> outputs == script[..attaches]
      invariant c.done ==> |script| > 0 && outputs == script + [script[|script| - 1]]
      decreases |script| + 1 - attaches
    {
      var r := c.Attach();
      attaches := attaches + 1;
      if r.Threw? {
        return Crashed(outputs, r.failure), attaches;
      }
      outputs := outputs + [r.value];
    }
    result := Finished(outputs);
  }

  /** The sample run: four attaches, delivering 7, 9, 13 and 13 again. */
  method MagicNumbersMain() returns (result: DriverResult<int>, attaches: nat)
    ensures result == Finished([7, 9, 13, 13])
    ensures attaches == 4
  {
    result, attaches := Drive(MagicScript());
  }
}
