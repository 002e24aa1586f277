# SimpleCoroutine in Dafny

A model of `SimpleCoroutine<T>`, a caller-driven generator written in Kotlin.
The generator keeps three fields:

- `done`, the completion flag;
- `value`, a nullable slot;
- `nextStep`, the continuation of the producer body.

The consumer calls `attach()`. It throws `IllegalStateException` when `done` is
set. Otherwise it resumes the producer and returns `value!!`. The producer calls
`detach(v)`. It stores `v` in the slot and suspends. When the producer body
returns, a completion continuation sets `done`.

The producer body is modelled as a script: the sequence of values it detaches,
in order, before it returns. The continuation `nextStep` is modelled as a resume
point: the number of detaches already run.

- `CoroutineModel` (coroutine_model.dfy) states the behaviour on values:
  - `Snapshot` is the generator's state;
  - `AttachStep` is one `attach()` call;
  - `Run` is the result of k attaches on a fresh generator;
  - lemmas state value fidelity, the completing attach and terminal irreversibility.
- `SimpleCoroutines` (simple_coroutine.dfy) is the class:
  - it has fields `done`, `value` and `resumePoint`;
  - its methods `Attach`, `Resume`, `Detach` and `Complete` update them in place;
  - `Attach` is proved against `AttachStep`.
- `MagicNumbers` (magic_numbers.dfy) is the sample driver. It runs
  `while (!isDone) attach()`, first for any script and then for the producer
  that detaches 7, 9 and 13.

The model follows the code as written, not an idealised generator. The flag is
only set during the attach that comes after the last detach. That attach still
returns the slot, which holds the stale last value. So the sample driver
receives 7, 9, 13, 13 in four attaches, not 7, 9, 13 in three. A producer that
detaches nothing makes the first attach set the flag and then fail on `value!!`.

## Model

| member | source | states |
|---|---|---|
| `CoroutineModel.AttachStep` | src/SimpleCoroutine.kt:26-40 | Attaching a finished generator throws IllegalState and leaves the state unchanged. Otherwise the flag becomes set exactly when the producer has no detach left. Before the end, attach returns the next script value and advances the resume point by one. At the end, it keeps the slot and returns the stale last value, or throws on the null assertion when nothing was detached. Reachable states stay reachable. |
| `CoroutineModel.Run` | src/SimpleCoroutine.kt:26-40 | Every state reached by attaches from a fresh generator is reachable: the slot holds the last detached value, and the flag is set only after the producer ran past its last detach. k attaches give k outcomes. |
| `CoroutineModel.RunExtends` | src/SimpleCoroutine.kt:30-32 | Later attaches never change what earlier attaches returned. |
| `CoroutineModel.RunBeforeEnd` | src/SimpleCoroutine.kt:30-38 | For k ≤ n, the first k attaches return v1..vk in order. The flag is still clear, the slot holds vk and the resume point is k. |
| `CoroutineModel.CompletingAttach` | src/SimpleCoroutine.kt:12-15 | The (n+1)-th attach sets the flag and keeps the slot. It returns the stale vn, or throws NullAssertion when n = 0. |
| `CoroutineModel.AfterCompletion` | src/SimpleCoroutine.kt:26-28 | After the completing attach, the state never changes again and every further attach throws IllegalState. |
| `CoroutineModel.DoneExactlyAfterEnd` | src/SimpleCoroutine.kt:6-14 | The flag is set after k attaches if and only if k > n. |
| `CoroutineModel.DoneStaysSet` | src/SimpleCoroutine.kt:14 | Once the flag is set, it stays set for every later number of attaches. |
| `CoroutineModel.AllOutcomes` | src/SimpleCoroutine.kt:26-40 | The first n+1 attaches return exactly v1..vn and then vn again. With an empty producer, they return the single NullAssertion failure. |
| `SimpleCoroutines.SimpleCoroutine.constructor` | src/SimpleCoroutine.kt:4-22 | A new generator has `done` false and an empty slot, and no producer step has run. |
| `SimpleCoroutines.SimpleCoroutine.IsDone` | src/SimpleCoroutine.kt:24 | A pure read of the flag. When set, the producer has run all its detaches and the slot holds the last value. |
| `SimpleCoroutines.SimpleCoroutine.Attach` | src/SimpleCoroutine.kt:26-33 | The new state and the result are exactly `AttachStep` of the old state. On a finished generator it throws IllegalState and changes nothing. |
| `SimpleCoroutines.SimpleCoroutine.Resume` | src/SimpleCoroutine.kt:30 | Resuming runs the producer either to its next detach, which fills the slot and advances the resume point, or off its end, which sets only the flag. |
| `SimpleCoroutines.SimpleCoroutine.Detach` | src/SimpleCoroutine.kt:35-40 | The slot holds `v`, the resume point moves past this detach, and the flag is unchanged. |
| `SimpleCoroutines.SimpleCoroutine.Complete` | src/SimpleCoroutine.kt:8-17 | The completion continuation sets `done` and touches nothing else. |
| `MagicNumbers.Drive` | src/SimpleCoroutine.kt:50-56 | The `while (!isDone)` loop makes n+1 attaches and receives v1..vn followed by vn again. With an empty producer, the first attach throws out of the loop. |
| `MagicNumbers.MagicNumbersMain` | src/SimpleCoroutine.kt:43-57 | The sample producer makes the driver perform exactly 4 attaches and receive 7, 9, 13, 13. |

## Left out

- Kotlin's coroutine library (`createCoroutine`, `suspendCoroutine`, `Continuation`, `EmptyCoroutineContext`). These are foreign code. The continuation is replaced by the script and the resume point.
- Console tracing (`print`/`println`). It is output only and never affects state.
- Exceptions thrown by the producer body. The completion continuation ignores its `SuccessOrFailure` argument, so a failing body ends exactly like one that returns: `done` is set. Scripts only model bodies that return normally.
- Producer bodies whose control flow depends on values or that never return. A script is a finite, fixed sequence of detaches. A body that detaches forever is not modelled.
- Nullable element types. With a nullable `T`, `detach(null)` would make the following `value!!` throw. The model treats detached values as non-null.
- Producer code run between detaches. It only prints here, so a resume goes straight to the next detach or to the end.
