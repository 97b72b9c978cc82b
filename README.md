# Interruptible runnable: the pause/cancel state machine

This project models the cooperative pause/cancel engine of SimpleThreadsAPI,
the class `AbstractInterruptibleRunnable`, and proves properties of that model.

A runnable holds one mutable `state`. It is one of `NOT_RUNNING` (-1),
`RUNNING` (0), `PAUSED` (1) and `CANCELED` (2), and it starts as `NOT_RUNNING`.
Controller threads call `cancel()`, `pause()` and `restart()`. The worker
thread calls `run()`. `run()` moves `NOT_RUNNING` to `RUNNING`, passes one
checkpoint and then executes the subclass's body `execute()`. The body calls
the checkpoint `checkInterruption()` from time to time. When the state is
`PAUSED`, the checkpoint waits. After the wait, or straight away when it did
not wait, it throws `CancelException` if the state is `CANCELED`. `run()`
catches that exception and every other one.

`cancel()`, `pause()`, `restart()`, `isCanceled()`, `isPaused()` and
`checkInterruption()` are `synchronized` methods, and `run()` changes `state`
only inside a `synchronized` block. Each of these is therefore an atomic step
of the model. `getState()` is not synchronized; its read is taken as atomic. The `wait()` inside the checkpoint releases the lock.
It is modelled as a yield point: an arbitrary sequence of controller calls
runs there before the worker reads the state again. An arbitrary sequence also
covers a spurious wakeup and an interrupted wait. Controller calls that run
while the worker does unsynchronized work are the `before` part of a
`Segment`.

Files:

- `state.dfy` (module `RunnableState`): the `State` datatype and its int constants.
- `transitions.dfy` (module `Transitions`): the state machine as pure functions, with the lemmas about it.
  - `Step` and `Notifies` model one controller call; `ApplyAll` models a sequence of them.
  - `Enter` is the entry block of `run()`.
  - `Checkpoint` and `Pass` model `checkInterruption()`.
  - `ExecuteTrace` and `RunTrace` model a whole run.
- `runnable.dfy` (module `Interruptible`): class `Runnable`, with the `state` field and one method per operation.
  - Each method is proved against the functions of `Transitions`.
  - `CheckpointEntry` and `CheckpointExit` are the two atomic halves of the checkpoint. They have no `modifies` clause, so the checkpoint itself never writes `state`.

The body `execute()` is abstract in the source. It is modelled as a `Work`:
the checkpoints the body reaches, in order, and how it ends if none of them
aborts (it returns, throws `CancelException` itself, or throws some other
exception). `Runnable.Execute` is the stand-in for such a body. A `Work`
lets the `CancelException` of a checkpoint unwind the whole body, as the class
documentation asks of every subclass.

A reader might expect behaviour that the code does not have. The model follows the code:

- There is one state field, not a requested/observed pair.
- `restart()` sets `RUNNING` from every state, `CANCELED` included. It never leads to `NOT_RUNNING`.
- `pause()` overwrites `CANCELED`.
- `run()` does not reset the state when the body completes. `RunUndisturbed` shows a run that ends in `Running`.
- There is no cleanup hook. Failures are not stored for later retrieval.

## Model

| member | source | states |
|---|---|---|
| RunnableState.Code | src/grape/simple/threads/AbstractInterruptibleRunnable.java:57-72 | each state's int constant lies in -1..2, and only NotRunning has -1 |
| RunnableState.FromCode | src/grape/simple/threads/AbstractInterruptibleRunnable.java:57-72 | an int names a state iff it lies in -1..2, and then that state's constant is that int |
| RunnableState.CodeRoundTrip | src/grape/simple/threads/AbstractInterruptibleRunnable.java:57-72 | each of the four states is recovered from its int constant |
| RunnableState.CodeInjective | src/grape/simple/threads/AbstractInterruptibleRunnable.java:57-72 | no two states share an int constant |
| Transitions.Enter | src/grape/simple/threads/AbstractInterruptibleRunnable.java:25-29 | after the entry block the state is never NotRunning, and the state changes iff it was NotRunning |
| Transitions.EnterOnlyStarts | src/grape/simple/threads/AbstractInterruptibleRunnable.java:25-29 | entry moves NotRunning to Running and keeps every other state; Canceled stays Canceled; entering twice is entering once |
| Transitions.StepOverwrites | src/grape/simple/threads/AbstractInterruptibleRunnable.java:111-138 | a controller call's resulting state does not depend on the state it replaces |
| Transitions.CancelIdempotent | src/grape/simple/threads/AbstractInterruptibleRunnable.java:111-118 | cancel gives Canceled from any state; a second cancel changes nothing and does not notify; cancel notifies iff the prior state was Paused |
| Transitions.PauseOverwrites | src/grape/simple/threads/AbstractInterruptibleRunnable.java:124-126 | pause gives Paused from any state, Canceled included, and never notifies |
| Transitions.RestartOverwrites | src/grape/simple/threads/AbstractInterruptibleRunnable.java:132-138 | restart gives Running from any state and notifies iff the prior state was Paused |
| Transitions.NotifiesIffLeavesPaused | src/grape/simple/threads/AbstractInterruptibleRunnable.java:111-138 | a controller call notifies iff it takes the state out of Paused |
| Transitions.ApplyAllSnoc | src/grape/simple/threads/AbstractInterruptibleRunnable.java:111-138 | applying calls one by one agrees with applying the sequence: one more call at the end is one more step |
| Transitions.ApplyAllLastWins | src/grape/simple/threads/AbstractInterruptibleRunnable.java:111-138 | after a non-empty sequence of controller calls, the state is the one the last call sets |
| Transitions.ApplyAllUnchanged | src/grape/simple/threads/AbstractInterruptibleRunnable.java:111-138 | a sequence of calls leaves the state unchanged iff it is empty or its last call sets that same state |
| Transitions.CheckpointAbortsIffCanceled | src/grape/simple/threads/AbstractInterruptibleRunnable.java:144-159 | the checkpoint aborts iff the state it reads after the optional wait is Canceled; it waits iff it enters Paused; without a wait the state is unchanged, and with one only the controller calls change it |
| Transitions.CheckpointPassesWhenActive | src/grape/simple/threads/AbstractInterruptibleRunnable.java:146-157 | entered in a state other than Paused or Canceled, the checkpoint returns normally without waiting and leaves the state alone |
| Transitions.CheckpointAbortsWhenCanceled | src/grape/simple/threads/AbstractInterruptibleRunnable.java:155-157 | entered in Canceled, the checkpoint aborts without waiting |
| Transitions.CheckpointAfterPause | src/grape/simple/threads/AbstractInterruptibleRunnable.java:146-157 | entered in Paused, the checkpoint waits, reads the state the last controller call set, and aborts iff that call was cancel; a cancel that is the last call during the wait is not missed |
| Transitions.CheckpointWakeWhilePaused | src/grape/simple/threads/AbstractInterruptibleRunnable.java:146-152 | a wake while the state is still Paused (no call, or pause came last) returns normally |
| Transitions.CheckpointScenarios | src/grape/simple/threads/AbstractInterruptibleRunnable.java:144-159 | pause then restart resumes in Running; pause then cancel aborts; cancel then pause during the wait returns normally while Paused |
| Transitions.ExecuteTrace | src/grape/simple/threads/AbstractInterruptibleRunnable.java:33-46 | the body passes at most its number of checkpoints; an abort at a checkpoint leaves Canceled with checkpoints still unpassed; otherwise all are passed and run ends as the body ends; this holds for bodies that let the CancelException of a checkpoint propagate |
| Transitions.RunCanceledBeforeBody | src/grape/simple/threads/AbstractInterruptibleRunnable.java:25-36 | a runnable that is Canceled when it reaches the checkpoint before the body never executes the body and stays Canceled |
| Transitions.RunCanceledBeforeStart | src/grape/simple/threads/AbstractInterruptibleRunnable.java:25-36 | a runnable canceled before run() is called never executes its body and stays Canceled |
| Transitions.RunKeepsCancel | src/grape/simple/threads/AbstractInterruptibleRunnable.java:31-46 | after an abort at a checkpoint the state is still Canceled; a run that did not abort at a checkpoint executed its body and passed every checkpoint |
| Transitions.ExecuteQuiet | src/grape/simple/threads/AbstractInterruptibleRunnable.java:31-46 | a body run in Running with no controller calls passes every checkpoint and leaves the state Running |
| Transitions.RunUndisturbed | src/grape/simple/threads/AbstractInterruptibleRunnable.java:23-46 | a fresh runnable run with no controller calls executes its body, passes every checkpoint and is left Running, not reset |
| Interruptible.Runnable.constructor | src/grape/simple/threads/AbstractInterruptibleRunnable.java:77 | a new runnable is NotRunning |
| Interruptible.Runnable.GetState | src/grape/simple/threads/AbstractInterruptibleRunnable.java:87-89 | returns an int in -1..2 that reads back as the current state |
| Interruptible.Runnable.IsCanceled | src/grape/simple/threads/AbstractInterruptibleRunnable.java:95-97 | true iff the state is Canceled; changes nothing |
| Interruptible.Runnable.IsPaused | src/grape/simple/threads/AbstractInterruptibleRunnable.java:103-105 | true iff the state is Paused; changes nothing |
| Interruptible.Runnable.Cancel | src/grape/simple/threads/AbstractInterruptibleRunnable.java:111-118 | the new state is Canceled; it notifies iff the old state was Paused |
| Interruptible.Runnable.Pause | src/grape/simple/threads/AbstractInterruptibleRunnable.java:124-126 | the new state is Paused whatever the old one was; it never notifies |
| Interruptible.Runnable.Restart | src/grape/simple/threads/AbstractInterruptibleRunnable.java:132-138 | the new state is Running whatever the old one was; it notifies iff the old state was Paused |
| Interruptible.Runnable.Control | src/grape/simple/threads/AbstractInterruptibleRunnable.java:111-138 | one controller call: the new state and the notification agree with Step and Notifies |
| Interruptible.Runnable.Interleave | src/grape/simple/threads/AbstractInterruptibleRunnable.java:111-138 | controller calls run one after another leave the state ApplyAll gives |
| Interruptible.Runnable.RunEntry | src/grape/simple/threads/AbstractInterruptibleRunnable.java:25-29 | NotRunning becomes Running; every other state is kept |
| Interruptible.Runnable.CheckpointEntry | src/grape/simple/threads/AbstractInterruptibleRunnable.java:146 | the checkpoint must wait iff the state is Paused; it writes nothing |
| Interruptible.Runnable.CheckpointExit | src/grape/simple/threads/AbstractInterruptibleRunnable.java:155-157 | the checkpoint aborts iff the state is Canceled; it writes nothing |
| Interruptible.Runnable.CheckInterruption | src/grape/simple/threads/AbstractInterruptibleRunnable.java:144-159 | the outcome and new state are those of Checkpoint on the old state; it aborts iff the state it leaves is Canceled |
| Interruptible.Runnable.PassSegment | src/grape/simple/threads/AbstractInterruptibleRunnable.java:144-159 | controller calls and then the checkpoint give the outcome and state of Pass |
| Interruptible.Runnable.Execute | src/grape/simple/threads/AbstractInterruptibleRunnable.java:33-38 | passing the body's checkpoints in order gives the report and state of ExecuteTrace, for a body that lets the CancelException of a checkpoint propagate |
| Interruptible.Runnable.Run | src/grape/simple/threads/AbstractInterruptibleRunnable.java:23-47 | run() always returns, with the report and state of RunTrace; after an abort at a checkpoint the state is Canceled |
| Interruptible.NewRunnableIsIdle | src/grape/simple/threads/AbstractInterruptibleRunnable.java:77-105 | a new runnable is neither canceled nor paused, and its state constant is -1 |

## Left out

- Threads, and the blocking inside `wait()`/`notify()`: the wait is a yield point at which any sequence of controller calls may run. That sequence always ends, so a worker that is never woken is not modelled. This is a liveness question.
- `InterruptedException` during the wait is not modelled as a distinct case. Its handler falls through to the cancel test, which is the same as a wake with no controller calls.
- A body that catches the `CancelException` around its checkpoints and keeps going is not modelled. The class documentation (AbstractInterruptibleRunnable.java:8-10) forbids this, because it blocks the cancellation. `Work` stands only for bodies that let the exception propagate, so `ExecuteTrace`, `RunKeepsCancel` and `Runnable.Execute` speak only of such bodies.
- A `java.lang.Error` thrown by the body: `run()` catches only `Exception`, so such an error leaves `run()`. `Ending.ThrowsOther` stands for exceptions only.
- The `printStackTrace()` logging of a failure, the no-op `destroy()`, and the reflection-based `getName()` and `getDescription()`.
- Memory visibility: the unsynchronized read in `getState()` is treated as an atomic read of the current state.
- The interface `InterruptibleRunnable` is declarations only. Its `isRunning()` is never implemented by the engine.
- The demo programs under `test/` (file download, Swing progress views) are left out. They do network and file I/O, float progress and UI work, and they call methods the engine does not define.
- A property-change channel, a progress value, a separate observed state, a stored failure and a cleanup hook are not present in the engine's code, and so are not modelled.
- Controller calls that come after the worker's last checkpoint are not part of a run's report. They are further controller calls on the object, covered by `Cancel`, `Pause` and `Restart`.
