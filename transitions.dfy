/**
 * The state machine of an interruptible runnable as pure functions over its
 * one state value: the controller calls, the entry step of run, the
 * checkpoint, and a whole run of a body that reaches a number of checkpoints.
 *
 * Every operation of the runnable that writes the state holds the object's
 * lock for its whole duration (a synchronized method, or the synchronized
 * entry block of run()), so each is one atomic step here. The only place where
 * other threads can act while the worker is inside the checkpoint is the
 * wait() of a paused checkpoint; that wait is a yield point at which an
 * arbitrary sequence of controller calls runs before the worker reads the
 * state again. Controller calls also run between the worker's own
 * synchronized steps.
 */
module Transitions {
  import opened RunnableState

  /** A controller call: cancel(), pause() or restart(). */
  datatype Op = Cancel | Pause | Restart

  /** The state a controller call leaves behind. None of the three looks at the state it replaces. */
  function Step(s: State, op: Op): State
  {
    match op
    case Cancel => Canceled
    case Pause => Paused
    case Restart => Running
  }

  /** Whether a controller call issues notify(): cancel and restart do, when the state they replace is Paused. */
  function Notifies(s: State, op: Op): bool
  {
    s == Paused && op != Pause
  }

  /** The state after a sequence of controller calls, applied first to last. */
  function ApplyAll(s: State, ops: seq<Op>): State
    decreases |ops|
  {
    if ops == [] then s else ApplyAll(Step(s, ops[0]), ops[1..])
  }

  /** The entry block of run(): NotRunning becomes Running, every other state stays. */
  function Enter(s: State): (r: State)
    ensures r != NotRunning
    ensures r == s <==> s != NotRunning
  {
    if s == NotRunning then Running else s
  }

  /** What the worker decides on entering the checkpoint. */
  datatype Gate = MustWait | Proceed

  /** How the checkpoint ends: it returns normally or throws CancelException. */
  datatype Verdict = Continue | Abort

  /** One pass through the checkpoint: whether it waited, the state it read last, and how it ended. */
  datatype Passage = Passage(waited: bool, state: State, verdict: Verdict)

  /**
   * checkInterruption() entered in state `e`: when `e` is Paused the worker
   * waits, and `during` is what the controllers do before it reads the state
   * again; then it aborts exactly when the state it reads is Canceled. The
   * wait is entered at most once: there is no loop around it.
   */
  function Checkpoint(e: State, during: seq<Op>): Passage
  {
    var waited := e == Paused;
    var woken := if waited then ApplyAll(e, during) else e;
    Passage(waited, woken, if woken == Canceled then Abort else Continue)
  }

  /**
   * The part of the worker's life leading up to one checkpoint and through
   * it: the controller calls that run while the worker does unsynchronized
   * work before the checkpoint, then those that run while it waits (ignored
   * when it does not wait).
   */
  datatype Segment = Segment(before: seq<Op>, duringWait: seq<Op>)

  /** A state, taken through one segment. */
  function Pass(s: State, seg: Segment): Passage
  {
    Checkpoint(ApplyAll(s, seg.before), seg.duringWait)
  }

  /** How the body execute() ends once it has passed all its checkpoints. */
  datatype Ending = Returns | ThrowsCancel | ThrowsOther

  /**
   * A body execute(): the checkpoints it reaches, in order, each with the
   * controller calls around it, and how it ends when none of them aborts.
   * A CancelException thrown at a checkpoint unwinds the whole body: a body
   * that catches it around its checkpoints, which the class documentation
   * forbids, is not a Work.
   */
  datatype Work = Work(checkpoints: seq<Segment>, ending: Ending)

  /**
   * How run() ends. It always returns normally: a CancelException, whether a
   * checkpoint threw it (`atCheckpoint`) or the body itself did, is caught, and
   * so is every other exception (Failed).
   */
  datatype Exit = Completed | CancelCaught(atCheckpoint: bool) | Failed

  /** What a run left behind: whether the body was entered, how many checkpoints it passed, how run() ended, and the state the worker last saw. */
  datatype Report = Report(executed: bool, passed: nat, exit: Exit, final: State)

  function EndExit(ending: Ending): Exit
  {
    match ending
    case Returns => Completed
    case ThrowsCancel => CancelCaught(false)
    case ThrowsOther => Failed
  }

  /** The body started in state `s`, passing the checkpoints `cps` until one aborts or all are passed. */
  function ExecuteTrace(s: State, cps: seq<Segment>, ending: Ending): (r: Report)
    ensures r.executed
    ensures r.passed <= |cps|
    ensures r.exit == CancelCaught(true) ==> r.final == Canceled && r.passed < |cps|
    ensures r.exit != CancelCaught(true) ==> r.passed == |cps| && r.exit == EndExit(ending)
    decreases |cps|
  {
    if cps == [] then Report(true, 0, EndExit(ending), s)
    else
      var p := Pass(s, cps[0]);
      if p.verdict == Abort then Report(true, 0, CancelCaught(true), p.state)
      else
        var r := ExecuteTrace(p.state, cps[1..], ending);
        r.(passed := r.passed + 1)
  }

  /**
   * run() started in state `s`: the entry block, the checkpoint taken before
   * the body (with the controller calls of `guard` around it), then the body.
   */
  function RunTrace(s: State, guard: Segment, work: Work): Report
  {
    var p := Pass(Enter(s), guard);
    if p.verdict == Abort then Report(false, 0, CancelCaught(true), p.state)
    else ExecuteTrace(p.state, work.checkpoints, work.ending)
  }

  // ---------------------------------------------------------------------
  // Controller calls

  /** Each controller call overwrites the state: its result does not depend on the state it replaces. */
  lemma StepOverwrites(s: State, t: State, op: Op)
    ensures Step(s, op) == Step(t, op)
  {
  }

  /** cancel() leaves Canceled from any state; a second cancel() changes nothing and signals nobody. */
  lemma CancelIdempotent(s: State)
    ensures Step(s, Cancel) == Canceled
    ensures Step(Step(s, Cancel), Cancel) == Step(s, Cancel)
    ensures !Notifies(Step(s, Cancel), Cancel)
    ensures Notifies(s, Cancel) <==> s == Paused
  {
  }

  /** pause() leaves Paused from any state, Canceled included, and never signals. */
  lemma PauseOverwrites(s: State)
    ensures Step(s, Pause) == Paused
    ensures !Notifies(s, Pause)
  {
  }

  /** restart() leaves Running from any state, Canceled and NotRunning included; it signals exactly when it replaces Paused. */
  lemma RestartOverwrites(s: State)
    ensures Step(s, Restart) == Running
    ensures Notifies(s, Restart) <==> s == Paused
  {
  }

  /** A controller call signals a waiter exactly when it takes the state out of Paused: no wakeup is lost and none is spurious. */
  lemma NotifiesIffLeavesPaused(s: State, op: Op)
    ensures Notifies(s, op) <==> s == Paused && Step(s, op) != Paused
  {
  }

  /** Applying one more call at the end is one more Step. */
  lemma {:induction false} ApplyAllSnoc(s: State, ops: seq<Op>, op: Op)
    ensures ApplyAll(s, ops + [op]) == Step(ApplyAll(s, ops), op)
    decreases |ops|
  {
    if ops == [] {
      assert [op][1..] == [];
    } else {
      assert (ops + [op])[1..] == ops[1..] + [op];
      ApplyAllSnoc(Step(s, ops[0]), ops[1..], op);
    }
  }

  /** After a non-empty sequence of controller calls the state is the one the last call sets. */
  lemma {:induction false} ApplyAllLastWins(s: State, ops: seq<Op>)
    requires ops != []
    ensures ApplyAll(s, ops) == Step(s, ops[|ops| - 1])
    decreases |ops|
  {
    if |ops| > 1 {
      ApplyAllLastWins(Step(s, ops[0]), ops[1..]);
      StepOverwrites(Step(s, ops[0]), s, ops[|ops| - 1]);
    } else {
      assert ops[1..] == [];
    }
  }

  /** The state survives a sequence of controller calls unchanged only if it is empty or the last call sets that very state. */
  lemma ApplyAllUnchanged(s: State, ops: seq<Op>)
    ensures ApplyAll(s, ops) == s <==> ops == [] || Step(s, ops[|ops| - 1]) == s
  {
    if ops != [] {
      ApplyAllLastWins(s, ops);
    }
  }

  // ---------------------------------------------------------------------
  // The entry step of run()

  /** Entry moves NotRunning to Running and leaves every other state alone; in particular Canceled stays Canceled. */
  lemma EnterOnlyStarts(s: State)
    ensures s == NotRunning ==> Enter(s) == Running
    ensures s != NotRunning ==> Enter(s) == s
    ensures Enter(Canceled) == Canceled
    ensures Enter(Enter(s)) == Enter(s)
  {
  }

  // ---------------------------------------------------------------------
  // The checkpoint

  /** The checkpoint aborts exactly when the state it reads after the optional wait is Canceled, and it writes no state of its own. */
  lemma CheckpointAbortsIffCanceled(e: State, during: seq<Op>)
    ensures Checkpoint(e, during).verdict == Abort <==> Checkpoint(e, during).state == Canceled
    ensures Checkpoint(e, during).waited <==> e == Paused
    ensures !Checkpoint(e, during).waited ==> Checkpoint(e, during).state == e
    ensures Checkpoint(e, during).waited ==> Checkpoint(e, during).state == ApplyAll(e, during)
  {
  }

  /** Neither Paused nor Canceled: the checkpoint returns at once, without waiting. */
  lemma CheckpointPassesWhenActive(e: State, during: seq<Op>)
    requires e != Paused && e != Canceled
    ensures Checkpoint(e, during) == Passage(false, e, Continue)
  {
  }

  /** Canceled on entry: the checkpoint aborts without waiting. */
  lemma CheckpointAbortsWhenCanceled(during: seq<Op>)
    ensures Checkpoint(Canceled, during) == Passage(false, Canceled, Abort)
  {
  }

  /**
   * Paused on entry: the worker waits, and on waking reads the state the last
   * controller call set. It aborts exactly when that last call was cancel():
   * a cancel during a pause is not missed, because the cancel test follows
   * the wait rather than being its alternative.
   */
  lemma CheckpointAfterPause(during: seq<Op>)
    ensures Checkpoint(Paused, during).waited
    ensures during != [] ==> Checkpoint(Paused, during).state == Step(Paused, during[|during| - 1])
    ensures Checkpoint(Paused, during).verdict == Abort <==> during != [] && during[|during| - 1] == Cancel
  {
    if during != [] {
      ApplyAllLastWins(Paused, during);
    }
  }

  /**
   * A wake while still Paused (no call at all, a spurious wakeup, or a pause()
   * that came last) returns normally: the wait is an `if`, not a loop. A
   * cancel() overwritten by a later pause() during the wait is lost.
   */
  lemma CheckpointWakeWhilePaused(during: seq<Op>)
    requires during == [] || during[|during| - 1] == Pause
    ensures Checkpoint(Paused, during) == Passage(true, Paused, Continue)
  {
    if during != [] {
      ApplyAllLastWins(Paused, during);
    }
  }

  /**
   * Three waits: a restart() resumes the worker in Running; a cancel() makes it
   * abort; a cancel() followed by a pause() before the worker wakes lets it
   * return normally while the state says Paused.
   */
  lemma CheckpointScenarios()
    ensures Checkpoint(Paused, [Restart]) == Passage(true, Running, Continue)
    ensures Checkpoint(Paused, [Cancel]) == Passage(true, Canceled, Abort)
    ensures Checkpoint(Paused, [Cancel, Pause]) == Passage(true, Paused, Continue)
  {
    CheckpointAfterPause([Restart]);
    CheckpointAfterPause([Cancel]);
    CheckpointAfterPause([Cancel, Pause]);
  }

  // ---------------------------------------------------------------------
  // run()

  /** A runnable that is Canceled when its first checkpoint is reached never enters its body, and stays Canceled. */
  lemma RunCanceledBeforeBody(s: State, guard: Segment, work: Work)
    requires ApplyAll(Enter(s), guard.before) == Canceled
    ensures RunTrace(s, guard, work) == Report(false, 0, CancelCaught(true), Canceled)
  {
  }

  /** In particular a runnable canceled before run() is called never executes its body. */
  lemma RunCanceledBeforeStart(guard: Segment, work: Work)
    requires guard.before == []
    ensures RunTrace(Canceled, guard, work) == Report(false, 0, CancelCaught(true), Canceled)
  {
    RunCanceledBeforeBody(Canceled, guard, work);
  }

  /** run() never reverts a cancellation: a checkpoint that aborted leaves the state Canceled. */
  lemma RunKeepsCancel(s: State, guard: Segment, work: Work)
    ensures RunTrace(s, guard, work).exit == CancelCaught(true) ==> RunTrace(s, guard, work).final == Canceled
    ensures RunTrace(s, guard, work).passed <= |work.checkpoints|
    ensures RunTrace(s, guard, work).exit != CancelCaught(true) ==>
              RunTrace(s, guard, work).executed && RunTrace(s, guard, work).passed == |work.checkpoints|
  {
  }

  /** A segment in which no controller call happens. */
  predicate Quiet(seg: Segment)
  {
    seg.before == [] && seg.duringWait == []
  }

  /** A body run in Running with no controller activity passes every checkpoint and leaves the state Running. */
  lemma {:induction false} ExecuteQuiet(cps: seq<Segment>, ending: Ending)
    requires forall i :: 0 <= i < |cps| ==> Quiet(cps[i])
    ensures ExecuteTrace(Running, cps, ending) == Report(true, |cps|, EndExit(ending), Running)
    decreases |cps|
  {
    if cps != [] {
      assert Quiet(cps[0]);
      ExecuteQuiet(cps[1..], ending);
    }
  }

  /**
   * A fresh runnable run with no controller activity executes its body, passes
   * every checkpoint and, when the body returns, is left Running: run() does
   * not reset the state on completion.
   */
  lemma RunUndisturbed(guard: Segment, work: Work)
    requires Quiet(guard)
    requires forall i :: 0 <= i < |work.checkpoints| ==> Quiet(work.checkpoints[i])
    ensures RunTrace(NotRunning, guard, work) == Report(true, |work.checkpoints|, EndExit(work.ending), Running)
  {
    ExecuteQuiet(work.checkpoints, work.ending);
  }
}
