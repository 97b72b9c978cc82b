/**
 * The runnable itself: an object with one mutable `state` field that the
 * controller calls overwrite and that the worker reads at its checkpoints.
 * Cancel, Pause, Restart, IsCanceled, IsPaused, RunEntry, CheckpointEntry and
 * CheckpointExit each stand for a synchronized method or block of the
 * runnable (checkInterruption() gives up its lock only inside wait(), between
 * its two halves), so each runs atomically. getState() is not synchronized;
 * its read is taken as atomic here.
 */
module Interruptible {
  import opened RunnableState
  import opened Transitions

  class Runnable {
    var state: State

    /** A new runnable is NotRunning. */
    constructor ()
      ensures state == NotRunning
    {
      state := NotRunning;
    }

    /** getState(): the int constant of the current state. */
    method GetState() returns (code: int)
      ensures -1 <= code <= 2
      ensures FromCode(code) == Some(state)
    {
      code := Code(state);
      CodeRoundTrip(state);
    }

    /** isCanceled(): whether the state is Canceled. */
    method IsCanceled() returns (canceled: bool)
      ensures canceled <==> state == Canceled
    {
      canceled := state == Canceled;
    }

    /** isPaused(): whether the state is Paused. */
    method IsPaused() returns (paused: bool)
      ensures paused <==> state == Paused
    {
      paused := state == Paused;
    }

    /** cancel(): the state becomes Canceled; a waiter is notified when the state was Paused. */
    method Cancel() returns (notified: bool)
      modifies this
      ensures state == Canceled && state == Step(old(state), Op.Cancel)
      ensures notified <==> old(state) == Paused
      ensures notified == Notifies(old(state), Op.Cancel)
    {
      var paused := IsPaused();
      state := Canceled;
      notified := paused;
    }

    /** pause(): the state becomes Paused, whatever it was; nobody is notified. */
    method Pause() returns (notified: bool)
      modifies this
      ensures state == Paused && state == Step(old(state), Op.Pause)
      ensures !notified && notified == Notifies(old(state), Op.Pause)
    {
      state := Paused;
      notified := false;
    }

    /** restart(): a waiter is notified when the state is Paused; then the state becomes Running, whatever it was. */
    method Restart() returns (notified: bool)
      modifies this
      ensures state == Running && state == Step(old(state), Op.Restart)
      ensures notified <==> old(state) == Paused
      ensures notified == Notifies(old(state), Op.Restart)
    {
      notified := state == Paused;
      state := Running;
    }

    /** One controller call, dispatched to cancel(), pause() or restart(). */
    method Control(op: Op) returns (notified: bool)
      modifies this
      ensures state == Step(old(state), op)
      ensures notified == Notifies(old(state), op)
    {
      match op
      case Cancel => notified := Cancel();
      case Pause => notified := Pause();
      case Restart => notified := Restart();
    }

    /**
     * Controller threads acting while the worker is not holding the lock:
     * their calls, one atomic call after another.
     */
    method Interleave(ops: seq<Op>)
      modifies this
      ensures state == ApplyAll(old(state), ops)
    {
      var i := 0;
      while i < |ops|
        invariant 0 <= i <= |ops|
        invariant state == ApplyAll(old(state), ops[..i])
      {
        var signalled := Control(ops[i]);
        ApplyAllSnoc(old(state), ops[..i], ops[i]);
        assert ops[..i + 1] == ops[..i] + [ops[i]];
        i := i + 1;
      }
      assert ops[..i] == ops;
    }

    /** The entry block of run(): NotRunning becomes Running, any other state is kept. */
    method RunEntry()
      modifies this
      ensures state == Enter(old(state))
      ensures old(state) == NotRunning ==> state == Running
      ensures old(state) != NotRunning ==> state == old(state)
    {
      if state == NotRunning {
        state := Running;
      }
    }

    /** The first half of checkInterruption(): it must wait exactly when the state is Paused. It changes nothing. */
    method CheckpointEntry() returns (gate: Gate)
      ensures gate == MustWait <==> state == Paused
    {
      var paused := IsPaused();
      gate := if paused then MustWait else Proceed;
    }

    /** The second half of checkInterruption(), after the optional wait: it aborts exactly when the state is Canceled. It changes nothing. */
    method CheckpointExit() returns (verdict: Verdict)
      ensures verdict == Abort <==> state == Canceled
    {
      var canceled := IsCanceled();
      verdict := if canceled then Abort else Continue;
    }

    /**
     * checkInterruption(): the entry test, the wait when Paused (during which
     * the controller calls `during` run), and the cancel test. The state is
     * changed only by those controller calls; Abort stands for the
     * CancelException it throws.
     */
    method CheckInterruption(during: seq<Op>) returns (p: Passage)
      modifies this
      ensures p == Checkpoint(old(state), during)
      ensures state == p.state
      ensures p.verdict == Abort <==> state == Canceled
    {
      var gate := CheckpointEntry();
      if gate == MustWait {
        Interleave(during);
      }
      var verdict := CheckpointExit();
      p := Passage(gate == MustWait, state, verdict);
    }

    /** Controller calls before a checkpoint, then the checkpoint. */
    method PassSegment(seg: Segment) returns (p: Passage)
      modifies this
      ensures p == Pass(old(state), seg)
      ensures state == p.state
    {
      Interleave(seg.before);
      p := CheckInterruption(seg.duringWait);
    }

    /**
     * A body execute(): it reaches the checkpoints of `work` in order and,
     * when none of them aborts, ends as `work.ending` says. A CancelException
     * from a checkpoint unwinds the rest of the body: this stands only for
     * bodies that do not catch it around their checkpoints, as the class
     * documentation asks of every subclass.
     */
    method Execute(work: Work) returns (r: Report)
      modifies this
      ensures r == ExecuteTrace(old(state), work.checkpoints, work.ending)
      ensures state == r.final
    {
      var cps := work.checkpoints;
      var i := 0;
      while i < |cps|
        invariant 0 <= i <= |cps|
        invariant ExecuteTrace(old(state), cps, work.ending)
                    == var t := ExecuteTrace(state, cps[i..], work.ending); t.(passed := t.passed + i)
      {
        var p := PassSegment(cps[i]);
        assert cps[i..][1..] == cps[i + 1..];
        if p.verdict == Abort {
          return Report(true, i, CancelCaught(true), state);
        }
        i := i + 1;
      }
      r := Report(true, i, EndExit(work.ending), state);
    }

    /**
     * run(): the entry block, a checkpoint before the body (so a runnable
     * canceled before it starts never executes its body), then the body.
     * Every CancelException and every other exception is caught: run()
     * always returns, and a cancellation is not reverted.
     */
    method Run(guard: Segment, work: Work) returns (r: Report)
      modifies this
      ensures r == RunTrace(old(state), guard, work)
      ensures state == r.final
      ensures r.exit == CancelCaught(true) ==> state == Canceled
    {
      RunEntry();
      var p := PassSegment(guard);
      if p.verdict == Abort {
        return Report(false, 0, CancelCaught(true), state);
      }
      r := Execute(work);
    }
  }

  /** A new runnable is neither canceled nor paused. */
  method NewRunnableIsIdle() returns (canceled: bool, paused: bool, code: int)
    ensures !canceled && !paused
    ensures code == -1
  {
    var task := new Runnable();
    canceled := task.IsCanceled();
    paused := task.IsPaused();
    code := task.GetState();
  }
}
