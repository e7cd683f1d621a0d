/**
 * GPU fences (Plywood.Graphics.Core/PwFence.cs).
 *
 * The platform wait is outside the model: its answer for a timed wait is a
 * parameter, and each operation reports whether it consulted the backend.
 */
module Fences {

  type FenceId = nat

  datatype Fence = Fence(id: FenceId, signaled: bool)

  function NewFence(id: FenceId): (f: Fence)
    ensures f.id == id && !f.signaled
  {
    Fence(id, false)
  }

  /** Result of the blocking `Wait()`: the fence after the call, and whether the platform wait ran. */
  datatype BlockingWait = BlockingWait(fence: Fence, backendWaited: bool)

  /** Result of `Wait(timeout)`: also the boolean the call returns. */
  datatype TimedWait = TimedWait(fence: Fence, result: bool, backendWaited: bool)

  function Wait(f: Fence): (r: BlockingWait)
    ensures r.fence.id == f.id && r.fence.signaled
    ensures r.backendWaited <==> !f.signaled
  {
    if f.signaled then BlockingWait(f, false)
    else BlockingWait(f.(signaled := true), true)
  }

  /** `backendResult` is what the platform wait would return if it is consulted. */
  function WaitWithTimeout(f: Fence, backendResult: bool): (r: TimedWait)
    ensures r.fence.id == f.id
    ensures r.result == r.fence.signaled
    ensures r.backendWaited <==> !f.signaled
    ensures f.signaled ==> r.result
    ensures !f.signaled ==> r.result == backendResult
  {
    if f.signaled then TimedWait(f, true, false)
    else TimedWait(f.(signaled := backendResult), backendResult, true)
  }

  /** Reset always clears the flag (the platform reset is always called). */
  function Reset(f: Fence): (r: Fence)
    ensures r.id == f.id && !r.signaled
  {
    f.(signaled := false)
  }

  /** A second wait finds the fence signalled and never reaches the backend. */
  lemma WaitsAreIdempotent(f: Fence, backendResult: bool)
    ensures Wait(Wait(f).fence) == BlockingWait(Wait(f).fence, false)
    ensures var w := WaitWithTimeout(f, backendResult);
            w.result ==> WaitWithTimeout(w.fence, backendResult) == TimedWait(w.fence, true, false)
  {
  }

  /** After a reset a timed wait that times out reports false and leaves the fence unsignalled. */
  lemma ResetThenTimeout(f: Fence)
    ensures var w := WaitWithTimeout(Reset(f), false);
            !w.result && !w.fence.signaled && w.backendWaited
  {
  }
}
