// vtek::SubmitInfo: the signal and wait semaphores of one queue submission,
// each kept in a fixed array of kMaxSemaphores entries with a counter, plus an
// optional fence signalled after the submission. The same class appears twice
// in the source (vtek_submit_info.hpp and vtek_queue_submit_info.hpp, which
// differ only in the constness of the getters); this one class models both.
module Submission {
  import opened Wrappers

  /** kMaxSemaphores. */
  const K_MAX_SEMAPHORES: nat := 4

  /** A Vulkan handle; 0 is VK_NULL_HANDLE. */
  type Handle = nat
  const NULL_HANDLE: Handle := 0

  class SubmitInfo {
    var numSignal: nat
    var signalSemaphores: array<Handle>
    var numWait: nat
    var waitSemaphores: array<Handle>
    var waitPipelineStages: array<nat>
    var postSignalFence: Handle

    /** Both counters stay within the capacity of their arrays. */
    ghost predicate Valid()
      reads this
    {
      signalSemaphores.Length == K_MAX_SEMAPHORES &&
      waitSemaphores.Length == K_MAX_SEMAPHORES &&
      waitPipelineStages.Length == K_MAX_SEMAPHORES &&
      signalSemaphores != waitSemaphores && signalSemaphores != waitPipelineStages &&
      waitSemaphores != waitPipelineStages &&
      numSignal <= K_MAX_SEMAPHORES && numWait <= K_MAX_SEMAPHORES
    }

    /** The signal semaphores added so far, in order. */
    ghost function Signals(): seq<Handle>
      requires Valid()
      reads this, signalSemaphores
    {
      signalSemaphores[..numSignal]
    }

    /** The wait semaphores added so far, in order. */
    ghost function Waits(): seq<Handle>
      requires Valid()
      reads this, waitSemaphores
    {
      waitSemaphores[..numWait]
    }

    /** The pipeline stage of each wait semaphore, index-aligned with Waits(). */
    ghost function Stages(): seq<nat>
      requires Valid()
      reads this, waitPipelineStages
    {
      waitPipelineStages[..numWait]
    }

    /** The default member initialisers: no semaphores, stages zeroed, no fence. */
    constructor ()
      ensures Valid()
      ensures fresh(signalSemaphores) && fresh(waitSemaphores) && fresh(waitPipelineStages)
      ensures Signals() == [] && Waits() == [] && Stages() == []
      ensures postSignalFence == NULL_HANDLE
      ensures forall i :: 0 <= i < K_MAX_SEMAPHORES ==> waitPipelineStages[i] == 0
    {
      numSignal := 0;
      signalSemaphores := new Handle[K_MAX_SEMAPHORES];
      numWait := 0;
      waitSemaphores := new Handle[K_MAX_SEMAPHORES];
      waitPipelineStages := new nat[K_MAX_SEMAPHORES](_ => 0);
      postSignalFence := NULL_HANDLE;
    }

    /** SetPostSignalFence: overwrites the fence and nothing else. */
    method SetPostSignalFence(fence: Handle)
      requires Valid()
      modifies this`postSignalFence
      ensures Valid()
      ensures postSignalFence == fence
    {
      postSignalFence := fence;
    }

    /**
     * AddSignalSemaphore: appends `sem` when fewer than kMaxSemaphores are
     * stored, and is ignored otherwise. The wait list and the fence are
     * untouched, and earlier entries keep their values.
     */
    method AddSignalSemaphore(sem: Handle)
      requires Valid()
      modifies this`numSignal, signalSemaphores
      ensures Valid()
      ensures old(numSignal) < K_MAX_SEMAPHORES ==> Signals() == old(Signals()) + [sem]
      ensures old(numSignal) >= K_MAX_SEMAPHORES ==> Signals() == old(Signals())
      ensures Waits() == old(Waits()) && Stages() == old(Stages())
      ensures postSignalFence == old(postSignalFence)
    {
      if numSignal >= K_MAX_SEMAPHORES { return; }
      signalSemaphores[numSignal] := sem;
      numSignal := numSignal + 1;
    }

    /**
     * AddWaitSemaphore: stores `sem` and its stage at the same index when
     * fewer than kMaxSemaphores are stored, and is ignored otherwise.
     */
    method AddWaitSemaphore(sem: Handle, stage: nat)
      requires Valid()
      modifies this`numWait, waitSemaphores, waitPipelineStages
      ensures Valid()
      ensures old(numWait) < K_MAX_SEMAPHORES ==>
        Waits() == old(Waits()) + [sem] && Stages() == old(Stages()) + [stage]
      ensures old(numWait) >= K_MAX_SEMAPHORES ==>
        Waits() == old(Waits()) && Stages() == old(Stages())
      ensures Signals() == old(Signals())
      ensures postSignalFence == old(postSignalFence)
    {
      if numWait >= K_MAX_SEMAPHORES { return; }
      waitSemaphores[numWait] := sem;
      waitPipelineStages[numWait] := stage;
      numWait := numWait + 1;
    }

    /** PostSignalFence(): the fence last set, VK_NULL_HANDLE if none. */
    function PostSignalFence(): (r: Handle)
      reads this
      ensures r == postSignalFence
    {
      postSignalFence
    }

    /** NumSignalSemaphores(): never more than kMaxSemaphores. */
    function NumSignalSemaphores(): (r: nat)
      requires Valid()
      reads this
      ensures r <= K_MAX_SEMAPHORES
      ensures r == |Signals()|
    {
      numSignal
    }

    /** SignalSemaphores(): the array, or null while it is empty. */
    function SignalSemaphores(): (r: Option<array<Handle>>)
      reads this
      ensures r.Some? <==> numSignal > 0
      ensures r.Some? ==> r.value == signalSemaphores
    {
      if numSignal > 0 then Some(signalSemaphores) else None
    }

    /** NumWaitSemaphores(): never more than kMaxSemaphores. */
    function NumWaitSemaphores(): (r: nat)
      requires Valid()
      reads this
      ensures r <= K_MAX_SEMAPHORES
      ensures r == |Waits()| == |Stages()|
    {
      numWait
    }

    /** WaitSemaphores(): the array, or null while it is empty. */
    function WaitSemaphores(): (r: Option<array<Handle>>)
      reads this
      ensures r.Some? <==> numWait > 0
      ensures r.Some? ==> r.value == waitSemaphores
    {
      if numWait > 0 then Some(waitSemaphores) else None
    }

    /** WaitPipelineStages(): the array, or null while there is no wait semaphore. */
    function WaitPipelineStages(): (r: Option<array<nat>>)
      reads this
      ensures r.Some? <==> numWait > 0
      ensures r.Some? ==> r.value == waitPipelineStages
    {
      if numWait > 0 then Some(waitPipelineStages) else None
    }
  }
}
