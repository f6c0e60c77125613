// vtek::FrameSync (src/vtek_frame_sync.cpp): the index of the current frame in
// flight, a ring counter modulo the number of frames in flight. Only
// frame_sync_end_frame has a body in the source; the other functions of that
// file are unimplemented.
module FrameSync {
  import opened Wrappers

  /** The index that follows `i` in a ring of `n` frames, in uint32_t arithmetic. */
  function NextFrame(i: nat, n: nat): (r: nat)
    requires n > 0
    ensures r < n
    ensures i + 1 < n <= U32_MAX ==> r == i + 1
    ensures i + 1 == n <= U32_MAX ==> r == 0
  {
    U32(i + 1) % n
  }

  /** The index reached after `k` consecutive advances from `i`. */
  function AdvanceFrames(i: nat, n: nat, k: nat): nat
    requires n > 0
  {
    if k == 0 then i else NextFrame(AdvanceFrames(i, n, k - 1), n)
  }

  /** From a valid index, k <= n advances land on i + k, wrapped once past n. */
  lemma {:induction false} AdvanceFramesWraps(i: nat, n: nat, k: nat)
    requires 0 < n <= U32_MAX && i < n && k <= n
    ensures AdvanceFrames(i, n, k) == if i + k < n then i + k else i + k - n
  {
    if k > 0 {
      AdvanceFramesWraps(i, n, k - 1);
    }
  }

  /** numFramesInFlight consecutive end_frame calls bring the index back. */
  lemma FullCycleReturns(i: nat, n: nat)
    requires 0 < n <= U32_MAX && i < n
    ensures AdvanceFrames(i, n, n) == i
  {
    AdvanceFramesWraps(i, n, n);
  }

  class FrameSync {
    var numFramesInFlight: nat
    var currentFrameIndex: nat

    ghost predicate Valid()
      reads this
    {
      0 < numFramesInFlight <= U32_MAX && currentFrameIndex < numFramesInFlight
    }

    constructor (numFrames: nat)
      requires 0 < numFrames <= U32_MAX
      ensures Valid() && numFramesInFlight == numFrames && currentFrameIndex == 0
    {
      numFramesInFlight := numFrames;
      currentFrameIndex := 0;
    }

    /**
     * frame_sync_end_frame: advances the index to the next frame modulo
     * numFramesInFlight (a division by zero in the source when that is 0).
     * No other field changes, and a valid index stays valid.
     */
    method EndFrame()
      requires numFramesInFlight > 0
      modifies this`currentFrameIndex
      ensures currentFrameIndex == NextFrame(old(currentFrameIndex), numFramesInFlight)
      ensures currentFrameIndex < numFramesInFlight
      ensures old(currentFrameIndex) + 1 < numFramesInFlight <= U32_MAX ==>
        currentFrameIndex == old(currentFrameIndex) + 1
      ensures old(currentFrameIndex) + 1 == numFramesInFlight <= U32_MAX ==>
        currentFrameIndex == 0
    {
      currentFrameIndex := U32(currentFrameIndex + 1) % numFramesInFlight;
    }
  }
}
