// vtek::CommandBuffer (src/vtek_command_buffer.cpp): allocation one at a time
// or in a batch, the state guards of reset, free and begin, and the batch
// destroy that clears every buffer.
module CommandBuffers {
  import opened Vk

  /**
   * vtek::CommandBufferStateType, the command buffer lifecycle of the Vulkan
   * specification.
   */
  datatype CommandBufferState = NotAllocated | Initial | Recording | Executable | Pending | Invalid

  /**
   * command_buffer_reset: refused from pending; from initial it succeeds at
   * once; otherwise it needs a pool that allows resetting single buffers and
   * a successful vkResetCommandBuffer.
   */
  predicate ResetSucceeds(state: CommandBufferState, supportsReset: bool, result: VkResult)
  {
    state != Pending && (state == Initial || (supportsReset && result == VK_SUCCESS))
  }

  /** command_buffer_reset reaches vkResetCommandBuffer. */
  predicate ResetCallsVulkan(state: CommandBufferState, supportsReset: bool)
  {
    state != Pending && state != Initial && supportsReset
  }

  /**
   * command_buffer_begin: refused from pending and from invalid, refused for
   * a secondary buffer (inheritance info is not implemented), and otherwise
   * decided by vkBeginCommandBuffer.
   */
  predicate BeginSucceeds(state: CommandBufferState, isSecondary: bool, result: VkResult)
  {
    state != Pending && state != Invalid && !isSecondary && result == VK_SUCCESS
  }

  class CommandBuffer {
    var vulkanHandle: nat
    var poolHandle: nat
    var state: CommandBufferState
    var supportsReset: bool
    var isSecondary: bool

    /** The default member values: no handles, invalid, no reset, primary. */
    constructor()
      ensures vulkanHandle == 0 && poolHandle == 0 && state == Invalid
      ensures !supportsReset && !isSecondary
    {
      vulkanHandle := 0;
      poolHandle := 0;
      state := Invalid;
      supportsReset := false;
      isSecondary := false;
    }

    /**
     * command_buffer_reset, given what vkResetCommandBuffer would return. It
     * changes no member of the buffer.
     */
    method Reset(result: VkResult) returns (ok: bool, callsVulkan: bool)
      ensures ok <==> ResetSucceeds(state, supportsReset, result)
      ensures callsVulkan <==> ResetCallsVulkan(state, supportsReset)
    {
      callsVulkan := false;
      if state == Pending {
        return false, callsVulkan;
      }
      if state == Initial {
        return true, callsVulkan;
      }
      if !supportsReset {
        return false, callsVulkan;
      }
      callsVulkan := true;
      if result != VK_SUCCESS {
        return false, callsVulkan;
      }
      ok := true;
    }

    /** command_buffer_free: refused only from pending. It changes no member of the buffer. */
    method Free() returns (ok: bool)
      ensures ok <==> state != Pending
    {
      if state == Pending {
        return false;
      }
      ok := true;
    }

    /**
     * command_buffer_begin, given what vkBeginCommandBuffer would return; it
     * warns when the buffer is already recording and changes no member of
     * the buffer.
     */
    method Begin(result: VkResult) returns (ok: bool, warned: bool)
      ensures ok <==> BeginSucceeds(state, isSecondary, result)
      ensures warned <==> state == Recording
    {
      warned := false;
      if state == Pending {
        return false, warned;
      }
      if state == Invalid {
        return false, warned;
      }
      if state == Recording {
        warned := true;
      }
      if isSecondary {
        return false, warned;
      }
      if result != VK_SUCCESS {
        return false, warned;
      }
      ok := true;
    }
  }

  /**
   * command_buffer_create for one buffer, given what vkAllocateCommandBuffers
   * returns: on failure no buffer; otherwise a new buffer with the allocated
   * handle and the secondary flag. Its state is left at the default
   * (invalid) and the pool handle and reset capability are not recorded.
   */
  method CommandBufferCreate(isSecondary: bool, result: VkResult, handle: nat)
    returns (cb: CommandBuffer?)
    ensures result != VK_SUCCESS ==> cb == null
    ensures result == VK_SUCCESS ==>
      cb != null && fresh(cb) && cb.vulkanHandle == handle && cb.isSecondary == isSecondary &&
      cb.state == Invalid && cb.poolHandle == 0 && !cb.supportsReset
  {
    var commandBuffer := new CommandBuffer();
    if result != VK_SUCCESS {
      return null;
    }
    commandBuffer.vulkanHandle := handle;
    commandBuffer.isSecondary := isSecondary;
    cb := commandBuffer;
  }

  /**
   * A buffer as command_buffer_create leaves it can never begin recording,
   * whatever Vulkan answers, and resetting it does not help: no operation
   * moves it out of the invalid state.
   */
  lemma CreatedBufferNeverBegins(isSecondary: bool, result: VkResult)
    ensures !BeginSucceeds(Invalid, isSecondary, result)
    ensures !ResetSucceeds(Invalid, false, result)
  {
  }

  /**
   * command_buffer_create as the lifecycle comments of
   * CommandBufferStateType describe it: a freshly allocated buffer is in the
   * initial state.
   */
  method CommandBufferCreateInitial(isSecondary: bool, result: VkResult, handle: nat)
    returns (cb: CommandBuffer?)
    ensures result != VK_SUCCESS ==> cb == null
    ensures result == VK_SUCCESS ==>
      cb != null && fresh(cb) && cb.vulkanHandle == handle && cb.isSecondary == isSecondary &&
      cb.state == Initial
  {
    var commandBuffer := new CommandBuffer();
    if result != VK_SUCCESS {
      return null;
    }
    commandBuffer.vulkanHandle := handle;
    commandBuffer.isSecondary := isSecondary;
    commandBuffer.state := Initial;
    cb := commandBuffer;
  }

  /**
   * A primary buffer in the initial state begins recording whenever
   * vkBeginCommandBuffer succeeds, and resets without Vulkan.
   */
  lemma InitialBufferBegins(result: VkResult, supportsReset: bool)
    ensures BeginSucceeds(Initial, false, result) <==> result == VK_SUCCESS
    ensures ResetSucceeds(Initial, supportsReset, result)
    ensures !ResetCallsVulkan(Initial, supportsReset)
  {
  }

  /** The objects of a sequence of buffers, as a frame. */
  function Objects(buffers: seq<CommandBuffer>): set<object>
  {
    set k | 0 <= k < |buffers| :: buffers[k] as object
  }

  /**
   * command_buffer_create for `createCount` buffers: the buffer objects are
   * made first; if vkAllocateCommandBuffers fails there are no buffers;
   * otherwise each buffer gets its allocated handle, the pool's handle, the
   * pool's reset capability and the secondary flag, and stays invalid.
   */
  method CommandBufferCreateBatch(isSecondary: bool, createCount: nat, poolHandle: nat,
                                  poolAllowsReset: bool, result: VkResult, handles: seq<nat>)
    returns (buffers: seq<CommandBuffer>)
    requires |handles| == createCount
    ensures result != VK_SUCCESS ==> buffers == []
    ensures result == VK_SUCCESS ==> |buffers| == createCount
    ensures forall k :: 0 <= k < |buffers| ==> fresh(buffers[k])
    ensures forall j, k :: 0 <= j < k < |buffers| ==> buffers[j] != buffers[k]
    ensures forall k :: 0 <= k < |buffers| ==>
      buffers[k].vulkanHandle == handles[k] && buffers[k].poolHandle == poolHandle &&
      buffers[k].supportsReset == poolAllowsReset && buffers[k].isSecondary == isSecondary &&
      buffers[k].state == Invalid
  {
    var allocations: seq<CommandBuffer> := [];
    while |allocations| < createCount
      invariant |allocations| <= createCount
      invariant forall k :: 0 <= k < |allocations| ==> fresh(allocations[k])
      invariant forall j, k :: 0 <= j < k < |allocations| ==> allocations[j] != allocations[k]
      invariant forall k :: 0 <= k < |allocations| ==> allocations[k].state == Invalid
    {
      var b := new CommandBuffer();
      allocations := allocations + [b];
    }
    if result != VK_SUCCESS {
      return [];
    }
    var i := 0;
    while i < createCount
      invariant 0 <= i <= createCount
      invariant forall k :: 0 <= k < createCount ==> fresh(allocations[k])
      invariant forall k :: 0 <= k < createCount ==> allocations[k].state == Invalid
      invariant forall k :: 0 <= k < i ==>
        allocations[k].vulkanHandle == handles[k] && allocations[k].poolHandle == poolHandle &&
        allocations[k].supportsReset == poolAllowsReset &&
        allocations[k].isSecondary == isSecondary
    {
      allocations[i].vulkanHandle := handles[i];
      allocations[i].poolHandle := poolHandle;
      allocations[i].supportsReset := poolAllowsReset;
      allocations[i].isSecondary := isSecondary;
      i := i + 1;
    }
    buffers := allocations;
  }

  /**
   * command_buffer_destroy for a vector of buffers: an empty vector is left
   * alone; otherwise every handle is handed to vkFreeCommandBuffers with the
   * first buffer's pool, then every buffer loses its handles and becomes
   * not-allocated.
   */
  method CommandBufferDestroyBatch(buffers: seq<CommandBuffer>)
    returns (freed: seq<nat>, pool: nat)
    modifies Objects(buffers)
    ensures buffers == [] ==> freed == []
    ensures buffers != [] ==> pool == old(buffers[0].poolHandle)
    ensures |freed| == |buffers|
    ensures forall k :: 0 <= k < |buffers| ==> freed[k] == old(buffers[k].vulkanHandle)
    ensures forall k :: 0 <= k < |buffers| ==>
      buffers[k].vulkanHandle == 0 && buffers[k].poolHandle == 0 &&
      buffers[k].state == NotAllocated &&
      buffers[k].supportsReset == old(buffers[k].supportsReset) &&
      buffers[k].isSecondary == old(buffers[k].isSecondary)
  {
    freed := [];
    pool := 0;
    if |buffers| == 0 {
      return;
    }
    var i := 0;
    while i < |buffers|
      invariant 0 <= i <= |buffers|
      invariant |freed| == i
      invariant forall k :: 0 <= k < i ==> freed[k] == buffers[k].vulkanHandle
    {
      freed := freed + [buffers[i].vulkanHandle];
      i := i + 1;
    }
    pool := buffers[0].poolHandle;
    i := 0;
    while i < |buffers|
      invariant 0 <= i <= |buffers|
      invariant forall k :: 0 <= k < i ==>
        buffers[k].vulkanHandle == 0 && buffers[k].poolHandle == 0 &&
        buffers[k].state == NotAllocated
      invariant forall k :: 0 <= k < |buffers| ==>
        buffers[k].supportsReset == old(buffers[k].supportsReset) &&
        buffers[k].isSecondary == old(buffers[k].isSecondary)
      invariant forall k :: 0 <= k < |buffers| ==> freed[k] == old(buffers[k].vulkanHandle)
    {
      buffers[i].vulkanHandle := 0;
      buffers[i].poolHandle := 0;
      buffers[i].state := NotAllocated;
      i := i + 1;
    }
  }
}
