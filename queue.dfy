// vtek::Queue (src/vtek_queue.cpp, src/impl/vtek_queue_struct.hpp): a device
// queue with its family index, the capability flags of that family and whether
// it can present. The queries only read these fields.
module Queues {
  import opened Wrappers
  import opened Vk
  import Swapchain

  const VK_QUEUE_GRAPHICS_BIT: bv32 := 0x1
  const VK_QUEUE_COMPUTE_BIT: bv32 := 0x2
  const VK_QUEUE_TRANSFER_BIT: bv32 := 0x4
  const VK_QUEUE_SPARSE_BINDING_BIT: bv32 := 0x8

  /** A VkQueue handle; 0 is VK_NULL_HANDLE. */
  type QueueHandle = nat

  /** The fields of vtek::Queue. */
  datatype Queue = Queue(
    vulkanHandle: QueueHandle, familyIndex: nat, queueFlags: bv32, presentSupport: bool)

  /** The member initialisers: no handle, family UINT32_MAX, no flags, no presentation. */
  function DefaultQueue(): (q: Queue)
    ensures q.vulkanHandle == 0 && q.familyIndex == U32_MAX
    ensures q.queueFlags == 0 && !q.presentSupport
  {
    Queue(0, U32_MAX, 0, false)
  }

  /** queue_get_family_index. */
  function GetFamilyIndex(q: Queue): (r: nat)
    ensures DefaultQueue() == q ==> r == U32_MAX
  {
    q.familyIndex
  }

  /** queue_is_same_family: both queues come from one queue family. */
  predicate IsSameFamily(q1: Queue, q2: Queue)
  {
    q1.familyIndex == q2.familyIndex
  }

  /** Being in the same family is an equivalence between queues. */
  lemma SameFamilyIsEquivalence(q1: Queue, q2: Queue, q3: Queue)
    ensures IsSameFamily(q1, q1)
    ensures IsSameFamily(q1, q2) <==> IsSameFamily(q2, q1)
    ensures IsSameFamily(q1, q2) && IsSameFamily(q2, q3) ==> IsSameFamily(q1, q3)
    ensures IsSameFamily(q1, q2) <==> GetFamilyIndex(q1) == GetFamilyIndex(q2)
  {
  }

  /**
   * queue_get_sharing_mode as written: CONCURRENT for two queues of the same
   * family and EXCLUSIVE for two different families.
   */
  function GetSharingModeAsWritten(q1: Queue, q2: Queue): (m: SharingMode)
    ensures m == Concurrent <==> IsSameFamily(q1, q2)
  {
    if q1.familyIndex == q2.familyIndex then Concurrent else Exclusive
  }

  /**
   * queue_get_sharing_mode as swapchain creation applies the rule: a resource
   * used by queues of one family needs no sharing, two families share it
   * concurrently.
   */
  function GetSharingMode(q1: Queue, q2: Queue): (m: SharingMode)
    ensures m == Exclusive <==> IsSameFamily(q1, q2)
    ensures m == Swapchain.SwapchainSharing(q1.familyIndex, q2.familyIndex).mode
  {
    if q1.familyIndex == q2.familyIndex then Exclusive else Concurrent
  }

  /** The written rule disagrees with the swapchain's rule for every pair of queues. */
  lemma SharingModeAsWrittenIsInverted(q1: Queue, q2: Queue)
    ensures GetSharingModeAsWritten(q1, q2) != GetSharingMode(q1, q2)
    ensures GetSharingModeAsWritten(q1, q2) !=
      Swapchain.SwapchainSharing(q1.familyIndex, q2.familyIndex).mode
  {
  }

  /** queue_supports_graphics: the family's GRAPHICS bit. */
  predicate SupportsGraphics(q: Queue)
  {
    q.queueFlags & VK_QUEUE_GRAPHICS_BIT != 0
  }

  /** queue_supports_present. */
  predicate SupportsPresent(q: Queue)
  {
    q.presentSupport
  }

  /** queue_supports_compute: the family's COMPUTE bit. */
  predicate SupportsCompute(q: Queue)
  {
    q.queueFlags & VK_QUEUE_COMPUTE_BIT != 0
  }

  /** queue_supports_sparse_binding: the family's SPARSE_BINDING bit. */
  predicate SupportsSparseBinding(q: Queue)
  {
    q.queueFlags & VK_QUEUE_SPARSE_BINDING_BIT != 0
  }

  /** A default-constructed queue has no capability at all. */
  lemma DefaultQueueSupportsNothing()
    ensures var q := DefaultQueue();
      !SupportsGraphics(q) && !SupportsCompute(q) && !SupportsSparseBinding(q) &&
      !SupportsPresent(q)
  {
  }
}
