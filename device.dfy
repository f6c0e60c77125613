// vtek::Device (src/vtek_device.cpp): how device creation distributes queues
// over the queue families the physical device offers (create_queue_infos),
// how the separate transfer family's queues are fetched afterwards, the
// multisampling limits, the device's Vulkan version and the queue getters.
// Everything Vulkan reports (queue handles, limits, versions) is an input.
module Devices {
  import opened Wrappers
  import Queues
  import PhysicalDevices
  import VulkanVersion
  import opened VulkanTypes

  // ------------------------------------------------------------------
  // Queue create infos
  // ------------------------------------------------------------------

  /** gMaxQueueCount: no family is asked for more queues than this. */
  const MAX_QUEUE_COUNT: nat := 16

  /** The members of vtek::DeviceCreateInfo that decide the queues. */
  datatype DeviceCreateInfo = DeviceCreateInfo(
    preferSeparateTransferQueue: bool, preferSeparateComputeQueue: bool,
    preferPresentInComputeQueue: bool, numTransferQueues: nat, numComputeQueues: nat)

  /** A queue family selected for creation, remembered to fetch its queues later. */
  datatype QueueDescription = QueueDescription(
    familyIndex: nat, familyMaxCount: nat, queueCount: nat, queueFlags: bv32, present: bool)

  datatype PresentPlacement = NoPresent | PresentInGraphicsQueue | PresentInComputeFamily
  datatype TransferPlacement =
    | TransferInGraphicsQueue | TransferInGraphicsFamily | TransferInSeparateFamily
    | TransferInComputeFamily
  datatype ComputePlacement =
    | NoCompute | ComputeInGraphicsQueue | ComputeInGraphicsFamily | ComputeInSeparateFamily

  /** QueueFamilySelections. */
  datatype Selections = Selections(
    graphics: Option<QueueDescription>,
    presentPlacement: PresentPlacement, present: Option<QueueDescription>,
    transferPlacement: TransferPlacement, transfer: Option<QueueDescription>,
    computePlacement: ComputePlacement, compute: Option<QueueDescription>)

  /** The reset selections: nothing chosen, transfers inside the graphics queue. */
  function DefaultSelections(): Selections
  {
    Selections(None, NoPresent, None, TransferInGraphicsQueue, None, NoCompute, None)
  }

  /** The two members of VkDeviceQueueCreateInfo that vary. */
  datatype QueueCreateInfo = QueueCreateInfo(familyIndex: nat, queueCount: nat)

  predicate DoGraphics(s: PhysicalDevices.QueueSupport) { s.graphics && s.graphicsRequired }
  predicate DoPresent(s: PhysicalDevices.QueueSupport) { s.present && s.presentRequired }
  predicate DoCompute(s: PhysicalDevices.QueueSupport) { s.compute && s.computeRequired }

  /** The device has a separate compute family and the application wants to use it. */
  predicate SeparateCompute(info: DeviceCreateInfo, s: PhysicalDevices.QueueSupport)
  {
    s.hasSeparateComputeFamily && info.preferSeparateComputeQueue
  }

  /**
   * Compute is wanted, graphics is not, there is no separate compute family,
   * and the graphics family can compute: compute queues come from that family.
   */
  predicate ComputeInGraphicsFamilyOnly(s: PhysicalDevices.QueueSupport)
  {
    DoCompute(s) && s.graphics && s.graphicsHasCompute && !s.graphicsRequired &&
    !s.hasSeparateComputeFamily
  }

  /** The device has a separate transfer family and the application wants to use it. */
  predicate SeparateTransfer(info: DeviceCreateInfo, s: PhysicalDevices.QueueSupport)
  {
    s.hasSeparateTransferFamily && info.preferSeparateTransferQueue
  }

  /** A description asks for no more queues than its family allows, and for at least one. */
  predicate FitsFamily(d: QueueDescription)
  {
    d.familyMaxCount <= MAX_QUEUE_COUNT &&
    (d.familyMaxCount >= 1 ==> 1 <= d.queueCount <= d.familyMaxCount)
  }

  /** The create info that goes with a description. */
  function CreateInfoOf(d: QueueDescription): (ci: QueueCreateInfo)
    ensures ci.familyIndex == d.familyIndex && ci.queueCount == d.queueCount
  {
    QueueCreateInfo(d.familyIndex, d.queueCount)
  }

  /** The create infos, one per chosen family, graphics first, then compute, then transfer. */
  function CreateInfosOf(sel: Selections): (r: seq<QueueCreateInfo>)
    ensures |r| == (if sel.graphics.Some? then 1 else 0) + (if sel.compute.Some? then 1 else 0) +
                   (if sel.transfer.Some? then 1 else 0)
  {
    (if sel.graphics.Some? then [CreateInfoOf(sel.graphics.value)] else []) +
    (if sel.compute.Some? then [CreateInfoOf(sel.compute.value)] else []) +
    (if sel.transfer.Some? then [CreateInfoOf(sel.transfer.value)] else [])
  }

  /**
   * The graphics block of create_queue_infos: one graphics queue, plus the
   * transfer and compute queues that are to share its family, clamped into
   * what the family offers.
   */
  method PlanGraphicsQueue(info: DeviceCreateInfo, s: PhysicalDevices.QueueSupport)
    returns (desc: QueueDescription, transfer: TransferPlacement, compute: ComputePlacement,
             present: PresentPlacement)
    ensures desc.familyIndex == s.graphicsIndex
    ensures desc.familyMaxCount == Min(MAX_QUEUE_COUNT, s.graphicsMaxCount)
    ensures FitsFamily(desc)
    ensures desc.queueFlags & Queues.VK_QUEUE_GRAPHICS_BIT != 0
    ensures transfer == (if !s.hasSeparateTransferFamily && info.preferSeparateTransferQueue
                         then TransferInGraphicsFamily else TransferInGraphicsQueue)
    ensures compute ==
      (if DoCompute(s) && !s.hasSeparateComputeFamily && info.preferSeparateComputeQueue
       then ComputeInGraphicsFamily
       else if DoCompute(s) && !info.preferSeparateComputeQueue then ComputeInGraphicsQueue
       else NoCompute)
    ensures present == PresentInGraphicsQueue <==>
      DoPresent(s) && s.graphicsHasPresent &&
      (info.preferPresentInComputeQueue ==>
         !(s.hasSeparateComputeFamily && s.separateComputeHasPresent))
    ensures present != PresentInComputeFamily
    ensures desc.present <==> present == PresentInGraphicsQueue
  {
    var minNum := 1;
    var maxNum := Min(MAX_QUEUE_COUNT, s.graphicsMaxCount);
    var queueCount := 1;
    var flags := Queues.VK_QUEUE_GRAPHICS_BIT;
    transfer, compute, present := TransferInGraphicsQueue, NoCompute, NoPresent;

    if !s.hasSeparateTransferFamily && info.preferSeparateTransferQueue {
      queueCount := U32(queueCount + Max(1, info.numTransferQueues));
      if minNum + 1 <= s.graphicsMaxCount { minNum := minNum + 1; }
      flags := flags | Queues.VK_QUEUE_TRANSFER_BIT;
      transfer := TransferInGraphicsFamily;
    } else if !info.preferSeparateTransferQueue {
      flags := flags | Queues.VK_QUEUE_TRANSFER_BIT;
      transfer := TransferInGraphicsQueue;
    }

    if DoCompute(s) && !s.hasSeparateComputeFamily && info.preferSeparateComputeQueue {
      queueCount := U32(queueCount + Max(1, info.numComputeQueues));
      if minNum + 1 <= s.graphicsMaxCount { minNum := minNum + 1; }
      flags := flags | Queues.VK_QUEUE_COMPUTE_BIT;
      compute := ComputeInGraphicsFamily;
    } else if DoCompute(s) && !info.preferSeparateComputeQueue {
      flags := flags | Queues.VK_QUEUE_COMPUTE_BIT;
      compute := ComputeInGraphicsQueue;
    }

    var presentHere := if info.preferPresentInComputeQueue
                       then !(s.hasSeparateComputeFamily && s.separateComputeHasPresent)
                       else true;
    var presentFlag := false;
    if DoPresent(s) && s.graphicsHasPresent && presentHere {
      present := PresentInGraphicsQueue;
      presentFlag := true;
    }

    if s.graphicsHasSparseBinding {
      flags := flags | Queues.VK_QUEUE_SPARSE_BINDING_BIT;
    }

    queueCount := Clamp(queueCount, minNum, maxNum);
    desc := QueueDescription(s.graphicsIndex, maxNum, queueCount, flags, presentFlag);
  }

  /**
   * The separate compute block: the compute family's queues. Present and
   * transfer queues may be counted in first, but the final count is the
   * requested compute count clamped into the family, which drops them again.
   */
  method PlanSeparateComputeQueue(info: DeviceCreateInfo, s: PhysicalDevices.QueueSupport,
                                  transfer: TransferPlacement, present: PresentPlacement)
    returns (desc: QueueDescription, transfer': TransferPlacement, present': PresentPlacement)
    ensures desc.familyIndex == s.separateComputeIndex
    ensures desc.familyMaxCount == Min(s.separateComputeMaxCount, MAX_QUEUE_COUNT)
    ensures desc.queueCount == Clamp(info.numComputeQueues, 1, desc.familyMaxCount)
    ensures FitsFamily(desc)
    ensures transfer' ==
      (if !s.hasSeparateTransferFamily && !DoGraphics(s) then TransferInComputeFamily else transfer)
    ensures present' ==
      (if DoPresent(s) && info.preferPresentInComputeQueue && s.separateComputeHasPresent
       then PresentInComputeFamily else present)
    ensures desc.present <==>
      DoPresent(s) && info.preferPresentInComputeQueue && s.separateComputeHasPresent
  {
    var maxNum := Min(s.separateComputeMaxCount, MAX_QUEUE_COUNT);
    var queueCount := Max(1, info.numComputeQueues);
    var flags := Queues.VK_QUEUE_COMPUTE_BIT;
    var presentFlag := false;
    transfer', present' := transfer, present;

    if DoPresent(s) && info.preferPresentInComputeQueue && s.separateComputeHasPresent {
      queueCount := U32(queueCount + 1);
      present' := PresentInComputeFamily;
      presentFlag := true;
    }

    if !s.hasSeparateTransferFamily && !DoGraphics(s) {
      queueCount := U32(queueCount + Max(1, info.numTransferQueues));
      flags := flags | Queues.VK_QUEUE_TRANSFER_BIT;
      transfer' := TransferInComputeFamily;
    }

    queueCount := Clamp(info.numComputeQueues, 1, maxNum);
    desc := QueueDescription(s.separateComputeIndex, maxNum, queueCount, flags, presentFlag);
  }

  /**
   * The block for compute inside the graphics family when graphics itself is
   * not wanted: compute queues, plus transfer and present queues that share
   * the family, clamped into it.
   */
  method PlanGraphicsFamilyComputeQueue(info: DeviceCreateInfo, s: PhysicalDevices.QueueSupport,
                                        transfer: TransferPlacement, present: PresentPlacement)
    returns (desc: QueueDescription, transfer': TransferPlacement, present': PresentPlacement)
    ensures desc.familyIndex == s.graphicsIndex
    ensures desc.familyMaxCount == Min(s.graphicsMaxCount, MAX_QUEUE_COUNT)
    ensures FitsFamily(desc)
    ensures desc.queueFlags & Queues.VK_QUEUE_COMPUTE_BIT != 0
    ensures transfer' == (if !s.hasSeparateTransferFamily then TransferInComputeFamily else transfer)
    ensures present' ==
      (if DoPresent(s) && s.graphicsHasPresent then PresentInComputeFamily else present)
  {
    var maxNum := Min(s.graphicsMaxCount, MAX_QUEUE_COUNT);
    var queueCount := Max(1, info.numComputeQueues);
    var flags := Queues.VK_QUEUE_COMPUTE_BIT;
    var presentFlag := false;
    transfer', present' := transfer, present;

    if !s.hasSeparateTransferFamily {
      queueCount := U32(queueCount + Max(1, info.numTransferQueues));
      flags := flags | Queues.VK_QUEUE_TRANSFER_BIT;
      transfer' := TransferInComputeFamily;
    }

    if s.graphicsHasSparseBinding {
      flags := flags | Queues.VK_QUEUE_SPARSE_BINDING_BIT;
    }

    if DoPresent(s) && s.graphicsHasPresent {
      queueCount := U32(queueCount + 1);
      presentFlag := true;
      present' := PresentInComputeFamily;
    }

    queueCount := Clamp(queueCount, 1, maxNum);
    desc := QueueDescription(s.graphicsIndex, maxNum, queueCount, flags, presentFlag);
  }

  /** The separate transfer block: the requested transfer count, clamped into the family. */
  method PlanSeparateTransferQueue(info: DeviceCreateInfo, s: PhysicalDevices.QueueSupport)
    returns (desc: QueueDescription)
    ensures desc.familyIndex == s.separateTransferIndex
    ensures desc.familyMaxCount == Min(MAX_QUEUE_COUNT, s.separateTransferMaxCount)
    ensures desc.queueCount == Clamp(info.numTransferQueues, 1, desc.familyMaxCount)
    ensures FitsFamily(desc) && !desc.present
    ensures desc.queueFlags & Queues.VK_QUEUE_TRANSFER_BIT != 0
  {
    var maxNum := Min(MAX_QUEUE_COUNT, s.separateTransferMaxCount);
    var queueCount := Clamp(info.numTransferQueues, 1, maxNum);
    var flags := Queues.VK_QUEUE_TRANSFER_BIT;
    if s.separateTransferHasSparseBinding {
      flags := flags | Queues.VK_QUEUE_SPARSE_BINDING_BIT;
    }
    desc := QueueDescription(s.separateTransferIndex, maxNum, queueCount, flags, false);
  }

  /**
   * create_queue_infos: the families chosen for graphics, compute and
   * transfer, one create info each in that order, every one asking for a
   * number of queues its family can provide. It always succeeds.
   */
  method CreateQueueInfos(info: DeviceCreateInfo, s: PhysicalDevices.QueueSupport)
    returns (createInfos: seq<QueueCreateInfo>, sel: Selections)
    ensures createInfos == CreateInfosOf(sel)
    ensures sel.graphics.Some? <==> DoGraphics(s)
    ensures sel.compute.Some? <==>
      DoCompute(s) && (SeparateCompute(info, s) || ComputeInGraphicsFamilyOnly(s))
    ensures sel.transfer.Some? <==> SeparateTransfer(info, s)
    ensures sel.present.None?
    ensures sel.graphics.Some? ==>
      FitsFamily(sel.graphics.value) && sel.graphics.value.familyIndex == s.graphicsIndex
    ensures sel.compute.Some? ==> FitsFamily(sel.compute.value)
    ensures sel.transfer.Some? ==>
      FitsFamily(sel.transfer.value) && sel.transfer.value.familyIndex == s.separateTransferIndex
    ensures SeparateTransfer(info, s) ==> sel.transferPlacement == TransferInSeparateFamily
    ensures (DoGraphics(s) && !s.hasSeparateTransferFamily && info.preferSeparateTransferQueue) ==>
      sel.transferPlacement == TransferInGraphicsFamily
    ensures (DoGraphics(s) && !info.preferSeparateTransferQueue) ==>
      sel.transferPlacement == TransferInGraphicsQueue
    ensures (DoCompute(s) && SeparateCompute(info, s)) ==>
      sel.compute.value.familyIndex == s.separateComputeIndex &&
      sel.compute.value.queueCount ==
        Clamp(info.numComputeQueues, 1, Min(s.separateComputeMaxCount, MAX_QUEUE_COUNT))
  {
    sel := DefaultSelections();
    createInfos := [];

    if DoGraphics(s) {
      var desc, transfer, compute, present := PlanGraphicsQueue(info, s);
      createInfos := createInfos + [CreateInfoOf(desc)];
      sel := sel.(graphics := Some(desc), transferPlacement := transfer,
                  computePlacement := compute, presentPlacement := present);
    }

    if DoCompute(s) && SeparateCompute(info, s) {
      var desc, transfer, present :=
        PlanSeparateComputeQueue(info, s, sel.transferPlacement, sel.presentPlacement);
      createInfos := createInfos + [CreateInfoOf(desc)];
      sel := sel.(compute := Some(desc), transferPlacement := transfer, presentPlacement := present);
    }

    if ComputeInGraphicsFamilyOnly(s) {
      var desc, transfer, present :=
        PlanGraphicsFamilyComputeQueue(info, s, sel.transferPlacement, sel.presentPlacement);
      createInfos := createInfos + [CreateInfoOf(desc)];
      sel := sel.(compute := Some(desc), transferPlacement := transfer, presentPlacement := present);
    }

    if SeparateTransfer(info, s) {
      var desc := PlanSeparateTransferQueue(info, s);
      createInfos := createInfos + [CreateInfoOf(desc)];
      sel := sel.(transferPlacement := TransferInSeparateFamily, transfer := Some(desc));
    }
  }

  /**
   * The scan as it would be with the separate compute family's queue count
   * recorded, as it is for the graphics and transfer families.
   */
  function CorrectedQueueSupport(families: seq<PhysicalDevices.QueueFamily>, hasSurface: bool,
                                 presentSupport: seq<bool>): (qs: PhysicalDevices.QueueSupport)
    requires |presentSupport| == |families|
    ensures var c := PhysicalDevices.FirstWithRole(families, PhysicalDevices.SeparateComputeRole);
      qs.separateComputeMaxCount == (if c.Some? then families[c.value].queueCount else 0)
  {
    var qs := PhysicalDevices.QueueSupportFor(families, hasSurface, presentSupport);
    var c := PhysicalDevices.FirstWithRole(families, PhysicalDevices.SeparateComputeRole);
    qs.(separateComputeMaxCount := if c.Some? then families[c.value].queueCount else 0)
  }

  /**
   * As the scan is written, a device with a separate compute family reports
   * that family's maximum queue count as 0, so the separate compute queue
   * count becomes Clamp(n, 1, 0), which is 0 queues whenever at least one
   * compute queue is requested.
   */
  lemma SeparateComputeCountAsWritten(families: seq<PhysicalDevices.QueueFamily>, hasSurface: bool,
                                      presentSupport: seq<bool>, numComputeQueues: nat)
    requires |presentSupport| == |families|
    requires numComputeQueues >= 1
    ensures var qs := PhysicalDevices.QueueSupportFor(families, hasSurface, presentSupport);
      Clamp(numComputeQueues, 1, Min(qs.separateComputeMaxCount, MAX_QUEUE_COUNT)) == 0
  {
  }

  /**
   * A concrete device: one graphics family and one compute-only family of
   * four queues. The scan selects the compute family yet reports it can hold
   * no queue.
   */
  lemma SeparateComputeCountExample()
    ensures var families := [
        PhysicalDevices.QueueFamily(Queues.VK_QUEUE_GRAPHICS_BIT, 1, 0),
        PhysicalDevices.QueueFamily(Queues.VK_QUEUE_COMPUTE_BIT, 4, 0)];
      var qs := PhysicalDevices.QueueSupportFor(families, false, [false, false]);
      qs.hasSeparateComputeFamily && qs.separateComputeIndex == 1 &&
      qs.separateComputeMaxCount == 0 && families[1].queueCount == 4
  {
    var families := [
        PhysicalDevices.QueueFamily(Queues.VK_QUEUE_GRAPHICS_BIT, 1, 0),
        PhysicalDevices.QueueFamily(Queues.VK_QUEUE_COMPUTE_BIT, 4, 0)];
    assert !PhysicalDevices.HasRole(families[0], PhysicalDevices.SeparateComputeRole);
    assert PhysicalDevices.HasRole(families[1], PhysicalDevices.SeparateComputeRole);
    assert families[1..][0] == families[1];
    assert PhysicalDevices.FirstWithRole(families[1..], PhysicalDevices.SeparateComputeRole) == Some(0);
    assert PhysicalDevices.FirstWithRole(families, PhysicalDevices.SeparateComputeRole) == Some(1);
  }

  /**
   * With the count recorded, and every family offering at least one queue (as
   * Vulkan guarantees), the separate compute queue count lies between 1 and
   * what the family offers, for every requested count.
   */
  lemma CorrectedSeparateComputeCount(families: seq<PhysicalDevices.QueueFamily>, hasSurface: bool,
                                      presentSupport: seq<bool>, numComputeQueues: nat)
    requires |presentSupport| == |families|
    requires forall i :: 0 <= i < |families| ==> families[i].queueCount >= 1
    ensures var qs := CorrectedQueueSupport(families, hasSurface, presentSupport);
      var maxNum := Min(qs.separateComputeMaxCount, MAX_QUEUE_COUNT);
      qs.hasSeparateComputeFamily ==>
        1 <= Clamp(numComputeQueues, 1, maxNum) <= maxNum &&
        maxNum <= families[qs.separateComputeIndex].queueCount
  {
    var c := PhysicalDevices.FirstWithRole(families, PhysicalDevices.SeparateComputeRole);
    var qs := PhysicalDevices.QueueSupportFor(families, hasSurface, presentSupport);
    assert qs.hasSeparateComputeFamily == c.Some?;
    if c.Some? {
      assert qs.separateComputeIndex == c.value;
      assert families[c.value].queueCount >= 1;
    }
  }

  // ------------------------------------------------------------------
  // Multisampling limits
  // ------------------------------------------------------------------

  /**
   * get_max in get_msaa_limits: the largest sample count whose bit is in the
   * flags, and 1 when none of 2..64 is. A VkSampleCountFlagBits value is its
   * sample count, so the result is kept as that number.
   */
  function MaxSampleCountBit(flags: bv32): (r: nat)
    ensures r in SAMPLE_COUNTS
    ensures forall k :: 0 < k < 7 && SAMPLE_COUNTS[k] == r ==> flags & SAMPLE_COUNT_BITS[k] != 0
    ensures forall k :: 0 <= k < 7 && r < SAMPLE_COUNTS[k] ==> flags & SAMPLE_COUNT_BITS[k] == 0
  {
    if flags & 0x40 != 0 then 64
    else if flags & 0x20 != 0 then 32
    else if flags & 0x10 != 0 then 16
    else if flags & 0x8 != 0 then 8
    else if flags & 0x4 != 0 then 4
    else if flags & 0x2 != 0 then 2
    else 1
  }

  /** The aspects a sample count query asks about (vtek::SampleCountQuery). */
  datatype SampleCountQuery = SampleCountQuery(color: bool, depth: bool, stencil: bool)

  /**
   * The device's Vulkan version, chosen at creation: a 1.0 instance keeps the
   * device at 1.0, any later instance lets it use the physical device's own
   * apiVersion.
   */
  function DeviceVulkanVersion(instance: VulkanVersion.Version, physicalApi: bv32)
    : (r: VulkanVersion.Version)
    ensures instance.major == 1 && instance.minor == 0 ==> r == instance
    ensures !(instance.major == 1 && instance.minor == 0) ==>
      r.api == physicalApi && r == VulkanVersion.FromApi(physicalApi)
  {
    if instance.major == 1 && instance.minor == 0 then instance
    else VulkanVersion.FromApi(physicalApi)
  }

  // ------------------------------------------------------------------
  // The device
  // ------------------------------------------------------------------

  /**
   * The queues fetched from the separate transfer family: one per index up
   * to the description's count, stopping early at the family's maximum.
   * `handles[i]` is what vkGetDeviceQueue returns for queue i of the family.
   */
  function SeparateTransferQueues(d: QueueDescription, handles: seq<nat>): (r: seq<Queues.Queue>)
    requires |handles| >= d.queueCount
    ensures |r| == Min(d.queueCount, d.familyMaxCount)
    ensures FitsFamily(d) && d.familyMaxCount >= 1 ==> |r| == d.queueCount
    ensures forall i :: 0 <= i < |r| ==>
      r[i].vulkanHandle == handles[i] && r[i].familyIndex == d.familyIndex &&
      r[i].queueFlags == d.queueFlags && !r[i].presentSupport
  {
    seq(Min(d.queueCount, d.familyMaxCount),
        i requires 0 <= i < Min(d.queueCount, d.familyMaxCount) =>
          Queues.Queue(handles[i], d.familyIndex, d.queueFlags, false))
  }

  /** The state of vtek::Device the model follows. */
  class Device {
    var vulkanVersion: VulkanVersion.Version
    var graphicsQueue: Queues.Queue
    var presentQueue: Queues.Queue
    var transferQueues: seq<Queues.Queue>
    var computeQueues: seq<Queues.Queue>
    var msaaColorLimit: nat
    var msaaDepthLimit: nat
    var msaaStencilLimit: nat

    /** The member initialisers: version 1.0.0, no queues, every limit 1 sample. */
    constructor()
      ensures vulkanVersion == VulkanVersion.FromTriple(1, 0, 0)
      ensures graphicsQueue == Queues.DefaultQueue() && presentQueue == Queues.DefaultQueue()
      ensures transferQueues == [] && computeQueues == []
      ensures msaaColorLimit == 1 && msaaDepthLimit == 1 && msaaStencilLimit == 1
    {
      vulkanVersion := VulkanVersion.FromTriple(1, 0, 0);
      graphicsQueue := Queues.DefaultQueue();
      presentQueue := Queues.DefaultQueue();
      transferQueues := [];
      computeQueues := [];
      msaaColorLimit, msaaDepthLimit, msaaStencilLimit := 1, 1, 1;
    }

    /**
     * The separate transfer part of create_device_queues: the family's
     * queues are appended to the transfer queues, nothing else changes.
     */
    method FetchSeparateTransferQueues(d: QueueDescription, handles: seq<nat>)
      requires |handles| >= d.queueCount
      modifies this
      ensures transferQueues == old(transferQueues) + SeparateTransferQueues(d, handles)
      ensures computeQueues == old(computeQueues)
      ensures graphicsQueue == old(graphicsQueue) && presentQueue == old(presentQueue)
      ensures vulkanVersion == old(vulkanVersion)
      ensures msaaColorLimit == old(msaaColorLimit) && msaaDepthLimit == old(msaaDepthLimit)
      ensures msaaStencilLimit == old(msaaStencilLimit)
    {
      var fetched: seq<Queues.Queue> := [];
      var i := 0;
      while i < d.queueCount
        invariant i <= d.queueCount && i <= d.familyMaxCount
        invariant fetched == SeparateTransferQueues(d, handles)[..i]
      {
        if i >= d.familyMaxCount {
          break;
        }
        fetched := fetched + [Queues.Queue(handles[i], d.familyIndex, d.queueFlags, false)];
        i := i + 1;
      }
      assert fetched == SeparateTransferQueues(d, handles);
      transferQueues := transferQueues + fetched;
    }

    /** get_msaa_limits: the largest supported count of each framebuffer aspect. */
    method SetMsaaLimits(colorCounts: bv32, depthCounts: bv32, stencilCounts: bv32)
      modifies this
      ensures msaaColorLimit == MaxSampleCountBit(colorCounts)
      ensures msaaDepthLimit == MaxSampleCountBit(depthCounts)
      ensures msaaStencilLimit == MaxSampleCountBit(stencilCounts)
      ensures vulkanVersion == old(vulkanVersion)
      ensures graphicsQueue == old(graphicsQueue) && presentQueue == old(presentQueue)
      ensures transferQueues == old(transferQueues) && computeQueues == old(computeQueues)
    {
      msaaColorLimit := MaxSampleCountBit(colorCounts);
      msaaDepthLimit := MaxSampleCountBit(depthCounts);
      msaaStencilLimit := MaxSampleCountBit(stencilCounts);
    }

    /**
     * device_get_max_sample_count: 64 samples, lowered to the limit of each
     * aspect the query asks about.
     */
    function MaxSampleCount(query: SampleCountQuery): (r: nat)
      reads this
      ensures r <= 64
      ensures query.color ==> r <= msaaColorLimit
      ensures query.depth ==> r <= msaaDepthLimit
      ensures query.stencil ==> r <= msaaStencilLimit
      ensures r == 64 || (query.color && r == msaaColorLimit) ||
        (query.depth && r == msaaDepthLimit) || (query.stencil && r == msaaStencilLimit)
      ensures !query.color && !query.depth && !query.stencil ==> r == 64
    {
      var c := if query.color then Min(64, msaaColorLimit) else 64;
      var d := if query.depth then Min(c, msaaDepthLimit) else c;
      if query.stencil then Min(d, msaaStencilLimit) else d
    }

    /** device_get_graphics_queue: no queue exactly when its handle is null. */
    function GraphicsQueue(): (r: Option<Queues.Queue>)
      reads this
      ensures r.None? <==> graphicsQueue.vulkanHandle == 0
      ensures r.Some? ==> r.value == graphicsQueue
    {
      if graphicsQueue.vulkanHandle == 0 then None else Some(graphicsQueue)
    }

    /** device_get_present_queue: no queue exactly when its handle is null. */
    function PresentQueue(): (r: Option<Queues.Queue>)
      reads this
      ensures r.None? <==> presentQueue.vulkanHandle == 0
      ensures r.Some? ==> r.value == presentQueue
    {
      if presentQueue.vulkanHandle == 0 then None else Some(presentQueue)
    }

    /** device_get_graphics_present_same_family. */
    predicate GraphicsPresentSameFamily()
      reads this
      ensures GraphicsPresentSameFamily() <==> Queues.IsSameFamily(graphicsQueue, presentQueue)
    {
      graphicsQueue.familyIndex == presentQueue.familyIndex
    }

    /** The queue part of device_destroy: every queue is forgotten. */
    method ClearQueues()
      modifies this
      ensures graphicsQueue == Queues.DefaultQueue() && presentQueue == Queues.DefaultQueue()
      ensures transferQueues == [] && computeQueues == []
      ensures GraphicsQueue().None? && PresentQueue().None?
      ensures vulkanVersion == old(vulkanVersion)
      ensures msaaColorLimit == old(msaaColorLimit) && msaaDepthLimit == old(msaaDepthLimit)
      ensures msaaStencilLimit == old(msaaStencilLimit)
    {
      graphicsQueue := Queues.DefaultQueue();
      presentQueue := Queues.DefaultQueue();
      transferQueues := [];
      computeQueues := [];
    }
  }
}
