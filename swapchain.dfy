// vtek::Swapchain (src/vtek_swapchain.cpp): the rules that configure a
// swapchain from what the surface supports, and the frame-in-flight ring that
// paces rendering against presentation. Surface queries, handle creation and
// the Vulkan waits are not modelled as calls: their results are parameters.
module Swapchain {
  import opened Wrappers
  import opened Vk
  import FrameSync
  import Submission

  /** vtek::kMaxFramesInFlight. */
  const K_MAX_FRAMES_IN_FLIGHT: nat := 2

  type Handle = Submission.Handle

  // ------------------------------------------------------------------
  // Surface format
  // ------------------------------------------------------------------

  const VK_FORMAT_R8G8B8A8_UNORM: nat := 37
  const VK_FORMAT_B8G8R8A8_UNORM: nat := 44

  /** VkSurfaceFormatKHR: a VkFormat code and a VkColorSpaceKHR code. */
  datatype SurfaceFormat = SurfaceFormat(format: nat, colorSpace: nat)

  /** The formats choose_surface_format looks for: 8-bit UNORM RGBA or BGRA. */
  predicate IsPreferredSurfaceFormat(f: SurfaceFormat)
  {
    f.format == VK_FORMAT_R8G8B8A8_UNORM || f.format == VK_FORMAT_B8G8R8A8_UNORM
  }

  /** The first preferred entry of `formats`, if there is one. */
  function FirstPreferred(formats: seq<SurfaceFormat>): (r: Option<SurfaceFormat>)
    ensures r.Some? ==> r.value in formats && IsPreferredSurfaceFormat(r.value)
  {
    if formats == [] then None
    else if IsPreferredSurfaceFormat(formats[0]) then Some(formats[0])
    else FirstPreferred(formats[1..])
  }

  /** The entry choose_surface_format settles on: the first preferred one, else entry 0. */
  function ChosenSurfaceFormat(formats: seq<SurfaceFormat>): SurfaceFormat
    requires |formats| > 0
  {
    if FirstPreferred(formats).Some? then FirstPreferred(formats).value else formats[0]
  }

  /**
   * FirstPreferred is the preferred entry of smallest index, and it is None
   * exactly when no entry is preferred.
   */
  lemma {:induction false} FirstPreferredIsFirst(formats: seq<SurfaceFormat>)
    ensures FirstPreferred(formats).None? <==>
      forall i :: 0 <= i < |formats| ==> !IsPreferredSurfaceFormat(formats[i])
    ensures FirstPreferred(formats).Some? ==>
      exists k :: 0 <= k < |formats| && formats[k] == FirstPreferred(formats).value &&
        forall j :: 0 <= j < k ==> !IsPreferredSurfaceFormat(formats[j])
  {
    if formats != [] && !IsPreferredSurfaceFormat(formats[0]) {
      FirstPreferredIsFirst(formats[1..]);
      if FirstPreferred(formats).Some? {
        var k :| 0 <= k < |formats[1..]| && formats[1..][k] == FirstPreferred(formats).value &&
          forall j :: 0 <= j < k ==> !IsPreferredSurfaceFormat(formats[1..][j]);
        assert formats[k + 1] == FirstPreferred(formats).value;
        forall j | 0 <= j < k + 1
          ensures !IsPreferredSurfaceFormat(formats[j])
        {
          if j > 0 { assert formats[j] == formats[1..][j - 1]; }
        }
      } else {
        forall i | 0 <= i < |formats|
          ensures !IsPreferredSurfaceFormat(formats[i])
        {
          if i > 0 { assert formats[i] == formats[1..][i - 1]; }
        }
      }
    } else if formats != [] {
      assert formats[0] == FirstPreferred(formats).value;
    }
  }

  /**
   * choose_surface_format: a scan that keeps entry 0 unless it meets an 8-bit
   * UNORM RGBA or BGRA entry, and then stops. The list must be non-empty;
   * swapchain_create returns before the call when it is empty.
   */
  method ChooseSurfaceFormat(formats: seq<SurfaceFormat>) returns (chosen: SurfaceFormat)
    requires |formats| > 0
    ensures chosen == ChosenSurfaceFormat(formats)
    ensures chosen in formats
    ensures (exists f :: f in formats && IsPreferredSurfaceFormat(f)) ==>
      IsPreferredSurfaceFormat(chosen)
  {
    chosen := formats[0];
    var i := 0;
    while i < |formats|
      invariant 0 <= i <= |formats|
      invariant FirstPreferred(formats) == FirstPreferred(formats[i..])
      invariant chosen == formats[0]
    {
      if IsPreferredSurfaceFormat(formats[i]) {
        chosen := formats[i];
        FirstPreferredIsFirst(formats);
        return;
      }
      assert formats[i..][1..] == formats[i + 1..];
      i := i + 1;
    }
    FirstPreferredIsFirst(formats);
  }

  // ------------------------------------------------------------------
  // Present mode
  // ------------------------------------------------------------------

  /** VkPresentModeKHR. */
  datatype PresentMode =
    Immediate | Mailbox | Fifo | FifoRelaxed | SharedDemandRefresh | SharedContinuousRefresh

  /** QueueFullPolicyType: wait on a full presentation queue, or replace its images. */
  datatype QueueFullPolicy = WaitForImage | ReplaceQueuedImage

  /** PresentModeOptions. */
  datatype PresentModeOptions = PresentModeOptions(
    allowScreenTearing: bool, enforceWaitOnVerticalBlank: bool, queueFullPolicy: QueueFullPolicy)

  /**
   * choose_present_mode. FIFO is the one mode Vulkan guarantees, so it is the
   * fallback; every other result is a mode the surface lists.
   */
  function ChoosePresentMode(supported: seq<PresentMode>, options: PresentModeOptions): (m: PresentMode)
    ensures m == Fifo || m in supported
    ensures !options.allowScreenTearing ==> m == Fifo || m == Mailbox
    ensures m == Mailbox ==> Mailbox in supported
    ensures m == Immediate ==> options.allowScreenTearing && !options.enforceWaitOnVerticalBlank
  {
    var mailboxSupported := Mailbox in supported;
    var immediateSupported := Immediate in supported;
    var fifoRelaxedSupported := FifoRelaxed in supported;
    if !options.allowScreenTearing then
      if options.queueFullPolicy == ReplaceQueuedImage && mailboxSupported then Mailbox else Fifo
    else if !options.enforceWaitOnVerticalBlank && immediateSupported then Immediate
    else if fifoRelaxedSupported then FifoRelaxed
    else if mailboxSupported then Mailbox
    else Fifo
  }

  /** The modes the options ask for, most wanted first; FIFO is implied last. */
  function PresentModePreferences(options: PresentModeOptions): (prefs: seq<PresentMode>)
    ensures Fifo !in prefs
  {
    if !options.allowScreenTearing then
      (if options.queueFullPolicy == ReplaceQueuedImage then [Mailbox] else [])
    else
      (if options.enforceWaitOnVerticalBlank then [] else [Immediate]) + [FifoRelaxed, Mailbox]
  }

  /** The first of `prefs` that is supported, or FIFO when there is none. */
  function FirstSupportedMode(prefs: seq<PresentMode>, supported: seq<PresentMode>): (m: PresentMode)
    ensures m == Fifo || (m in prefs && m in supported)
    ensures (forall i :: 0 <= i < |prefs| ==> prefs[i] !in supported) ==> m == Fifo
    ensures |prefs| > 0 && prefs[0] in supported ==> m == prefs[0]
  {
    if prefs == [] then Fifo
    else if prefs[0] in supported then prefs[0]
    else FirstSupportedMode(prefs[1..], supported)
  }

  /** The decision order of choose_present_mode is a plain preference list. */
  lemma ChoosePresentModeIsFirstPreference(supported: seq<PresentMode>, options: PresentModeOptions)
    ensures ChoosePresentMode(supported, options) ==
      FirstSupportedMode(PresentModePreferences(options), supported)
  {
    var prefs := PresentModePreferences(options);
    if options.allowScreenTearing {
      if !options.enforceWaitOnVerticalBlank {
        assert prefs[1..] == [FifoRelaxed, Mailbox];
      }
      var tail := [FifoRelaxed, Mailbox];
      assert tail[1..] == [Mailbox];
      assert tail[1..][1..] == [];
    } else if options.queueFullPolicy == ReplaceQueuedImage {
      assert prefs[1..] == [];
    }
  }

  /** The options swapchain_create derives from its info: vblank is never enforced. */
  function OptionsFor(vsync: bool, prioritizeLowLatency: bool): (o: PresentModeOptions)
    ensures o.allowScreenTearing == !vsync && !o.enforceWaitOnVerticalBlank
    ensures o.queueFullPolicy == ReplaceQueuedImage <==> prioritizeLowLatency
  {
    PresentModeOptions(!vsync, false,
      if prioritizeLowLatency then ReplaceQueuedImage else WaitForImage)
  }

  /**
   * What the create info's two switches mean for the mode: vsync never tears,
   * vsync without low latency is plain FIFO, vsync with low latency prefers
   * MAILBOX, and without vsync IMMEDIATE wins whenever the surface has it.
   */
  lemma VsyncPresentMode(supported: seq<PresentMode>, vsync: bool, lowLatency: bool)
    ensures var m := ChoosePresentMode(supported, OptionsFor(vsync, lowLatency));
      && (vsync ==> m == Mailbox || m == Fifo)
      && (vsync && !lowLatency ==> m == Fifo)
      && (vsync && lowLatency ==> (m == Mailbox <==> Mailbox in supported))
      && (!vsync && Immediate in supported ==> m == Immediate)
  {
  }

  // ------------------------------------------------------------------
  // Image extent, swapchain length, pre-transform, usage, sharing
  // ------------------------------------------------------------------

  /** VkExtent2D. */
  datatype Extent2D = Extent2D(width: nat, height: nat)

  /** The fields of VkSurfaceCapabilitiesKHR the configuration reads. */
  datatype SurfaceCapabilities = SurfaceCapabilities(
    minImageCount: nat, maxImageCount: nat,
    currentExtent: Extent2D, minImageExtent: Extent2D, maxImageExtent: Extent2D,
    supportedTransforms: bv32, currentTransform: bv32, supportedUsageFlags: bv32)

  /**
   * std::max(lo, std::min(hi, v)): one framebuffer dimension brought into the
   * surface's range. The lower bound wins when the range is empty.
   */
  function ClampDimension(lo: nat, hi: nat, v: nat): (r: nat)
    ensures lo <= r
    ensures lo <= hi ==> r <= hi
    ensures lo <= v <= hi ==> r == v
    ensures v < lo ==> r == lo
    ensures lo <= hi < v ==> r == hi
  {
    Max(lo, Min(hi, v))
  }

  /**
   * choose_image_extent: the surface's current extent, unless its width is the
   * special value UINT32_MAX; then the framebuffer size clamped into the
   * surface's allowed range, dimension by dimension.
   */
  function ChooseImageExtent(caps: SurfaceCapabilities, framebufferWidth: nat, framebufferHeight: nat)
    : (r: Extent2D)
    ensures caps.currentExtent.width != U32_MAX ==> r == caps.currentExtent
    ensures caps.currentExtent.width == U32_MAX ==>
      && caps.minImageExtent.width <= r.width
      && caps.minImageExtent.height <= r.height
      && (caps.minImageExtent.width <= caps.maxImageExtent.width ==>
            r.width <= caps.maxImageExtent.width)
      && (caps.minImageExtent.height <= caps.maxImageExtent.height ==>
            r.height <= caps.maxImageExtent.height)
      && (caps.minImageExtent.width <= framebufferWidth <= caps.maxImageExtent.width ==>
            r.width == framebufferWidth)
      && (caps.minImageExtent.height <= framebufferHeight <= caps.maxImageExtent.height ==>
            r.height == framebufferHeight)
  {
    if caps.currentExtent.width == U32_MAX then
      Extent2D(
        ClampDimension(caps.minImageExtent.width, caps.maxImageExtent.width, framebufferWidth),
        ClampDimension(caps.minImageExtent.height, caps.maxImageExtent.height, framebufferHeight))
    else
      caps.currentExtent
  }

  /**
   * choose_swapchain_length: triple buffering when allowed, else double, raised
   * to the surface minimum and then capped by the maximum, where a maximum of 0
   * means there is none.
   */
  function ChooseSwapchainLength(mayTripleBuffer: bool, caps: SurfaceCapabilities): (r: nat)
    ensures var desired := if mayTripleBuffer then 3 else 2;
      && (caps.maxImageCount > 0 ==> r <= caps.maxImageCount)
      && (caps.maxImageCount == 0 || caps.minImageCount <= caps.maxImageCount ==>
            r >= caps.minImageCount)
      && (caps.maxImageCount == 0 || desired <= caps.maxImageCount ==> r >= desired)
      && (r == desired || r == caps.minImageCount || r == caps.maxImageCount)
      && ((caps.minImageCount <= desired &&
           (caps.maxImageCount == 0 || desired <= caps.maxImageCount)) ==> r == desired)
  {
    var desired := if mayTripleBuffer then 3 else 2;
    var length := Max(desired, caps.minImageCount);
    if caps.maxImageCount > 0 && length > caps.maxImageCount then caps.maxImageCount else length
  }

  const VK_SURFACE_TRANSFORM_IDENTITY_BIT_KHR: bv32 := 0x1

  /**
   * choose_pre_transform: no transformation when the surface supports that,
   * otherwise the transformation the surface currently applies.
   */
  function ChoosePreTransform(caps: SurfaceCapabilities): (r: bv32)
    ensures caps.supportedTransforms & VK_SURFACE_TRANSFORM_IDENTITY_BIT_KHR != 0 ==>
      r == VK_SURFACE_TRANSFORM_IDENTITY_BIT_KHR
    ensures caps.supportedTransforms & VK_SURFACE_TRANSFORM_IDENTITY_BIT_KHR == 0 ==>
      r == caps.currentTransform
  {
    if caps.supportedTransforms & VK_SURFACE_TRANSFORM_IDENTITY_BIT_KHR != 0 then
      VK_SURFACE_TRANSFORM_IDENTITY_BIT_KHR
    else
      caps.currentTransform
  }

  const VK_IMAGE_USAGE_TRANSFER_SRC_BIT: bv32 := 0x1
  const VK_IMAGE_USAGE_COLOR_ATTACHMENT_BIT: bv32 := 0x10

  /**
   * The swapchain image usage: always a colour attachment, and a transfer
   * source exactly when the surface allows it; no other bit is requested.
   */
  function SwapchainImageUsage(supportedUsageFlags: bv32): (r: bv32)
    ensures r & VK_IMAGE_USAGE_COLOR_ATTACHMENT_BIT != 0
    ensures r & VK_IMAGE_USAGE_TRANSFER_SRC_BIT != 0 <==>
      supportedUsageFlags & VK_IMAGE_USAGE_TRANSFER_SRC_BIT != 0
    ensures r & !(VK_IMAGE_USAGE_COLOR_ATTACHMENT_BIT | VK_IMAGE_USAGE_TRANSFER_SRC_BIT) == 0
  {
    if supportedUsageFlags & VK_IMAGE_USAGE_TRANSFER_SRC_BIT != 0 then
      VK_IMAGE_USAGE_COLOR_ATTACHMENT_BIT | VK_IMAGE_USAGE_TRANSFER_SRC_BIT
    else
      VK_IMAGE_USAGE_COLOR_ATTACHMENT_BIT
  }

  /** The sharing mode and queue family index list of a swapchain create info. */
  datatype ImageSharing = ImageSharing(mode: SharingMode, queueFamilyIndices: seq<nat>)

  /**
   * Swapchain image sharing: exclusive with no index list when graphics and
   * present share a family, otherwise concurrent over both families.
   */
  function SwapchainSharing(graphicsFamily: nat, presentFamily: nat): (r: ImageSharing)
    ensures r.mode == Exclusive <==> graphicsFamily == presentFamily
    ensures r.mode == Exclusive ==> r.queueFamilyIndices == []
    ensures r.mode == Concurrent ==>
      r.queueFamilyIndices == [graphicsFamily, presentFamily] &&
      r.queueFamilyIndices[0] != r.queueFamilyIndices[1]
  {
    if graphicsFamily == presentFamily then ImageSharing(Exclusive, [])
    else ImageSharing(Concurrent, [graphicsFamily, presentFamily])
  }

  // ------------------------------------------------------------------
  // swapchain_create: the create info it builds, and its error paths
  // ------------------------------------------------------------------

  /** The caller's swapchain description. */
  datatype SwapchainInfo = SwapchainInfo(
    vsync: bool, prioritizeLowLatency: bool, framebufferWidth: int, framebufferHeight: int)

  /** The fields of VkSwapchainCreateInfoKHR that swapchain_create decides. */
  datatype SwapchainCreatePlan = SwapchainCreatePlan(
    minImageCount: nat, surfaceFormat: SurfaceFormat, imageExtent: Extent2D,
    imageUsage: bv32, presentMode: PresentMode, sharing: ImageSharing, preTransform: bv32)

  /**
   * The configuration part of swapchain_create. The device's extension flag,
   * the surface queries, the family index of each queue (None for a null
   * queue) and the result of vkCreateSwapchainKHR are inputs. The result is
   * None exactly on the source's early returns.
   */
  method PlanSwapchain(
    info: SwapchainInfo, swapchainEnabled: bool, caps: SurfaceCapabilities,
    formats: seq<SurfaceFormat>, presentModes: seq<PresentMode>,
    graphicsQueue: Option<nat>, presentQueue: Option<nat>, createResult: VkResult)
    returns (plan: Option<SwapchainCreatePlan>)
    ensures plan.Some? <==>
      swapchainEnabled && |formats| > 0 && |presentModes| > 0 &&
      graphicsQueue.Some? && presentQueue.Some? && createResult == VK_SUCCESS
    ensures plan.Some? ==>
      var p := plan.value;
      var mode := ChoosePresentMode(presentModes, OptionsFor(info.vsync, info.prioritizeLowLatency));
      && p.surfaceFormat == ChosenSurfaceFormat(formats)
      && p.presentMode == mode
      && p.imageExtent == ChooseImageExtent(caps, U32(info.framebufferWidth), U32(info.framebufferHeight))
      && p.minImageCount == ChooseSwapchainLength(mode == Mailbox, caps)
      && p.imageUsage == SwapchainImageUsage(caps.supportedUsageFlags)
      && p.sharing == SwapchainSharing(graphicsQueue.value, presentQueue.value)
      && p.preTransform == ChoosePreTransform(caps)
  {
    if !swapchainEnabled || |formats| == 0 || |presentModes| == 0 {
      return None;
    }
    var surfaceFormat := ChooseSurfaceFormat(formats);
    var options := OptionsFor(info.vsync, info.prioritizeLowLatency);
    var presentMode := ChoosePresentMode(presentModes, options);
    var imageExtent := ChooseImageExtent(caps, U32(info.framebufferWidth), U32(info.framebufferHeight));
    var mayTripleBuffer := presentMode == Mailbox;
    var swapchainLength := ChooseSwapchainLength(mayTripleBuffer, caps);
    var imageUsage := SwapchainImageUsage(caps.supportedUsageFlags);
    if graphicsQueue.None? || presentQueue.None? {
      return None;
    }
    var sharing := SwapchainSharing(graphicsQueue.value, presentQueue.value);
    var preTransform := ChoosePreTransform(caps);
    if createResult != VK_SUCCESS {
      return None;
    }
    plan := Some(SwapchainCreatePlan(swapchainLength, surfaceFormat, imageExtent,
      imageUsage, presentMode, sharing, preTransform));
  }

  /**
   * Triple buffering is requested only in MAILBOX mode: in any other mode the
   * length exceeds 2 only because the surface's minimum demands it. Vulkan
   * guarantees that a non-zero maximum image count is at least the minimum.
   */
  lemma TripleBufferingOnlyWithMailbox(supported: seq<PresentMode>, options: PresentModeOptions,
                                       caps: SurfaceCapabilities)
    requires caps.maxImageCount == 0 || caps.minImageCount <= caps.maxImageCount
    ensures var mode := ChoosePresentMode(supported, options);
      mode != Mailbox && ChooseSwapchainLength(mode == Mailbox, caps) > 2 ==>
        ChooseSwapchainLength(mode == Mailbox, caps) == caps.minImageCount
  {
  }

  // ------------------------------------------------------------------
  // Frames in flight
  // ------------------------------------------------------------------

  /**
   * std::clamp(length - 1, 1U, kMaxFramesInFlight) in uint32_t arithmetic: one
   * frame fewer than there are images, between 1 and 2. A length of 0 wraps to
   * UINT32_MAX and so yields 2.
   */
  function FramesInFlightFor(length: nat): (r: nat)
    requires IsU32(length)
    ensures 1 <= r <= K_MAX_FRAMES_IN_FLIGHT
    ensures 2 <= length ==> r < length
    ensures 3 <= length ==> r == K_MAX_FRAMES_IN_FLIGHT
    ensures length == 2 ==> r == 1
    ensures length == 0 ==> r == K_MAX_FRAMES_IN_FLIGHT
  {
    Clamp(U32(length - 1), 1, K_MAX_FRAMES_IN_FLIGHT)
  }

  /** vtek::SwapchainStatus. */
  datatype SwapchainStatus = Ok | Timeout | OutOfDate | Error

  /**
   * swapchain_wait_begin_frame: a zero-timeout poll of the current frame's
   * fence, then a wait with the caller's timeout. `waitResult` is read only
   * when the poll did not succeed.
   */
  function WaitBeginFrameStatus(testResult: VkResult, waitResult: VkResult): (s: SwapchainStatus)
    ensures s == Ok <==> testResult == VK_SUCCESS || waitResult == VK_SUCCESS
    ensures s == Timeout <==> testResult != VK_SUCCESS && waitResult == VK_TIMEOUT
    ensures s != OutOfDate
  {
    if testResult == VK_SUCCESS then Ok
    else if waitResult == VK_SUCCESS then Ok
    else if waitResult == VK_TIMEOUT then Timeout
    else Error
  }

  /**
   * swapchain_acquire_next_image: a suboptimal swapchain still yields an image;
   * only an out-of-date one asks for re-creation.
   */
  function AcquireStatus(result: VkResult): (s: SwapchainStatus)
    ensures s == Ok <==> result == VK_SUCCESS || result == VK_SUBOPTIMAL_KHR
    ensures s == OutOfDate <==> result == VK_ERROR_OUT_OF_DATE_KHR
    ensures s != Timeout
  {
    if result == VK_SUCCESS || result == VK_SUBOPTIMAL_KHR then Ok
    else if result == VK_ERROR_OUT_OF_DATE_KHR then OutOfDate
    else Error
  }

  /**
   * swapchain_present_frame: after presentation both an out-of-date and a
   * suboptimal swapchain ask for re-creation.
   */
  function PresentStatus(result: VkResult): (s: SwapchainStatus)
    ensures s == Ok <==> result == VK_SUCCESS
    ensures s == OutOfDate <==> result == VK_ERROR_OUT_OF_DATE_KHR || result == VK_SUBOPTIMAL_KHR
    ensures s != Timeout
  {
    if result == VK_SUCCESS then Ok
    else if result == VK_ERROR_OUT_OF_DATE_KHR || result == VK_SUBOPTIMAL_KHR then OutOfDate
    else Error
  }

  /**
   * swapchain_wait_image_ready: no wait when no frame holds the image, else a
   * zero-timeout poll and then a wait on that frame's fence.
   */
  function WaitImageReadyStatus(imageFence: Handle, testResult: VkResult, waitResult: VkResult)
    : (s: SwapchainStatus)
    ensures s == Ok <==>
      imageFence == Submission.NULL_HANDLE || testResult == VK_SUCCESS || waitResult == VK_SUCCESS
    ensures s == Timeout <==>
      imageFence != Submission.NULL_HANDLE && testResult != VK_SUCCESS && waitResult == VK_TIMEOUT
    ensures s != OutOfDate
  {
    if imageFence == Submission.NULL_HANDLE then Ok
    else WaitBeginFrameStatus(testResult, waitResult)
  }

  const VK_PIPELINE_STAGE_COLOR_ATTACHMENT_OUTPUT_BIT: nat := 0x400

  /**
   * The frame-synchronisation state of vtek::Swapchain: the number of images,
   * the frames in flight with their semaphores and fences, the current frame,
   * and for each image the fence of the frame that last used it.
   */
  class Swapchain {
    var length: nat
    var numFramesInFlight: nat
    var currentFrameIndex: nat
    var imagesInFlight: seq<Handle>
    var imageAvailableSemaphores: array<Handle>
    var renderFinishedSemaphores: array<Handle>
    var inFlightFences: array<Handle>

    /** The three per-frame arrays have kMaxFramesInFlight slots; length is a uint32_t. */
    ghost predicate Valid()
      reads this
    {
      imageAvailableSemaphores.Length == K_MAX_FRAMES_IN_FLIGHT &&
      renderFinishedSemaphores.Length == K_MAX_FRAMES_IN_FLIGHT &&
      inFlightFences.Length == K_MAX_FRAMES_IN_FLIGHT &&
      imageAvailableSemaphores != renderFinishedSemaphores &&
      imageAvailableSemaphores != inFlightFences &&
      renderFinishedSemaphores != inFlightFences &&
      IsU32(length)
    }

    /**
     * Ready to render: the current frame indexes the frames in flight, which
     * number between 1 and 2, and every image has an in-flight slot.
     */
    ghost predicate Ready()
      reads this
    {
      Valid() &&
      1 <= numFramesInFlight <= K_MAX_FRAMES_IN_FLIGHT &&
      currentFrameIndex < numFramesInFlight &&
      |imagesInFlight| == length
    }

    /** A swapchain with `length` images and no frame-sync objects yet. */
    constructor (length: nat)
      requires IsU32(length)
      ensures Valid()
      ensures this.length == length && numFramesInFlight == 0 && currentFrameIndex == 0
      ensures imagesInFlight == []
      ensures fresh(imageAvailableSemaphores) && fresh(renderFinishedSemaphores) &&
        fresh(inFlightFences)
    {
      this.length := length;
      numFramesInFlight := 0;
      currentFrameIndex := 0;
      imagesInFlight := [];
      imageAvailableSemaphores := new Handle[K_MAX_FRAMES_IN_FLIGHT](_ => Submission.NULL_HANDLE);
      renderFinishedSemaphores := new Handle[K_MAX_FRAMES_IN_FLIGHT](_ => Submission.NULL_HANDLE);
      inFlightFences := new Handle[K_MAX_FRAMES_IN_FLIGHT](_ => Submission.NULL_HANDLE);
    }

    /**
     * create_frame_sync_objects: sizes the ring and the per-image slots and
     * stores the created semaphores and fences (given here as the handles the
     * Vulkan calls return). It always reports success.
     */
    method CreateFrameSyncObjects(available: seq<Handle>, finished: seq<Handle>, fences: seq<Handle>)
      returns (ok: bool)
      requires Valid()
      requires |available| == |finished| == |fences| == K_MAX_FRAMES_IN_FLIGHT
      modifies this`numFramesInFlight, this`imagesInFlight, this`currentFrameIndex
      modifies imageAvailableSemaphores, renderFinishedSemaphores, inFlightFences
      ensures ok && Ready()
      ensures numFramesInFlight == FramesInFlightFor(length) && currentFrameIndex == 0
      ensures imagesInFlight == Resize(old(imagesInFlight), length, Submission.NULL_HANDLE)
      ensures imageAvailableSemaphores[..] == available
      ensures renderFinishedSemaphores[..] == finished
      ensures inFlightFences[..] == fences
    {
      for i := 0 to K_MAX_FRAMES_IN_FLIGHT
        invariant imagesInFlight == old(imagesInFlight)
        invariant forall j :: 0 <= j < i ==>
          imageAvailableSemaphores[j] == available[j] &&
          renderFinishedSemaphores[j] == finished[j] &&
          inFlightFences[j] == fences[j]
      {
        imageAvailableSemaphores[i] := available[i];
        renderFinishedSemaphores[i] := finished[i];
        inFlightFences[i] := fences[i];
      }
      numFramesInFlight := FramesInFlightFor(length);
      imagesInFlight := Resize(imagesInFlight, length, Submission.NULL_HANDLE);
      currentFrameIndex := 0;
      ok := true;
    }

    /**
     * destroy_frame_sync_objects: forgets every image's fence and empties the
     * ring. The semaphores and fences are destroyed through Vulkan.
     */
    method DestroyFrameSyncObjects()
      requires Valid()
      modifies this`numFramesInFlight, this`imagesInFlight, this`currentFrameIndex
      ensures Valid()
      ensures imagesInFlight == [] && numFramesInFlight == 0 && currentFrameIndex == 0
    {
      imagesInFlight := [];
      numFramesInFlight := 0;
      currentFrameIndex := 0;
    }

    /**
     * reset_frame_sync_objects after a re-creation, as written: the per-image
     * slots are resized to the number of frames in flight. With three or more
     * images that leaves fewer slots than images, so the slot of a valid image
     * index is out of range.
     */
    method ResetFrameSyncObjectsAsWritten()
      requires Valid()
      modifies this`numFramesInFlight, this`imagesInFlight, this`currentFrameIndex
      ensures Valid()
      ensures numFramesInFlight == FramesInFlightFor(length) && currentFrameIndex == 0
      ensures imagesInFlight ==
        Resize(old(imagesInFlight), FramesInFlightFor(length), Submission.NULL_HANDLE)
      ensures length >= 3 ==> |imagesInFlight| < length && !Ready()
    {
      var numFrames := FramesInFlightFor(length);
      numFramesInFlight := numFrames;
      imagesInFlight := Resize(imagesInFlight, numFrames, Submission.NULL_HANDLE);
      currentFrameIndex := 0;
    }

    /**
     * reset_frame_sync_objects with the per-image slots sized by the number of
     * images, as create_frame_sync_objects sizes them; the ring restarts at
     * frame 0 and the swapchain is ready again.
     */
    method ResetFrameSyncObjects()
      requires Valid()
      modifies this`numFramesInFlight, this`imagesInFlight, this`currentFrameIndex
      ensures Ready()
      ensures numFramesInFlight == FramesInFlightFor(length) && currentFrameIndex == 0
      ensures imagesInFlight == Resize(old(imagesInFlight), length, Submission.NULL_HANDLE)
    {
      var numFrames := FramesInFlightFor(length);
      numFramesInFlight := numFrames;
      imagesInFlight := Resize(imagesInFlight, length, Submission.NULL_HANDLE);
      currentFrameIndex := 0;
    }

    /** set_image_in_use: the image now belongs to the current frame's fence. */
    method SetImageInUse(frameIndex: nat)
      requires Ready() && frameIndex < |imagesInFlight|
      modifies this`imagesInFlight
      ensures Ready()
      ensures imagesInFlight == old(imagesInFlight)[frameIndex := inFlightFences[currentFrameIndex]]
    {
      imagesInFlight := imagesInFlight[frameIndex := inFlightFences[currentFrameIndex]];
    }

    /**
     * swapchain_wait_image_ready: once the image is free (no fence, or its
     * fence signalled) it is marked as used by the current frame; on a timeout
     * or an error nothing changes.
     */
    method WaitImageReady(frameIndex: nat, testResult: VkResult, waitResult: VkResult)
      returns (status: SwapchainStatus)
      requires Ready() && frameIndex < |imagesInFlight|
      modifies this`imagesInFlight
      ensures Ready()
      ensures status == WaitImageReadyStatus(old(imagesInFlight[frameIndex]), testResult, waitResult)
      ensures status == Ok ==>
        imagesInFlight == old(imagesInFlight)[frameIndex := inFlightFences[currentFrameIndex]]
      ensures status != Ok ==> imagesInFlight == old(imagesInFlight)
    {
      var fence := imagesInFlight[frameIndex];
      if fence == Submission.NULL_HANDLE {
        SetImageInUse(frameIndex);
        return Ok;
      }
      if testResult == VK_SUCCESS {
        SetImageInUse(frameIndex);
        return Ok;
      }
      if waitResult == VK_SUCCESS {
        SetImageInUse(frameIndex);
        status := Ok;
      } else if waitResult == VK_TIMEOUT {
        status := Timeout;
      } else {
        status := Error;
      }
    }

    /**
     * swapchain_fill_queue_submit_info: the submission signals the current
     * frame's render-finished semaphore, waits on its image-available semaphore
     * at the colour-attachment-output stage, and signals its in-flight fence.
     * A list already holding kMaxSemaphores entries is left as it was.
     */
    method FillQueueSubmitInfo(submitInfo: Submission.SubmitInfo)
      requires Ready() && submitInfo.Valid()
      modifies submitInfo, submitInfo.signalSemaphores, submitInfo.waitSemaphores,
        submitInfo.waitPipelineStages
      ensures submitInfo.Valid()
      ensures old(submitInfo.numSignal) < Submission.K_MAX_SEMAPHORES ==>
        submitInfo.Signals() ==
          old(submitInfo.Signals()) + [renderFinishedSemaphores[currentFrameIndex]]
      ensures old(submitInfo.numWait) < Submission.K_MAX_SEMAPHORES ==>
        submitInfo.Waits() ==
          old(submitInfo.Waits()) + [imageAvailableSemaphores[currentFrameIndex]] &&
        submitInfo.Stages() ==
          old(submitInfo.Stages()) + [VK_PIPELINE_STAGE_COLOR_ATTACHMENT_OUTPUT_BIT]
      ensures old(submitInfo.numSignal) >= Submission.K_MAX_SEMAPHORES ==>
        submitInfo.Signals() == old(submitInfo.Signals())
      ensures old(submitInfo.numWait) >= Submission.K_MAX_SEMAPHORES ==>
        submitInfo.Waits() == old(submitInfo.Waits()) && submitInfo.Stages() == old(submitInfo.Stages())
      ensures submitInfo.postSignalFence == inFlightFences[currentFrameIndex]
    {
      var current := currentFrameIndex;
      submitInfo.AddSignalSemaphore(renderFinishedSemaphores[current]);
      submitInfo.AddWaitSemaphore(imageAvailableSemaphores[current],
        VK_PIPELINE_STAGE_COLOR_ATTACHMENT_OUTPUT_BIT);
      submitInfo.SetPostSignalFence(inFlightFences[current]);
    }

    /**
     * swapchain_present_frame: the ring advances to the next frame only when
     * presentation succeeded; the index stays a valid frame either way.
     */
    method PresentFrame(result: VkResult) returns (status: SwapchainStatus)
      requires Ready()
      modifies this`currentFrameIndex
      ensures Ready()
      ensures status == PresentStatus(result)
      ensures status == Ok ==>
        currentFrameIndex == FrameSync.NextFrame(old(currentFrameIndex), numFramesInFlight)
      ensures status != Ok ==> currentFrameIndex == old(currentFrameIndex)
    {
      if result == VK_SUCCESS {
        currentFrameIndex := U32(currentFrameIndex + 1) % numFramesInFlight;
        return Ok;
      } else if result == VK_ERROR_OUT_OF_DATE_KHR || result == VK_SUBOPTIMAL_KHR {
        return OutOfDate;
      } else {
        return Error;
      }
    }

    /** swapchain_get_length: the number of images, whatever state the frame-sync fields are in; one slot per image once the swapchain is ready. */
    function GetLength(): (r: nat)
      reads this
      ensures r == length
      ensures Ready() ==> r == |imagesInFlight|
    {
      length
    }
  }
}
