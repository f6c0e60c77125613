// vtek::PhysicalDevice selection (src/vtek_physical_device.cpp): the scan of a
// device's queue families, the feature and extension requirements, the
// suitability verdict that combines them, and the weighted order in which
// physical_device_pick tries the devices. Everything the Vulkan queries report
// is an input.
module PhysicalDevices {
  import opened Wrappers
  import Queues

  // ------------------------------------------------------------------
  // Queue family scan
  // ------------------------------------------------------------------

  /** The fields of VkQueueFamilyProperties the scan reads. */
  datatype QueueFamily = QueueFamily(queueFlags: bv32, queueCount: nat, timestampValidBits: nat)

  predicate HasGraphics(f: QueueFamily) { f.queueFlags & Queues.VK_QUEUE_GRAPHICS_BIT != 0 }
  predicate HasCompute(f: QueueFamily) { f.queueFlags & Queues.VK_QUEUE_COMPUTE_BIT != 0 }
  predicate HasTransfer(f: QueueFamily) { f.queueFlags & Queues.VK_QUEUE_TRANSFER_BIT != 0 }
  predicate HasSparseBinding(f: QueueFamily) { f.queueFlags & Queues.VK_QUEUE_SPARSE_BINDING_BIT != 0 }

  /** The three kinds of family the scan looks for. */
  datatype FamilyRole = GraphicsRole | SeparateTransferRole | SeparateComputeRole

  /**
   * A graphics family has GRAPHICS; a separate transfer family has TRANSFER
   * and neither GRAPHICS nor COMPUTE; a separate compute family has COMPUTE
   * but not GRAPHICS.
   */
  predicate HasRole(f: QueueFamily, role: FamilyRole)
  {
    match role
    case GraphicsRole => HasGraphics(f)
    case SeparateTransferRole => HasTransfer(f) && !HasGraphics(f) && !HasCompute(f)
    case SeparateComputeRole => HasCompute(f) && !HasGraphics(f)
  }

  /** The lowest index of a family with the role. */
  function FirstWithRole(families: seq<QueueFamily>, role: FamilyRole): (r: Option<nat>)
    ensures r.Some? ==> r.value < |families| && HasRole(families[r.value], role)
  {
    if families == [] then None
    else if HasRole(families[0], role) then Some(0)
    else
      var rest := FirstWithRole(families[1..], role);
      if rest.Some? then Some(rest.value + 1) else None
  }

  /** FirstWithRole finds the first family with the role, and None means there is none. */
  lemma {:induction false} FirstWithRoleIsFirst(families: seq<QueueFamily>, role: FamilyRole)
    ensures FirstWithRole(families, role).None? <==>
      forall i :: 0 <= i < |families| ==> !HasRole(families[i], role)
    ensures FirstWithRole(families, role).Some? ==>
      forall j :: 0 <= j < FirstWithRole(families, role).value ==> !HasRole(families[j], role)
  {
    if families != [] && !HasRole(families[0], role) {
      FirstWithRoleIsFirst(families[1..], role);
      forall i | 1 <= i < |families|
        ensures families[i] == families[1..][i - 1]
      {
      }
    }
  }

  /** Scanning one more family changes the result only when none was found yet. */
  lemma {:induction false} FirstWithRoleAppend(families: seq<QueueFamily>, f: QueueFamily, role: FamilyRole)
    ensures FirstWithRole(families + [f], role) ==
      if FirstWithRole(families, role).Some? then FirstWithRole(families, role)
      else if HasRole(f, role) then Some(|families|)
      else None
  {
    if families != [] {
      assert (families + [f])[1..] == families[1..] + [f];
      FirstWithRoleAppend(families[1..], f, role);
    }
  }

  /** vtek::PhysicalDeviceQueueSupport. */
  datatype QueueSupport = QueueSupport(
    graphics: bool, present: bool, compute: bool,
    graphicsRequired: bool, presentRequired: bool, computeRequired: bool,
    graphicsIndex: nat, graphicsMaxCount: nat, graphicsHasPresent: bool,
    graphicsHasCompute: bool, graphicsHasSparseBinding: bool, graphicsTimestampQuery: bool,
    hasSeparateTransferFamily: bool, separateTransferIndex: nat, separateTransferMaxCount: nat,
    separateTransferTimestampQuery: bool, separateTransferHasSparseBinding: bool,
    hasSeparateComputeFamily: bool, separateComputeIndex: nat, separateComputeMaxCount: nat,
    separateComputeTimestampQuery: bool, separateComputeHasSparseBinding: bool,
    separateComputeHasPresent: bool)

  /** The member initialisers: nothing supported, indices and counts 0. */
  function DefaultQueueSupport(): QueueSupport
  {
    QueueSupport(false, false, false, false, false, false,
      0, 0, false, false, false, false,
      false, 0, 0, false, false,
      false, 0, 0, false, false, false)
  }

  /**
   * The queue support the scan reports, given which family (if any) was
   * chosen for each role. `presentSupport[i]` is what the surface reports for
   * family i; for the graphics family it is asked only when there is a
   * surface. The separate compute family's maximum count is never filled in.
   */
  function SupportFromChoices(
    families: seq<QueueFamily>, hasSurface: bool, presentSupport: seq<bool>,
    g: Option<nat>, t: Option<nat>, c: Option<nat>): QueueSupport
    requires |presentSupport| == |families|
    requires g.Some? ==> g.value < |families|
    requires t.Some? ==> t.value < |families|
    requires c.Some? ==> c.value < |families|
  {
    var gPresent := g.Some? && hasSurface && presentSupport[g.value];
    var gCompute := g.Some? && HasCompute(families[g.value]);
    QueueSupport(
      graphics := g.Some?,
      present := gPresent,
      compute := gCompute || c.Some?,
      graphicsRequired := false, presentRequired := false, computeRequired := false,
      graphicsIndex := if g.Some? then g.value else 0,
      graphicsMaxCount := if g.Some? then families[g.value].queueCount else 0,
      graphicsHasPresent := gPresent,
      graphicsHasCompute := gCompute,
      graphicsHasSparseBinding := g.Some? && HasSparseBinding(families[g.value]),
      graphicsTimestampQuery := g.Some? && families[g.value].timestampValidBits > 0,
      hasSeparateTransferFamily := t.Some?,
      separateTransferIndex := if t.Some? then t.value else 0,
      separateTransferMaxCount := if t.Some? then families[t.value].queueCount else 0,
      separateTransferTimestampQuery := t.Some? && families[t.value].timestampValidBits > 0,
      separateTransferHasSparseBinding := t.Some? && HasSparseBinding(families[t.value]),
      hasSeparateComputeFamily := c.Some?,
      separateComputeIndex := if c.Some? then c.value else 0,
      separateComputeMaxCount := 0,
      separateComputeTimestampQuery := c.Some? && families[c.value].timestampValidBits > 0,
      separateComputeHasSparseBinding := c.Some? && HasSparseBinding(families[c.value]),
      separateComputeHasPresent := c.Some? && presentSupport[c.value])
  }

  /** The queue support of a device: each role taken by its first family. */
  function QueueSupportFor(families: seq<QueueFamily>, hasSurface: bool, presentSupport: seq<bool>)
    : QueueSupport
    requires |presentSupport| == |families|
  {
    SupportFromChoices(families, hasSurface, presentSupport,
      FirstWithRole(families, GraphicsRole), FirstWithRole(families, SeparateTransferRole),
      FirstWithRole(families, SeparateComputeRole))
  }

  /** The graphics step of the scan: the first GRAPHICS family fills in the graphics fields. */
  method ScanGraphicsFamily(families: seq<QueueFamily>, hasSurface: bool, presentSupport: seq<bool>,
                            i: nat, found: bool, qs: QueueSupport,
                            ghost g: Option<nat>, ghost t: Option<nat>, ghost c: Option<nat>)
    returns (qs': QueueSupport)
    requires |presentSupport| == |families| && i < |families|
    requires found == g.Some? && (g.Some? ==> g.value < i)
    requires t.Some? ==> t.value < |families|
    requires c.Some? ==> c.value < |families|
    requires qs == SupportFromChoices(families, hasSurface, presentSupport, g, t, c)
    ensures !found && HasGraphics(families[i]) ==>
      qs' == SupportFromChoices(families, hasSurface, presentSupport, Some(i), t, c)
    ensures found || !HasGraphics(families[i]) ==> qs' == qs
  {
    qs' := qs;
    var f := families[i];
    if !found && HasGraphics(f) {
      // Each flag the source sets under an `if` is still false here, so
      // storing the tested condition is the same update.
      var present := hasSurface && presentSupport[i];
      qs' := qs'.(graphics := true, graphicsIndex := i, graphicsMaxCount := f.queueCount,
                  graphicsTimestampQuery := f.timestampValidBits > 0,
                  graphicsHasSparseBinding := HasSparseBinding(f),
                  present := present, graphicsHasPresent := present,
                  compute := qs.compute || HasCompute(f), graphicsHasCompute := HasCompute(f));
    }
  }

  /**
   * The transfer step of the scan: the first family with TRANSFER but neither
   * GRAPHICS nor COMPUTE fills in the separate transfer fields.
   */
  method ScanTransferFamily(families: seq<QueueFamily>, hasSurface: bool, presentSupport: seq<bool>,
                            i: nat, found: bool, qs: QueueSupport,
                            ghost g: Option<nat>, ghost t: Option<nat>, ghost c: Option<nat>)
    returns (qs': QueueSupport)
    requires |presentSupport| == |families| && i < |families|
    requires found == t.Some? && (t.Some? ==> t.value < i)
    requires g.Some? ==> g.value < |families|
    requires c.Some? ==> c.value < |families|
    requires qs == SupportFromChoices(families, hasSurface, presentSupport, g, t, c)
    ensures !found && HasRole(families[i], SeparateTransferRole) ==>
      qs' == SupportFromChoices(families, hasSurface, presentSupport, g, Some(i), c)
    ensures found || !HasRole(families[i], SeparateTransferRole) ==> qs' == qs
  {
    qs' := qs;
    var f := families[i];
    if !found && HasTransfer(f) && !HasGraphics(f) && !HasCompute(f) {
      qs' := qs'.(hasSeparateTransferFamily := true, separateTransferIndex := i,
                  separateTransferMaxCount := f.queueCount,
                  separateTransferTimestampQuery := f.timestampValidBits > 0,
                  separateTransferHasSparseBinding := HasSparseBinding(f));
    }
  }

  /**
   * The compute step of the scan: the first family with COMPUTE but not
   * GRAPHICS fills in the separate compute fields, all but its queue count.
   */
  method ScanComputeFamily(families: seq<QueueFamily>, hasSurface: bool, presentSupport: seq<bool>,
                           i: nat, found: bool, qs: QueueSupport,
                           ghost g: Option<nat>, ghost t: Option<nat>, ghost c: Option<nat>)
    returns (qs': QueueSupport)
    requires |presentSupport| == |families| && i < |families|
    requires found == c.Some? && (c.Some? ==> c.value < i)
    requires g.Some? ==> g.value < |families|
    requires t.Some? ==> t.value < |families|
    requires qs == SupportFromChoices(families, hasSurface, presentSupport, g, t, c)
    ensures !found && HasRole(families[i], SeparateComputeRole) ==>
      qs' == SupportFromChoices(families, hasSurface, presentSupport, g, t, Some(i))
    ensures found || !HasRole(families[i], SeparateComputeRole) ==> qs' == qs
  {
    qs' := qs;
    var f := families[i];
    if !found && HasCompute(f) && !HasGraphics(f) {
      qs' := qs'.(compute := true, hasSeparateComputeFamily := true, separateComputeIndex := i,
                  separateComputeTimestampQuery := f.timestampValidBits > 0,
                  separateComputeHasSparseBinding := HasSparseBinding(f),
                  separateComputeHasPresent := presentSupport[i]);
    }
  }

  /**
   * get_queue_family_support: one pass over the families that keeps, for each
   * role, the first family that has it.
   */
  method GetQueueFamilySupport(families: seq<QueueFamily>, hasSurface: bool, presentSupport: seq<bool>)
    returns (qs: QueueSupport)
    requires |presentSupport| == |families|
    ensures qs == QueueSupportFor(families, hasSurface, presentSupport)
  {
    qs := DefaultQueueSupport();
    var graphicsFound := false;
    var transferFound := false;
    var computeFound := false;
    ghost var g: Option<nat> := None;
    ghost var t: Option<nat> := None;
    ghost var c: Option<nat> := None;
    var i := 0;
    while i < |families|
      invariant 0 <= i <= |families|
      invariant g == FirstWithRole(families[..i], GraphicsRole) && graphicsFound == g.Some?
      invariant t == FirstWithRole(families[..i], SeparateTransferRole) && transferFound == t.Some?
      invariant c == FirstWithRole(families[..i], SeparateComputeRole) && computeFound == c.Some?
      invariant qs == SupportFromChoices(families, hasSurface, presentSupport, g, t, c)
    {
      var f := families[i];
      assert families[..i + 1] == families[..i] + [f];
      FirstWithRoleAppend(families[..i], f, GraphicsRole);
      FirstWithRoleAppend(families[..i], f, SeparateTransferRole);
      FirstWithRoleAppend(families[..i], f, SeparateComputeRole);
      qs := ScanGraphicsFamily(families, hasSurface, presentSupport, i, graphicsFound, qs, g, t, c);
      if !graphicsFound && HasGraphics(f) {
        graphicsFound := true;
        g := Some(i);
      }
      qs := ScanTransferFamily(families, hasSurface, presentSupport, i, transferFound, qs, g, t, c);
      if !transferFound && HasRole(f, SeparateTransferRole) {
        transferFound := true;
        t := Some(i);
      }
      qs := ScanComputeFamily(families, hasSurface, presentSupport, i, computeFound, qs, g, t, c);
      if !computeFound && HasRole(f, SeparateComputeRole) {
        computeFound := true;
        c := Some(i);
      }
      i := i + 1;
    }
    assert families[..i] == families;
  }

  /**
   * What the scan promises: compute is available exactly when the graphics
   * family has it or a separate compute family exists, and the graphics
   * family is the first GRAPHICS family with its own queue count.
   */
  lemma QueueSupportMeaning(families: seq<QueueFamily>, hasSurface: bool, presentSupport: seq<bool>)
    requires |presentSupport| == |families|
    ensures var qs := QueueSupportFor(families, hasSurface, presentSupport);
      && (qs.graphics <==> exists i :: 0 <= i < |families| && HasGraphics(families[i]))
      && (qs.graphics ==>
            qs.graphicsIndex < |families| && HasGraphics(families[qs.graphicsIndex]) &&
            qs.graphicsMaxCount == families[qs.graphicsIndex].queueCount &&
            forall j :: 0 <= j < qs.graphicsIndex ==> !HasGraphics(families[j]))
      && (qs.compute <==>
            (qs.graphics && HasCompute(families[qs.graphicsIndex])) ||
            (exists i :: 0 <= i < |families| && HasCompute(families[i]) && !HasGraphics(families[i])))
      && (qs.hasSeparateTransferFamily ==>
            qs.separateTransferIndex < |families| &&
            HasRole(families[qs.separateTransferIndex], SeparateTransferRole))
      && (qs.present ==> hasSurface && qs.graphics)
  {
    FirstWithRoleIsFirst(families, GraphicsRole);
    FirstWithRoleIsFirst(families, SeparateComputeRole);
    var c := FirstWithRole(families, SeparateComputeRole);
    if c.None? {
      forall i | 0 <= i < |families| && HasCompute(families[i])
        ensures HasGraphics(families[i])
      {
        assert !HasRole(families[i], SeparateComputeRole);
      }
    }
  }

  // ------------------------------------------------------------------
  // Features
  // ------------------------------------------------------------------

  /** The number of VkBool32 members of VkPhysicalDeviceFeatures. */
  const FEATURE_COUNT: nat := 55

  /** VkPhysicalDeviceFeatures as its members in declaration order. */
  type Features = s: seq<bool> | |s| == FEATURE_COUNT witness seq(FEATURE_COUNT, _ => false)

  const SHADER_RESOURCE_RESIDENCY: nat := 42
  const SPARSE_BINDING: nat := 44
  const SPARSE_RESIDENCY_BUFFER: nat := 45
  const SPARSE_RESIDENCY_IMAGE_2D: nat := 46
  const SPARSE_RESIDENCY_IMAGE_3D: nat := 47

  /** Every required feature is supported. */
  predicate FeaturesCovered(required: Features, supported: Features)
  {
    forall i :: 0 <= i < FEATURE_COUNT ==> required[i] ==> supported[i]
  }

  /**
   * has_required_features: every feature is checked in turn (each failure is
   * reported, none stops the checks) and the answer is false as soon as one
   * required feature is unsupported.
   */
  method HasRequiredFeatures(required: Features, supported: Features) returns (support: bool)
    ensures support <==> FeaturesCovered(required, supported)
  {
    support := true;
    for i := 0 to FEATURE_COUNT
      invariant support <==> forall j :: 0 <= j < i ==> required[j] ==> supported[j]
    {
      if required[i] && !supported[i] {
        support := false;
      }
    }
  }

  // ------------------------------------------------------------------
  // Extensions
  // ------------------------------------------------------------------

  const VK_KHR_SWAPCHAIN: string := "VK_KHR_swapchain"
  const VK_KHR_RAY_TRACING_PIPELINE: string := "VK_KHR_ray_tracing_pipeline"
  const VK_KHR_SPIRV_1_4: string := "VK_KHR_spirv_1_4"
  const VK_KHR_ACCELERATION_STRUCTURE: string := "VK_KHR_acceleration_structure"
  const VK_KHR_RAY_QUERY: string := "VK_KHR_ray_query"

  /** The ray-tracing extensions, in the order they are checked. */
  const RAY_TRACING_EXTENSIONS: seq<string> :=
    [VK_KHR_RAY_TRACING_PIPELINE, VK_KHR_SPIRV_1_4, VK_KHR_ACCELERATION_STRUCTURE, VK_KHR_RAY_QUERY]

  /** vtek::PhysicalDeviceInfo, the caller's requirements. */
  datatype PhysicalDeviceInfo = PhysicalDeviceInfo(
    requireGraphicsQueue: bool, requirePresentQueue: bool, requireComputeQueue: bool,
    requiredFeatures: Features, requireRaytracingSupport: bool, requireSwapchainSupport: bool)

  /** vtek::PhysicalDeviceExtensionSupport. */
  datatype ExtensionSupport = ExtensionSupport(dynamicRendering: bool, raytracing: bool, swapchain: bool)

  /** The swapchain extension is looked for only when presentation and a swapchain are both required. */
  predicate ChecksSwapchain(info: PhysicalDeviceInfo)
  {
    info.requirePresentQueue && info.requireSwapchainSupport
  }

  /** How many of `exts`, from the front, are available before the first missing one. */
  function LeadingAvailable(exts: seq<string>, available: seq<string>): (k: nat)
    ensures k <= |exts|
    ensures forall j :: 0 <= j < k ==> exts[j] in available
    ensures k < |exts| ==> exts[k] !in available
  {
    if exts == [] || exts[0] !in available then 0
    else 1 + LeadingAvailable(exts[1..], available)
  }

  /** The device has every extension the requirements name. */
  predicate ExtensionsCovered(info: PhysicalDeviceInfo, available: seq<string>)
  {
    (ChecksSwapchain(info) ==> VK_KHR_SWAPCHAIN in available) &&
    (info.requireRaytracingSupport ==> forall e :: e in RAY_TRACING_EXTENSIONS ==> e in available)
  }

  /**
   * The extensions has_required_extension_support records as required: the
   * swapchain extension when it is checked and found, then the ray-tracing
   * extensions found before the first missing one, when ray tracing is
   * required and the swapchain check did not fail.
   */
  function RequiredExtensions(info: PhysicalDeviceInfo, available: seq<string>): seq<string>
  {
    var swapOk := !ChecksSwapchain(info) || VK_KHR_SWAPCHAIN in available;
    (if ChecksSwapchain(info) && swapOk then [VK_KHR_SWAPCHAIN] else []) +
    (if info.requireRaytracingSupport && swapOk
     then RAY_TRACING_EXTENSIONS[..LeadingAvailable(RAY_TRACING_EXTENSIONS, available)]
     else [])
  }

  /**
   * has_required_extension_support: the swapchain extension first (when it is
   * asked for), then the four ray-tracing extensions in order. The check
   * stops at the first missing extension; the required list then holds
   * exactly the extensions verified before it. The swapchain flag records the
   * outcome of its check, the ray-tracing flag is set only when all four are
   * present, and a flag that is not checked keeps its previous value.
   */
  method HasRequiredExtensionSupport(info: PhysicalDeviceInfo, available: seq<string>,
                                     support: ExtensionSupport)
    returns (ok: bool, required: seq<string>, newSupport: ExtensionSupport)
    ensures ok <==> ExtensionsCovered(info, available)
    ensures required == RequiredExtensions(info, available)
    ensures newSupport.swapchain ==
      if ChecksSwapchain(info) then VK_KHR_SWAPCHAIN in available else support.swapchain
    ensures newSupport.raytracing <==> support.raytracing || (ok && info.requireRaytracingSupport)
    ensures newSupport.dynamicRendering == support.dynamicRendering
  {
    required := [];
    newSupport := support;
    if ChecksSwapchain(info) {
      var swapchain := VK_KHR_SWAPCHAIN in available;
      newSupport := newSupport.(swapchain := swapchain);
      if !swapchain {
        return false, required, newSupport;
      }
      required := required + [VK_KHR_SWAPCHAIN];
    }
    if info.requireRaytracingSupport {
      var base := required;
      for i := 0 to |RAY_TRACING_EXTENSIONS|
        invariant required == base + RAY_TRACING_EXTENSIONS[..i]
        invariant forall j :: 0 <= j < i ==> RAY_TRACING_EXTENSIONS[j] in available
      {
        if RAY_TRACING_EXTENSIONS[i] !in available {
          assert LeadingAvailable(RAY_TRACING_EXTENSIONS, available) == i;
          return false, required, newSupport;
        }
        required := required + [RAY_TRACING_EXTENSIONS[i]];
        assert RAY_TRACING_EXTENSIONS[..i + 1] == RAY_TRACING_EXTENSIONS[..i] + [RAY_TRACING_EXTENSIONS[i]];
      }
      assert LeadingAvailable(RAY_TRACING_EXTENSIONS, available) == |RAY_TRACING_EXTENSIONS|;
      newSupport := newSupport.(raytracing := true);
    }
    ok := true;
  }

  // ------------------------------------------------------------------
  // Suitability
  // ------------------------------------------------------------------

  /** A sparse feature is required. */
  predicate SparseBindingRequired(features: Features)
  {
    features[SPARSE_BINDING] || features[SPARSE_RESIDENCY_IMAGE_2D] ||
    features[SPARSE_RESIDENCY_IMAGE_3D] || features[SPARSE_RESIDENCY_BUFFER] ||
    features[SHADER_RESOURCE_RESIDENCY]
  }

  /** One of the chosen families can bind sparse resources. */
  predicate SparseBindingQueueSupport(qs: QueueSupport)
  {
    qs.graphicsHasSparseBinding || qs.separateTransferHasSparseBinding ||
    qs.separateComputeHasSparseBinding
  }

  /** The queue half of the verdict. */
  predicate QueueFamiliesSuffice(info: PhysicalDeviceInfo, qs: QueueSupport)
  {
    (info.requireGraphicsQueue ==> qs.graphics) &&
    (info.requirePresentQueue ==> qs.present) &&
    (info.requireComputeQueue ==> qs.compute) &&
    (SparseBindingRequired(info.requiredFeatures) ==> SparseBindingQueueSupport(qs))
  }

  /** What the device reports about itself, as the queries return it. */
  datatype DeviceReport = DeviceReport(
    deviceType: PhysicalDeviceType, families: seq<QueueFamily>, presentSupport: seq<bool>,
    extensions: seq<string>, features: Features)

  /** The reports the model can describe: one present answer per family. */
  predicate WellFormedReport(d: DeviceReport)
  {
    |d.presentSupport| == |d.families|
  }

  /** A device is suitable when its queues, extensions and features all meet the requirements. */
  predicate IsSuitable(info: PhysicalDeviceInfo, d: DeviceReport, hasSurface: bool)
    requires WellFormedReport(d)
  {
    QueueFamiliesSuffice(info, QueueSupportFor(d.families, hasSurface, d.presentSupport)) &&
    ExtensionsCovered(info, d.extensions) &&
    FeaturesCovered(info.requiredFeatures, d.features)
  }

  /**
   * The queue half of check_device_suitability: each required queue must be
   * available, sparse features need a family that can bind sparse resources,
   * and the support records which queues were required.
   */
  method CheckQueueFamilies(info: PhysicalDeviceInfo, qs: QueueSupport)
    returns (ok: bool, qs': QueueSupport)
    ensures ok <==> QueueFamiliesSuffice(info, qs)
    ensures qs' == qs.(graphicsRequired := info.requireGraphicsQueue,
      presentRequired := info.requirePresentQueue, computeRequired := info.requireComputeQueue)
  {
    ok := true;
    if info.requireGraphicsQueue && !qs.graphics { ok := false; }
    if info.requirePresentQueue && !qs.present { ok := false; }
    if info.requireComputeQueue && !qs.compute { ok := false; }
    qs' := qs.(graphicsRequired := info.requireGraphicsQueue,
               presentRequired := info.requirePresentQueue,
               computeRequired := info.requireComputeQueue);
    if SparseBindingRequired(info.requiredFeatures) && !SparseBindingQueueSupport(qs') {
      ok := false;
    }
  }

  /**
   * check_device_suitability: all checks run (none short-circuits the
   * others), and the verdict is their conjunction; has_required_properties
   * always holds. The device's record gets the scanned queue support with
   * the required flags, the required extensions, and the extension flags as
   * has_required_extension_support leaves them.
   */
  method CheckDeviceSuitability(info: PhysicalDeviceInfo, d: DeviceReport, hasSurface: bool,
                                support: ExtensionSupport)
    returns (suitable: bool, qs: QueueSupport, required: seq<string>, newSupport: ExtensionSupport)
    requires WellFormedReport(d)
    ensures suitable <==> IsSuitable(info, d, hasSurface)
    ensures qs == QueueSupportFor(d.families, hasSurface, d.presentSupport).(
      graphicsRequired := info.requireGraphicsQueue, presentRequired := info.requirePresentQueue,
      computeRequired := info.requireComputeQueue)
    ensures required == RequiredExtensions(info, d.extensions)
    ensures newSupport.swapchain ==
      if ChecksSwapchain(info) then VK_KHR_SWAPCHAIN in d.extensions else support.swapchain
    ensures newSupport.raytracing <==>
      support.raytracing || (ExtensionsCovered(info, d.extensions) && info.requireRaytracingSupport)
    ensures newSupport.dynamicRendering == support.dynamicRendering
  {
    var scanned := GetQueueFamilySupport(d.families, hasSurface, d.presentSupport);
    var queueFamilySupport;
    queueFamilySupport, qs := CheckQueueFamilies(info, scanned);
    var extensionSupport;
    extensionSupport, required, newSupport := HasRequiredExtensionSupport(info, d.extensions, support);
    var featureSupport := HasRequiredFeatures(info.requiredFeatures, d.features);
    var propertiesSupport := true;
    suitable := queueFamilySupport && extensionSupport && featureSupport && propertiesSupport;
  }

  // ------------------------------------------------------------------
  // Picking a device
  // ------------------------------------------------------------------

  /** VkPhysicalDeviceType; Other also stands for any value outside the enumeration. */
  datatype PhysicalDeviceType = Other | IntegratedGpu | DiscreteGpu | VirtualGpu | Cpu

  /** The heuristic weight: lighter devices are tried first. */
  function DeviceWeight(t: PhysicalDeviceType): (w: nat)
    ensures w < 255
    ensures t == DiscreteGpu <==> w == 0
  {
    match t
    case IntegratedGpu => 1
    case DiscreteGpu => 0
    case VirtualGpu => 4
    case Cpu => 3
    case Other => 254
  }

  /** The weights order the device types: discrete, integrated, CPU, virtual, other. */
  lemma DeviceWeightOrder()
    ensures DeviceWeight(DiscreteGpu) < DeviceWeight(IntegratedGpu) < DeviceWeight(Cpu)
    ensures DeviceWeight(Cpu) < DeviceWeight(VirtualGpu) < DeviceWeight(Other)
  {
  }

  /** The weight of every device, by device index. */
  function Weights(devices: seq<DeviceReport>): (w: seq<nat>)
    ensures |w| == |devices|
    ensures forall k :: 0 <= k < |devices| ==> w[k] == DeviceWeight(devices[k].deviceType)
  {
    seq(|devices|, k requires 0 <= k < |devices| => DeviceWeight(devices[k].deviceType))
  }

  /** The suitability verdict of every device, by device index. */
  function Verdicts(info: PhysicalDeviceInfo, devices: seq<DeviceReport>, hasSurface: bool)
    : (v: seq<bool>)
    requires forall d :: d in devices ==> WellFormedReport(d)
    ensures |v| == |devices|
    ensures forall k :: 0 <= k < |devices| ==> v[k] == IsSuitable(info, devices[k], hasSurface)
  {
    seq(|devices|, k requires 0 <= k < |devices| => IsSuitable(info, devices[k], hasSurface))
  }

  /**
   * The result of std::sort on the weighted devices, given as the device
   * indices in the order the sort leaves them: every device once, weights
   * non-decreasing. Ties may come in any order.
   */
  predicate IsWeightOrder(weights: seq<nat>, order: seq<nat>)
  {
    |order| == |weights| &&
    (forall i :: 0 <= i < |order| ==> order[i] < |weights|) &&
    (forall k :: 0 <= k < |weights| ==> k in order) &&
    (forall i, j :: 0 <= i < j < |order| ==> weights[order[i]] <= weights[order[j]])
  }

  /** The first index in `order`, from position `from` on, whose verdict is true. */
  function FirstInOrder(verdicts: seq<bool>, order: seq<nat>, from: nat): (r: Option<nat>)
    requires forall i :: 0 <= i < |order| ==> order[i] < |verdicts|
    requires from <= |order|
    ensures r.Some? ==> r.value in order[from..] && verdicts[r.value]
    decreases |order| - from
  {
    if from == |order| then None
    else if verdicts[order[from]] then Some(order[from])
    else FirstInOrder(verdicts, order, from + 1)
  }

  /** The device physical_device_pick settles on, with the state it leaves behind. */
  datatype Picked = Picked(index: nat, queueSupport: QueueSupport, requiredExtensions: seq<string>,
                           extensionSupport: ExtensionSupport)

  /**
   * physical_device_pick: no device at all is a failure; otherwise the
   * devices are tried in weight order and the first suitable one is
   * returned, carrying the queue support and required extensions recorded
   * for it. The extension flags live in the one vtek object every device is
   * checked on; those a check does not look at keep their earlier value, so
   * the picked device reports exactly the checks its requirements ask for.
   * The allocation of the vtek object is not modelled.
   */
  method PickPhysicalDevice(info: PhysicalDeviceInfo, devices: seq<DeviceReport>, hasSurface: bool,
                            order: seq<nat>)
    returns (picked: Option<Picked>)
    requires forall d :: d in devices ==> WellFormedReport(d)
    requires IsWeightOrder(Weights(devices), order)
    ensures picked.None? <==> FirstInOrder(Verdicts(info, devices, hasSurface), order, 0).None?
    ensures picked.Some? ==>
      picked.value.index == FirstInOrder(Verdicts(info, devices, hasSurface), order, 0).value
    ensures picked.Some? ==> picked.value.index < |devices|
    ensures picked.Some? ==>
      var d := devices[picked.value.index];
      && WellFormedReport(d)
      && picked.value.queueSupport ==
           QueueSupportFor(d.families, hasSurface, d.presentSupport).(
             graphicsRequired := info.requireGraphicsQueue,
             presentRequired := info.requirePresentQueue,
             computeRequired := info.requireComputeQueue)
      && picked.value.requiredExtensions == RequiredExtensions(info, d.extensions)
    ensures picked.Some? ==>
      picked.value.extensionSupport ==
        ExtensionSupport(false, info.requireRaytracingSupport, ChecksSwapchain(info))
  {
    if |devices| == 0 {
      return None;
    }
    ghost var verdicts := Verdicts(info, devices, hasSurface);
    var support := ExtensionSupport(false, false, false);
    var i := 0;
    while i < |order|
      invariant 0 <= i <= |order|
      invariant FirstInOrder(verdicts, order, 0) == FirstInOrder(verdicts, order, i)
      invariant !support.dynamicRendering
      invariant !info.requireRaytracingSupport ==> !support.raytracing
      invariant !ChecksSwapchain(info) ==> !support.swapchain
    {
      var d := devices[order[i]];
      var suitable, qs, required;
      suitable, qs, required, support := CheckDeviceSuitability(info, d, hasSurface, support);
      if suitable {
        return Some(Picked(order[i], qs, required, support));
      }
      i := i + 1;
    }
    return None;
  }

  /**
   * The first index in weight order with a true verdict has it, and every
   * strictly lighter index has a false one; when there is none, every
   * verdict is false.
   */
  lemma {:induction false} FirstInOrderIsLightest(weights: seq<nat>, verdicts: seq<bool>,
                                                  order: seq<nat>, from: nat)
    requires |verdicts| == |weights| && IsWeightOrder(weights, order)
    requires from <= |order|
    requires forall i :: 0 <= i < from ==> !verdicts[order[i]]
    ensures var r := FirstInOrder(verdicts, order, from);
      && (r.None? ==> forall k :: 0 <= k < |verdicts| ==> !verdicts[k])
      && (r.Some? ==>
            verdicts[r.value] &&
            forall k :: 0 <= k < |verdicts| && weights[k] < weights[r.value] ==> !verdicts[k])
    decreases |order| - from
  {
    if from == |order| {
      forall k | 0 <= k < |verdicts|
        ensures !verdicts[k]
      {
        assert k in order;
        var p :| 0 <= p < |order| && order[p] == k;
      }
    } else if verdicts[order[from]] {
      forall k | 0 <= k < |verdicts| && weights[k] < weights[order[from]]
        ensures !verdicts[k]
      {
        assert k in order;
        var p :| 0 <= p < |order| && order[p] == k;
      }
    } else {
      FirstInOrderIsLightest(weights, verdicts, order, from + 1);
    }
  }

  /**
   * What physical_device_pick promises: a picked device is suitable and no
   * device of strictly smaller weight is; a failed pick means no device is
   * suitable.
   */
  lemma PickIsLightestSuitable(info: PhysicalDeviceInfo, devices: seq<DeviceReport>,
                               hasSurface: bool, order: seq<nat>)
    requires forall d :: d in devices ==> WellFormedReport(d)
    requires IsWeightOrder(Weights(devices), order)
    ensures var r := FirstInOrder(Verdicts(info, devices, hasSurface), order, 0);
      && (r.None? ==> forall k :: 0 <= k < |devices| ==> !IsSuitable(info, devices[k], hasSurface))
      && (r.Some? ==>
            IsSuitable(info, devices[r.value], hasSurface) &&
            forall k ::
              (0 <= k < |devices| &&
               DeviceWeight(devices[k].deviceType) < DeviceWeight(devices[r.value].deviceType)) ==>
              !IsSuitable(info, devices[k], hasSurface))
  {
    FirstInOrderIsLightest(Weights(devices), Verdicts(info, devices, hasSurface), order, 0);
  }
}
