// vtek::GraphicsPipeline (src/vtek_graphics_pipeline.cpp): the translation of
// the PipelineDynamicState bitmask into the list of VkDynamicState values the
// pipeline is created with, and the checks graphics_pipeline_create makes
// before handing the list to Vulkan.
module GraphicsPipelines {
  import opened Wrappers
  import opened VulkanVersion

  /**
   * VkDynamicState, restricted to the values vtek can request: nine provided
   * by Vulkan 1.0 and fifteen provided by Vulkan 1.3.
   */
  datatype DynamicState =
    | Viewport | Scissor | LineWidth | DepthBias | BlendConstants | DepthBounds
    | StencilCompareMask | StencilWriteMask | StencilReference
    | CullMode | FrontFace | PrimitiveTopology | ViewportWithCount | ScissorWithCount
    | VertexInputBindingStride | DepthTestEnable | DepthWriteEnable | DepthCompareOp
    | DepthBoundsTestEnable | StencilTestEnable | StencilOp | RasterizerDiscardEnable
    | DepthBiasEnable | PrimitiveRestartEnable

  /** The states in the declaration order of vtek::PipelineDynamicState. */
  const DYNAMIC_STATES: seq<DynamicState> := [
    Viewport, Scissor, LineWidth, DepthBias, BlendConstants, DepthBounds,
    StencilCompareMask, StencilWriteMask, StencilReference,
    CullMode, FrontFace, PrimitiveTopology, ViewportWithCount, ScissorWithCount,
    VertexInputBindingStride, DepthTestEnable, DepthWriteEnable, DepthCompareOp,
    DepthBoundsTestEnable, StencilTestEnable, StencilOp, RasterizerDiscardEnable,
    DepthBiasEnable, PrimitiveRestartEnable]

  /** The PipelineDynamicState flag of each state: bit k for the k-th state. */
  const DYNAMIC_STATE_BITS: seq<bv32> := [
    0x1, 0x2, 0x4, 0x8, 0x10, 0x20, 0x40, 0x80, 0x100,
    0x200, 0x400, 0x800, 0x1000, 0x2000, 0x4000, 0x8000, 0x10000, 0x20000,
    0x40000, 0x80000, 0x100000, 0x200000, 0x400000, 0x800000]

  /** How many of the states Vulkan 1.0 provides, and how many there are in all. */
  const CORE_STATE_COUNT: nat := 9
  const STATE_COUNT: nat := 24

  /** The position of a state in the declaration. */
  function StateIndex(s: DynamicState): (k: nat)
    ensures k < STATE_COUNT && DYNAMIC_STATES[k] == s
  {
    match s
    case Viewport => 0
    case Scissor => 1
    case LineWidth => 2
    case DepthBias => 3
    case BlendConstants => 4
    case DepthBounds => 5
    case StencilCompareMask => 6
    case StencilWriteMask => 7
    case StencilReference => 8
    case CullMode => 9
    case FrontFace => 10
    case PrimitiveTopology => 11
    case ViewportWithCount => 12
    case ScissorWithCount => 13
    case VertexInputBindingStride => 14
    case DepthTestEnable => 15
    case DepthWriteEnable => 16
    case DepthCompareOp => 17
    case DepthBoundsTestEnable => 18
    case StencilTestEnable => 19
    case StencilOp => 20
    case RasterizerDiscardEnable => 21
    case DepthBiasEnable => 22
    case PrimitiveRestartEnable => 23
  }

  /** Each state appears once in the declaration: StateIndex undoes indexing. */
  lemma StateIndexOfDeclared(k: nat)
    requires k < STATE_COUNT
    ensures StateIndex(DYNAMIC_STATES[k]) == k
  {
  }

  // ---------------------------------------------------------------------
  // The version gate of the Vulkan 1.3 states.

  /**
   * The test the source makes before the 1.3 states, as written: major at
   * least 1 and minor at least 3.
   */
  predicate ExtendedStatesGateAsWritten(v: Version)
  {
    v.major >= 1 && v.minor >= 3
  }

  /** The test the source evidently intends: the device speaks Vulkan 1.3 or later. */
  predicate ExtendedStatesGate(v: Version)
  {
    AtLeast(v, 1, 3)
  }

  /** The test as written turns away Vulkan 2.0, which is later than 1.3. */
  lemma GateAsWrittenRejects2_0()
    ensures AtLeast(FromTriple(2, 0, 0), 1, 3)
    ensures !ExtendedStatesGateAsWritten(FromTriple(2, 0, 0))
    ensures ExtendedStatesGate(FromTriple(2, 0, 0))
  {
  }

  /**
   * The intended test is monotone: every version at least as late as one
   * that passes it passes too, and it agrees with the test as written on
   * every 1.x version.
   */
  lemma GateMonotone(v: Version, w: Version)
    ensures ExtendedStatesGate(v) && AtLeast(w, v.major, v.minor) ==> ExtendedStatesGate(w)
    ensures v.major == 1 ==> (ExtendedStatesGate(v) <==> ExtendedStatesGateAsWritten(v))
  {
  }

  // ---------------------------------------------------------------------
  // get_enabled_dynamic_states.

  /** The k-th flag is set in the mask. */
  predicate FlagSet(flags: bv32, k: nat)
    requires k < STATE_COUNT
  {
    flags & DYNAMIC_STATE_BITS[k] != 0
  }

  /** The k-th flag is set, and its state is provided by the device's version. */
  predicate Honoured(flags: bv32, gate: bool, k: nat)
    requires k < STATE_COUNT
  {
    FlagSet(flags, k) && (k < CORE_STATE_COUNT || gate)
  }

  /** The honoured states among the first n, in declaration order. */
  function EnabledBelow(flags: bv32, gate: bool, n: nat): (r: seq<DynamicState>)
    requires n <= STATE_COUNT
    ensures |r| <= n
  {
    if n == 0 then []
    else EnabledBelow(flags, gate, n - 1)
         + (if Honoured(flags, gate, n - 1) then [DYNAMIC_STATES[n - 1]] else [])
  }

  /** One more flag considered: its state is appended when the flag is honoured. */
  lemma EnabledBelowStep(flags: bv32, gate: bool, k: nat)
    requires k < STATE_COUNT
    ensures FlagSet(flags, k) && (k < CORE_STATE_COUNT || gate) ==>
      EnabledBelow(flags, gate, k + 1) == EnabledBelow(flags, gate, k) + [DYNAMIC_STATES[k]]
    ensures !(FlagSet(flags, k) && (k < CORE_STATE_COUNT || gate)) ==>
      EnabledBelow(flags, gate, k + 1) == EnabledBelow(flags, gate, k)
  {
  }

  /** The dynamic states a pipeline with these flags is created with. */
  function EnabledStates(flags: bv32, gate: bool): seq<DynamicState>
  {
    EnabledBelow(flags, gate, STATE_COUNT)
  }

  /** The list holds a state exactly when its flag is honoured. */
  lemma {:induction false} EnabledBelowMembership(flags: bv32, gate: bool, n: nat, k: nat)
    requires n <= STATE_COUNT && k < STATE_COUNT
    ensures DYNAMIC_STATES[k] in EnabledBelow(flags, gate, n) <==> k < n && Honoured(flags, gate, k)
  {
    if n > 0 {
      EnabledBelowMembership(flags, gate, n - 1, k);
      StateIndexOfDeclared(k);
      StateIndexOfDeclared(n - 1);
    }
  }

  /** The list comes in strict declaration order, so no state appears twice. */
  lemma {:induction false} EnabledBelowOrdered(flags: bv32, gate: bool, n: nat)
    requires n <= STATE_COUNT
    ensures forall s :: s in EnabledBelow(flags, gate, n) ==> StateIndex(s) < n
    ensures forall i, j :: 0 <= i < j < |EnabledBelow(flags, gate, n)| ==>
      StateIndex(EnabledBelow(flags, gate, n)[i]) < StateIndex(EnabledBelow(flags, gate, n)[j])
  {
    if n > 0 {
      EnabledBelowOrdered(flags, gate, n - 1);
      StateIndexOfDeclared(n - 1);
    }
  }

  /**
   * What get_enabled_dynamic_states promises: a state is listed exactly when
   * its flag is set and, for a Vulkan 1.3 state, the device passes the gate;
   * no state is listed twice.
   */
  lemma EnabledStatesMeaning(flags: bv32, gate: bool)
    ensures forall k :: 0 <= k < STATE_COUNT ==>
      (DYNAMIC_STATES[k] in EnabledStates(flags, gate) <==>
         flags & DYNAMIC_STATE_BITS[k] != 0 && (k < CORE_STATE_COUNT || gate))
    ensures forall i, j :: 0 <= i < j < |EnabledStates(flags, gate)| ==>
      EnabledStates(flags, gate)[i] != EnabledStates(flags, gate)[j]
  {
    forall k | 0 <= k < STATE_COUNT
      ensures DYNAMIC_STATES[k] in EnabledStates(flags, gate) <==>
        flags & DYNAMIC_STATE_BITS[k] != 0 && (k < CORE_STATE_COUNT || gate)
    {
      EnabledBelowMembership(flags, gate, STATE_COUNT, k);
    }
    EnabledBelowOrdered(flags, gate, STATE_COUNT);
  }

  /** Without the gate, no flag beyond the Vulkan 1.0 ones adds a state. */
  lemma {:induction false} UngatedStopsAtCore(flags: bv32, n: nat)
    requires CORE_STATE_COUNT <= n <= STATE_COUNT
    ensures EnabledBelow(flags, false, n) == EnabledBelow(flags, false, CORE_STATE_COUNT)
  {
    if n > CORE_STATE_COUNT {
      UngatedStopsAtCore(flags, n - 1);
    }
  }

  /**
   * get_enabled_dynamic_states: the output is cleared, then each set flag
   * appends its state in declaration order, the fifteen Vulkan 1.3 ones only
   * when the device's version passes the gate as written. On every 1.x
   * version that is the list the intended gate gives.
   */
  method GetEnabledDynamicStates(flags: bv32, apiVersion: Version) returns (states: seq<DynamicState>)
    ensures states == EnabledStates(flags, ExtendedStatesGateAsWritten(apiVersion))
    ensures apiVersion.major == 1 ==> states == EnabledStates(flags, ExtendedStatesGate(apiVersion))
  {
    ghost var gate := ExtendedStatesGateAsWritten(apiVersion);
    states := [];
    // Provided by VK_VERSION_1_0
    var k := 0;
    while k < CORE_STATE_COUNT
      invariant 0 <= k <= CORE_STATE_COUNT
      invariant states == EnabledBelow(flags, gate, k)
    {
      EnabledBelowStep(flags, gate, k);
      if FlagSet(flags, k) {
        states := states + [DYNAMIC_STATES[k]];
      }
      k := k + 1;
    }
    // Provided by VK_VERSION_1_3
    if ExtendedStatesGateAsWritten(apiVersion) {
      while k < STATE_COUNT
        invariant CORE_STATE_COUNT <= k <= STATE_COUNT
        invariant states == EnabledBelow(flags, gate, k)
      {
        if FlagSet(flags, k) {
          states := states + [DYNAMIC_STATES[k]];
        }
        k := k + 1;
      }
    } else {
      UngatedStopsAtCore(flags, STATE_COUNT);
    }
    GateMonotone(apiVersion, apiVersion);
  }

  // ---------------------------------------------------------------------
  // graphics_pipeline_create.

  datatype RenderPassType = RenderPass | Dynamic

  /** The parts of vtek::GraphicsPipelineCreateInfo the checks read. */
  datatype GraphicsPipelineCreateInfo = GraphicsPipelineCreateInfo(
    hasViewportState: bool, dynamicStateFlags: bv32, renderPassType: RenderPassType)

  /** The dynamic-state part of the VkGraphicsPipelineCreateInfo. */
  datatype PipelineDynamicStateInfo = PipelineDynamicStateInfo(
    dynamicStates: seq<DynamicState>, dynamicStateCount: nat, hasDynamicStatesPointer: bool,
    chainsRenderingInfo: bool)

  /**
   * The part of graphics_pipeline_create before the Vulkan call: no viewport
   * state means no pipeline; otherwise the dynamic-state count is the length
   * of the list, the list pointer is null exactly when the list is empty, and
   * a dynamic-rendering pipeline chains a VkPipelineRenderingCreateInfo.
   */
  method GraphicsPipelineCreateInfoFor(info: GraphicsPipelineCreateInfo, apiVersion: Version)
    returns (r: Option<PipelineDynamicStateInfo>)
    ensures r.None? <==> !info.hasViewportState
    ensures r.Some? ==>
      r.value.dynamicStates == EnabledStates(info.dynamicStateFlags, ExtendedStatesGateAsWritten(apiVersion))
    ensures r.Some? ==> r.value.dynamicStateCount == |r.value.dynamicStates|
    ensures r.Some? ==> (r.value.hasDynamicStatesPointer <==> |r.value.dynamicStates| > 0)
    ensures r.Some? ==> (r.value.chainsRenderingInfo <==> info.renderPassType == Dynamic)
  {
    if !info.hasViewportState {
      return None;
    }
    var states := GetEnabledDynamicStates(info.dynamicStateFlags, apiVersion);
    var count, pointer;
    if |states| > 0 {
      count, pointer := |states|, true;
    } else {
      count, pointer := 0, false;
    }
    r := Some(PipelineDynamicStateInfo(states, count, pointer, info.renderPassType == Dynamic));
  }
}
