// descriptor_set_layout_create (src/vtek_descriptor_set_layout.cpp): the
// per-binding checks and the VkDescriptorSetLayoutCreateInfo built from the
// bindings, with the binding flags chained for update-after-bind.
module DescriptorSetLayouts {
  import opened Wrappers
  import opened Vk
  import opened VulkanVersion
  import opened DescriptorTypes

  /** VK_DESCRIPTOR_BINDING_UPDATE_AFTER_BIND_BIT. */
  const VK_DESCRIPTOR_BINDING_UPDATE_AFTER_BIND_BIT: bv32 := 0x1
  /** VK_DESCRIPTOR_SET_LAYOUT_CREATE_UPDATE_AFTER_BIND_POOL_BIT. */
  const VK_DESCRIPTOR_SET_LAYOUT_CREATE_UPDATE_AFTER_BIND_POOL_BIT: bv32 := 0x2

  /**
   * vtek::DescriptorLayoutBinding; `stageFlags` is what
   * get_shader_stage_flags makes of its shader stages (that function is not
   * part of this model).
   */
  datatype DescriptorLayoutBinding = DescriptorLayoutBinding(
    binding: nat, descriptorType: DescriptorType, count: nat, stageFlags: bv32,
    updateAfterBind: bool)

  /** VkDescriptorSetLayoutBinding; pImmutableSamplers is always null. */
  datatype LayoutBinding = LayoutBinding(
    binding: nat, descriptorType: nat, descriptorCount: nat, stageFlags: bv32)

  /**
   * VkDescriptorSetLayoutCreateInfo: its flags, its bindings, and the
   * binding flags of a chained VkDescriptorSetLayoutBindingFlagsCreateInfo.
   */
  datatype LayoutCreateInfo = LayoutCreateInfo(
    flags: bv32, bindings: seq<LayoutBinding>, bindingFlags: Option<seq<bv32>>)

  /** The version test before the binding flags: a major above 1 or a minor of at least 2. */
  predicate BindingFlagsGate(v: Version)
  {
    v.major > 1 || v.minor >= 2
  }

  /** The Vulkan types a binding may not have when it asks for update-after-bind. */
  predicate ForbidsUpdateAfterBind(vkType: nat)
  {
    vkType == VK_DESCRIPTOR_TYPE_INPUT_ATTACHMENT ||
    vkType == VK_DESCRIPTOR_TYPE_UNIFORM_BUFFER_DYNAMIC ||
    vkType == VK_DESCRIPTOR_TYPE_STORAGE_BUFFER_DYNAMIC
  }

  /**
   * A binding passes the checks: its type resolves on the device, and it
   * does not ask for update-after-bind on an input attachment or a dynamic
   * buffer.
   */
  predicate BindingAccepted(b: DescriptorLayoutBinding, v: Version)
  {
    GetDescriptorType(b.descriptorType, v).Some? &&
    !(b.updateAfterBind && ForbidsUpdateAfterBind(GetDescriptorType(b.descriptorType, v).value))
  }

  /** The Vulkan binding an accepted binding becomes. */
  function VkBinding(b: DescriptorLayoutBinding, v: Version): (r: LayoutBinding)
    requires GetDescriptorType(b.descriptorType, v).Some?
  {
    LayoutBinding(b.binding, GetDescriptorType(b.descriptorType, v).value, b.count, b.stageFlags)
  }

  /** The binding flag of one binding: the update-after-bind bit when it asks for it. */
  function BindingFlag(b: DescriptorLayoutBinding): bv32
  {
    if b.updateAfterBind then VK_DESCRIPTOR_BINDING_UPDATE_AFTER_BIND_BIT else 0
  }

  /** Some binding asks for update-after-bind. */
  predicate AnyUpdateAfterBind(bindings: seq<DescriptorLayoutBinding>)
  {
    exists i :: 0 <= i < |bindings| && bindings[i].updateAfterBind
  }

  /**
   * The loop over the bindings: it notes whether any binding asks for
   * update-after-bind and turns each binding into its Vulkan binding,
   * stopping with nothing at the first binding that is rejected.
   */
  method ResolveBindings(bindings: seq<DescriptorLayoutBinding>, v: Version)
    returns (resolved: Option<seq<LayoutBinding>>, updateAfterBind: bool)
    ensures resolved.Some? <==> forall i :: 0 <= i < |bindings| ==> BindingAccepted(bindings[i], v)
    ensures resolved.Some? ==> |resolved.value| == |bindings|
    ensures resolved.Some? ==> forall i :: 0 <= i < |bindings| ==>
      resolved.value[i] == VkBinding(bindings[i], v)
    ensures resolved.Some? ==> (updateAfterBind <==> AnyUpdateAfterBind(bindings))
  {
    updateAfterBind := false;
    var vkBindings: seq<LayoutBinding> := [];
    var i := 0;
    while i < |bindings|
      invariant 0 <= i <= |bindings|
      invariant forall k :: 0 <= k < i ==> BindingAccepted(bindings[k], v)
      invariant |vkBindings| == i
      invariant forall k :: 0 <= k < i ==> vkBindings[k] == VkBinding(bindings[k], v)
      invariant updateAfterBind <==> exists k :: 0 <= k < i && bindings[k].updateAfterBind
    {
      var b := bindings[i];
      updateAfterBind := updateAfterBind || b.updateAfterBind;
      var t := GetDescriptorType(b.descriptorType, v);
      if t.None? {
        return None, updateAfterBind;
      }
      if b.updateAfterBind && ForbidsUpdateAfterBind(t.value) {
        return None, updateAfterBind;
      }
      vkBindings := vkBindings + [LayoutBinding(b.binding, t.value, b.count, b.stageFlags)];
      i := i + 1;
    }
    resolved := Some(vkBindings);
  }

  /** The loop that gives each binding its binding flag. */
  method BindingFlagsFor(bindings: seq<DescriptorLayoutBinding>) returns (bindingFlags: seq<bv32>)
    ensures |bindingFlags| == |bindings|
    ensures forall k :: 0 <= k < |bindings| ==> bindingFlags[k] == BindingFlag(bindings[k])
  {
    bindingFlags := [];
    var j := 0;
    while j < |bindings|
      invariant 0 <= j <= |bindings|
      invariant |bindingFlags| == j
      invariant forall k :: 0 <= k < j ==> bindingFlags[k] == BindingFlag(bindings[k])
    {
      var f: bv32 := 0;
      if bindings[j].updateAfterBind {
        f := f | VK_DESCRIPTOR_BINDING_UPDATE_AFTER_BIND_BIT;
      }
      bindingFlags := bindingFlags + [f];
      j := j + 1;
    }
  }

  /**
   * The part of descriptor_set_layout_create that builds the create info:
   * nothing when some binding is rejected; otherwise one Vulkan binding per
   * binding, in order, and, when some binding asks for update-after-bind and
   * the device has at least Vulkan 1.2, one binding flag per binding and the
   * update-after-bind pool flag on the layout.
   */
  method LayoutCreateInfoFor(bindings: seq<DescriptorLayoutBinding>, v: Version)
    returns (r: Option<LayoutCreateInfo>)
    ensures r.Some? <==> forall i :: 0 <= i < |bindings| ==> BindingAccepted(bindings[i], v)
    ensures r.Some? ==> |r.value.bindings| == |bindings|
    ensures r.Some? ==> forall i :: 0 <= i < |bindings| ==>
      r.value.bindings[i] == VkBinding(bindings[i], v)
    ensures r.Some? ==>
      (r.value.bindingFlags.Some? <==> AnyUpdateAfterBind(bindings) && BindingFlagsGate(v))
    ensures r.Some? && r.value.bindingFlags.None? ==> r.value.flags == 0
    ensures r.Some? && r.value.bindingFlags.Some? ==>
      r.value.flags == VK_DESCRIPTOR_SET_LAYOUT_CREATE_UPDATE_AFTER_BIND_POOL_BIT
    ensures r.Some? && r.value.bindingFlags.Some? ==> |r.value.bindingFlags.value| == |bindings|
    ensures r.Some? && r.value.bindingFlags.Some? ==> forall i :: 0 <= i < |bindings| ==>
      r.value.bindingFlags.value[i] == BindingFlag(bindings[i])
  {
    var resolved, updateAfterBind := ResolveBindings(bindings, v);
    if resolved.None? {
      return None;
    }
    var vkBindings := resolved.value;

    var flags: bv32 := 0;
    var chained: Option<seq<bv32>> := None;
    if updateAfterBind && BindingFlagsGate(v) {
      var bindingFlags := BindingFlagsFor(bindings);
      chained := Some(bindingFlags);
      flags := flags | VK_DESCRIPTOR_SET_LAYOUT_CREATE_UPDATE_AFTER_BIND_POOL_BIT;
    }
    r := Some(LayoutCreateInfo(flags, vkBindings, chained));
  }

  /**
   * descriptor_set_layout_create: the layout exists exactly when the create
   * info could be built and vkCreateDescriptorSetLayout returned success;
   * `handle` is the handle Vulkan produced.
   */
  method DescriptorSetLayoutCreate(bindings: seq<DescriptorLayoutBinding>, v: Version,
                                   result: VkResult, handle: nat)
    returns (layout: Option<nat>, createInfo: Option<LayoutCreateInfo>)
    ensures layout.Some? <==>
      (forall i :: 0 <= i < |bindings| ==> BindingAccepted(bindings[i], v)) && result == VK_SUCCESS
    ensures layout.Some? ==> layout.value == handle && createInfo.Some?
  {
    layout := None;
    createInfo := LayoutCreateInfoFor(bindings, v);
    if createInfo.None? {
      return;
    }
    if result != VK_SUCCESS {
      return;
    }
    layout := Some(handle);
  }

  /**
   * A binding asking for update-after-bind on a dynamic uniform buffer is
   * rejected on every device, and with it the whole layout.
   */
  lemma DynamicUniformBufferRejectsUpdateAfterBind(b: DescriptorLayoutBinding, v: Version)
    requires b.descriptorType == UniformBufferDynamic && b.updateAfterBind
    ensures !BindingAccepted(b, v)
  {
    assert UniformBufferDynamic == CORE_TYPES[8];
  }
}
