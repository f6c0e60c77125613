// vtek::DescriptorType and get_descriptor_type (src/vtek_descriptor_type.cpp):
// the VkDescriptorType each vtek descriptor type stands for on a device.
module DescriptorTypes {
  import opened Wrappers
  import opened VulkanVersion

  /**
   * vtek::DescriptorType. `Unlisted` stands for any other value the
   * underlying integer of the enumeration may hold.
   */
  datatype DescriptorType =
    | Sampler | CombinedImageSampler | SampledImage | StorageImage
    | UniformTexelBuffer | StorageTexelBuffer | UniformBuffer | StorageBuffer
    | UniformBufferDynamic | StorageBufferDynamic | InputAttachment
    | InlineUniformBlock | AccelerationStructure
    | Unlisted

  /** VkDescriptorType values, as the Vulkan headers define them. */
  const VK_DESCRIPTOR_TYPE_SAMPLER: nat := 0
  const VK_DESCRIPTOR_TYPE_COMBINED_IMAGE_SAMPLER: nat := 1
  const VK_DESCRIPTOR_TYPE_SAMPLED_IMAGE: nat := 2
  const VK_DESCRIPTOR_TYPE_STORAGE_IMAGE: nat := 3
  const VK_DESCRIPTOR_TYPE_UNIFORM_TEXEL_BUFFER: nat := 4
  const VK_DESCRIPTOR_TYPE_STORAGE_TEXEL_BUFFER: nat := 5
  const VK_DESCRIPTOR_TYPE_UNIFORM_BUFFER: nat := 6
  const VK_DESCRIPTOR_TYPE_STORAGE_BUFFER: nat := 7
  const VK_DESCRIPTOR_TYPE_UNIFORM_BUFFER_DYNAMIC: nat := 8
  const VK_DESCRIPTOR_TYPE_STORAGE_BUFFER_DYNAMIC: nat := 9
  const VK_DESCRIPTOR_TYPE_INPUT_ATTACHMENT: nat := 10
  const VK_DESCRIPTOR_TYPE_INLINE_UNIFORM_BLOCK: nat := 1000138000
  const VK_DESCRIPTOR_TYPE_ACCELERATION_STRUCTURE_KHR: nat := 1000150000

  /** The eleven Vulkan 1.0 types, in the order of both enumerations. */
  const CORE_TYPES: seq<DescriptorType> := [
    Sampler, CombinedImageSampler, SampledImage, StorageImage,
    UniformTexelBuffer, StorageTexelBuffer, UniformBuffer, StorageBuffer,
    UniformBufferDynamic, StorageBufferDynamic, InputAttachment]

  /**
   * The version test before INLINE_UNIFORM_BLOCK: a major version above 1,
   * or a minor version of at least 3.
   */
  predicate InlineUniformBlockGate(v: Version)
  {
    v.major > 1 || v.minor >= 3
  }

  /** For any version 1.x or later the test is "at least Vulkan 1.3". */
  lemma InlineUniformBlockGateMeaning(v: Version)
    ensures v.major >= 1 ==>
      (InlineUniformBlockGate(v) <==> v.major > 1 || (v.major == 1 && v.minor >= 3))
  {
  }

  /**
   * get_descriptor_type: the core types map to their namesakes,
   * inline_uniform_block only on a device of at least Vulkan 1.3, the
   * acceleration structure always to the KHR type, and anything else to
   * nothing.
   */
  function GetDescriptorType(t: DescriptorType, v: Version): (r: Option<nat>)
    ensures forall k :: 0 <= k < |CORE_TYPES| && t == CORE_TYPES[k] ==> r == Some(k)
    ensures t.InlineUniformBlock? ==>
      (r.Some? <==> InlineUniformBlockGate(v)) &&
      (r.Some? ==> r.value == VK_DESCRIPTOR_TYPE_INLINE_UNIFORM_BLOCK)
    ensures t.AccelerationStructure? ==> r == Some(VK_DESCRIPTOR_TYPE_ACCELERATION_STRUCTURE_KHR)
    ensures t.Unlisted? ==> r.None?
  {
    match t
    case Sampler => Some(VK_DESCRIPTOR_TYPE_SAMPLER)
    case CombinedImageSampler => Some(VK_DESCRIPTOR_TYPE_COMBINED_IMAGE_SAMPLER)
    case SampledImage => Some(VK_DESCRIPTOR_TYPE_SAMPLED_IMAGE)
    case StorageImage => Some(VK_DESCRIPTOR_TYPE_STORAGE_IMAGE)
    case UniformTexelBuffer => Some(VK_DESCRIPTOR_TYPE_UNIFORM_TEXEL_BUFFER)
    case StorageTexelBuffer => Some(VK_DESCRIPTOR_TYPE_STORAGE_TEXEL_BUFFER)
    case UniformBuffer => Some(VK_DESCRIPTOR_TYPE_UNIFORM_BUFFER)
    case StorageBuffer => Some(VK_DESCRIPTOR_TYPE_STORAGE_BUFFER)
    case UniformBufferDynamic => Some(VK_DESCRIPTOR_TYPE_UNIFORM_BUFFER_DYNAMIC)
    case StorageBufferDynamic => Some(VK_DESCRIPTOR_TYPE_STORAGE_BUFFER_DYNAMIC)
    case InputAttachment => Some(VK_DESCRIPTOR_TYPE_INPUT_ATTACHMENT)
    case InlineUniformBlock =>
      if InlineUniformBlockGate(v) then Some(VK_DESCRIPTOR_TYPE_INLINE_UNIFORM_BLOCK) else None
    case AccelerationStructure => Some(VK_DESCRIPTOR_TYPE_ACCELERATION_STRUCTURE_KHR)
    case Unlisted => None
  }

  /** Every listed type but inline_uniform_block has a Vulkan type on any device. */
  lemma ListedTypesResolve(t: DescriptorType, v: Version)
    requires !t.Unlisted? && !t.InlineUniformBlock?
    ensures GetDescriptorType(t, v).Some?
  {
  }

  /** Two types that both map to a Vulkan type map to different ones. */
  lemma GetDescriptorTypeInjective(a: DescriptorType, b: DescriptorType, v: Version)
    requires GetDescriptorType(a, v).Some? && GetDescriptorType(b, v).Some?
    requires GetDescriptorType(a, v) == GetDescriptorType(b, v)
    ensures a == b
  {
  }
}
