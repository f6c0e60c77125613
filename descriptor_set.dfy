// vtek::DescriptorSet (src/impl/vtek_descriptor_set_struct.hpp and
// src/vtek_descriptor_set.cpp): a Vulkan descriptor set together with the
// descriptor writes queued on it and the buffer and image infos those writes
// point at. The source keeps the infos in std::deque so that pushing at the
// back leaves earlier elements where they are; a write's pointer into a
// deque is modelled as an index into the matching sequence.
module DescriptorSets {
  import opened UniformData
  import opened Images

  /** VK_DESCRIPTOR_TYPE_COMBINED_IMAGE_SAMPLER and VK_DESCRIPTOR_TYPE_UNIFORM_BUFFER. */
  const VK_DESCRIPTOR_TYPE_COMBINED_IMAGE_SAMPLER: nat := 1
  const VK_DESCRIPTOR_TYPE_UNIFORM_BUFFER: nat := 6

  /** VkDescriptorBufferInfo. */
  datatype BufferInfo = BufferInfo(buffer: nat, offset: nat, range: nat)

  /** VkDescriptorImageInfo; `imageLayout` is the Vulkan value of the vtek layout. */
  datatype ImageInfo = ImageInfo(imageLayout: nat, imageView: nat, sampler: nat)

  /** Which info array a write's pImageInfo or pBufferInfo points into, and where. */
  datatype InfoRef = BufferRef(index: nat) | ImageRef(index: nat)

  /** VkWriteDescriptorSet, with its info pointer as an InfoRef. */
  datatype WriteDescriptor = WriteDescriptor(
    dstSet: nat, dstBinding: nat, dstArrayElement: nat, descriptorCount: nat,
    descriptorType: nat, info: InfoRef)

  /** The binders the source declares but does not implement. */
  datatype StubBinder =
    | SamplerBinder | SampledImageBinder | UniformTexelBufferBinder
    | StorageTexelBufferBinder | StorageBufferBinder | UniformBufferDynamicBinder
    | StorageBufferDynamicBinder | InputAttachmentBinder | InlineUniformBlockBinder

  class DescriptorSet {
    var vulkanHandle: nat
    var bufferInfos: seq<BufferInfo>
    var imageInfos: seq<ImageInfo>
    var writeDescriptors: seq<WriteDescriptor>

    /**
     * Every queued write points at an info that exists, in the array its
     * descriptor type calls for, and targets this set.
     */
    ghost predicate Valid()
      reads this
    {
      forall i :: 0 <= i < |writeDescriptors| ==> WellFormed(writeDescriptors[i])
    }

    ghost predicate WellFormed(w: WriteDescriptor)
      reads this
    {
      w.dstSet == vulkanHandle && w.descriptorCount == 1 &&
      match w.info
      case BufferRef(k) =>
        k < |bufferInfos| && w.descriptorType == VK_DESCRIPTOR_TYPE_UNIFORM_BUFFER
      case ImageRef(k) =>
        k < |imageInfos| && w.descriptorType == VK_DESCRIPTOR_TYPE_COMBINED_IMAGE_SAMPLER
    }

    /**
     * The set descriptor_pool_alloc_set makes for the handle Vulkan
     * allocated: nothing queued.
     */
    constructor(handle: nat)
      ensures vulkanHandle == handle
      ensures bufferInfos == [] && imageInfos == [] && writeDescriptors == []
      ensures Valid()
    {
      vulkanHandle := handle;
      bufferInfos := [];
      imageInfos := [];
      writeDescriptors := [];
    }

    /** descriptor_set_get_handle. */
    function Handle(): (h: nat)
      reads this
      ensures h == vulkanHandle
    {
      vulkanHandle
    }

    /**
     * descriptor_set_update: the queued writes are handed to
     * vkUpdateDescriptorSets, then the writes and the buffer infos are
     * dropped; the image infos stay.
     */
    method Update()
      requires Valid()
      modifies this
      ensures writeDescriptors == [] && bufferInfos == []
      ensures imageInfos == old(imageInfos) && vulkanHandle == old(vulkanHandle)
      ensures Valid()
    {
      writeDescriptors := [];
      bufferInfos := [];
    }

    /**
     * descriptor_set_bind_combined_image2d_sampler: one image info with the
     * image's view and the sampler is appended, and one write of a single
     * combined image sampler at array element 0 of `binding`, pointing at
     * that info. Earlier infos and writes are left as they were.
     */
    method BindCombinedImage2DSampler(binding: nat, sampler: nat, image: Image2D, imageLayout: nat)
      returns (ok: bool)
      requires Valid()
      modifies this
      ensures ok
      ensures imageInfos == old(imageInfos) + [ImageInfo(imageLayout, image.viewHandle, sampler)]
      ensures writeDescriptors == old(writeDescriptors) + [WriteDescriptor(
        vulkanHandle, binding, 0, 1, VK_DESCRIPTOR_TYPE_COMBINED_IMAGE_SAMPLER,
        ImageRef(|imageInfos| - 1))]
      ensures bufferInfos == old(bufferInfos) && vulkanHandle == old(vulkanHandle)
      ensures Valid()
    {
      imageInfos := imageInfos + [ImageInfo(imageLayout, image.viewHandle, sampler)];
      var w := WriteDescriptor(vulkanHandle, binding, 0, 1,
        VK_DESCRIPTOR_TYPE_COMBINED_IMAGE_SAMPLER, ImageRef(|imageInfos| - 1));
      writeDescriptors := writeDescriptors + [w];
      ok := true;
    }

    /**
     * descriptor_set_bind_uniform_buffer: one buffer info covering the
     * buffer from offset 0 for the size of the uniform type is appended, and
     * one write of a single uniform buffer at array element 0 of `binding`,
     * pointing at that info. Earlier infos and writes are left as they were.
     */
    method BindUniformBuffer(binding: nat, buffer: nat, uniformType: UniformBufferType)
      returns (ok: bool)
      requires Valid()
      modifies this
      ensures ok
      ensures bufferInfos == old(bufferInfos) + [BufferInfo(buffer, 0, GetUniformBufferSize(uniformType))]
      ensures writeDescriptors == old(writeDescriptors) + [WriteDescriptor(
        vulkanHandle, binding, 0, 1, VK_DESCRIPTOR_TYPE_UNIFORM_BUFFER,
        BufferRef(|bufferInfos| - 1))]
      ensures imageInfos == old(imageInfos) && vulkanHandle == old(vulkanHandle)
      ensures Valid()
    {
      bufferInfos := bufferInfos + [BufferInfo(buffer, 0, GetUniformBufferSize(uniformType))];
      var w := WriteDescriptor(vulkanHandle, binding, 0, 1,
        VK_DESCRIPTOR_TYPE_UNIFORM_BUFFER, BufferRef(|bufferInfos| - 1));
      writeDescriptors := writeDescriptors + [w];
      ok := true;
    }

    /** The binders that are not implemented report failure and change nothing. */
    method BindNotImplemented(binder: StubBinder) returns (ok: bool)
      ensures !ok
    {
      ok := false;
    }
  }
}
