# vtek, modelled in Dafny

vtek is a C++ helper framework around the Vulkan graphics API. It picks a
physical device and plans its queues, configures a swapchain from what the
surface supports, paces frames in flight, describes and selects image formats,
validates framebuffer, descriptor, sampler and pipeline descriptions before
handing them to Vulkan, keeps small host-side object pools, loads images and
Assimp models, and ships a Python script (shaders/build_shaders.py) that
compiles a directory's GLSL shaders to SPIR-V with glslangValidator.

Almost everything vtek observes comes from Vulkan, VMA, stb_image, Assimp,
glslang or the filesystem. This model keeps the decision logic that sits
around those calls and turns every answer from a foreign call (a `VkResult`, a
queue family's properties, a surface's capabilities, a format's features, a
decoded image's size, an `aiScene`, whether a file exists) into a parameter.
Each source file becomes one module:

- `Vk`, `Wrappers`: Vulkan enumerant values, an `Option` for nullable
  pointers and `std::optional`, and unsigned 32-bit wrap-around.
- `Swapchain`, `FrameSync`, `Submission`: swapchain configuration, the
  frame-in-flight ring and the bounded semaphore lists of a submission.
- `Formats`, `FormatSupport`, `ImageFormats`: the per-format detail table,
  the packed property mask of `SupportedFormat`, and the format searches.
- `PhysicalDevices`, `Devices`, `Queues`: queue-family scans, device
  suitability and weighting, and queue planning at device creation.
- `Framebuffers`, `GraphicsPipelines`, `Images`, `DescriptorTypes`,
  `DescriptorSetLayouts`, `DescriptorPools`, `DescriptorSets`,
  `CommandBuffers`, `Samplers`, `Shaders`, `UniformData`, `VulkanTypes`:
  validators and enum/flag translators, and the lifecycle guards of command
  buffers.
- `HostAllocators`, `Input`, `Types`, `VulkanVersion`: the host object
  pools and their registry, the keyboard map, small value types and the
  packed Vulkan version.
- `FileIo`, `ImageFiles`, `ImgUtils`, `ImgLoad`, `Models`: file-mode flags,
  image-type classification and image loading, and scene-graph traversal.
- `BuildShaders`: the shader build script.

Code that updates state in place is modelled by classes whose methods change
their fields (`modifies`) and state the new state in full. Pure rules are
functions, with lemmas relating them to an independent description of what
they promise.

## Model

| member | source | states |
|---|---|---|
| VulkanTypes.GetMultisampleCount | src/vtek_vulkan_types.cpp:7-22 | none gives 1 sample and msaa_xN gives N samples (the table entry at the enumerator's position); any other value falls back to 1 sample; the result is always a Vulkan sample count |
| VulkanTypes.MultisampleCountIncreasing | src/vtek_vulkan_types.cpp:11-17 | for listed values, a later enumerator asks for strictly more samples, and only a later one does |
| VulkanTypes.SampleCountsIncreasing | src/vtek_vulkan_types.cpp:11-17 | the sample counts the switch returns, in enumerator order, are strictly increasing |
| Queues.DefaultQueue | src/impl/vtek_queue_struct.hpp:7-13 | a default queue has a null handle, family index UINT32_MAX, no flags and no present support |
| Queues.GetFamilyIndex | src/vtek_queue.cpp:26-29 | the family index of a default queue is UINT32_MAX |
| Queues.IsSameFamily | src/vtek_queue.cpp:21-24 | queue_is_same_family compares the family indices; SameFamilyIsEquivalence shows it is an equivalence that agrees with queue_get_family_index |
| Queues.SameFamilyIsEquivalence | src/vtek_queue.cpp:21-29 | queue_is_same_family is reflexive, symmetric and transitive, and holds exactly when queue_get_family_index agrees |
| Queues.GetSharingModeAsWritten | src/vtek_queue.cpp:14-19 | as written: CONCURRENT exactly when the two queues are of the same family |
| Queues.GetSharingMode | src/vtek_queue.cpp:14-19 | EXCLUSIVE exactly for queues of one family, the rule the swapchain applies to its graphics and present queues |
| Queues.SharingModeAsWrittenIsInverted | src/vtek_queue.cpp:14-19 | for every pair of queues the written function returns the opposite of the swapchain's sharing rule |
| Queues.SupportsGraphics | src/vtek_queue.cpp:48-51 | queue_supports_graphics tests the family's GRAPHICS bit; false for a default queue (DefaultQueueSupportsNothing) |
| Queues.SupportsPresent | src/vtek_queue.cpp:53-56 | queue_supports_present returns the stored presentation support; false for a default queue (DefaultQueueSupportsNothing) |
| Queues.SupportsCompute | src/vtek_queue.cpp:58-61 | queue_supports_compute tests the family's COMPUTE bit; false for a default queue (DefaultQueueSupportsNothing) |
| Queues.SupportsSparseBinding | src/vtek_queue.cpp:63-66 | queue_supports_sparse_binding tests the family's SPARSE_BINDING bit; false for a default queue (DefaultQueueSupportsNothing) |
| Queues.DefaultQueueSupportsNothing | src/vtek_queue.cpp:48-66 | a default queue supports neither graphics, compute, sparse binding nor presentation |
| FrameSync.NextFrame | src/vtek_frame_sync.cpp:84-88 | the next index is below numFramesInFlight: one more than the current index, or 0 after the last frame |
| FrameSync.AdvanceFramesWraps | src/vtek_frame_sync.cpp:84-88 | k <= n consecutive end_frame calls from a valid index land on i + k, wrapped once past n |
| FrameSync.FullCycleReturns | src/vtek_frame_sync.cpp:84-88 | numFramesInFlight consecutive end_frame calls bring the frame index back to where it started |
| FrameSync.FrameSync.EndFrame | src/vtek_frame_sync.cpp:84-88 | frame_sync_end_frame advances currentFrameIndex modulo numFramesInFlight, keeps it valid and changes nothing else |
| UniformData.LayoutOf | src/vtek_uniform_data.cpp:36-52 | every listed uniform struct is 16-byte aligned, its size is a positive multiple of 16, and each member offset is aligned and inside the struct |
| UniformData.GetUniformBufferSize | src/vtek_uniform_data.cpp:10-29 | vec3 is 16 bytes, mat4 64, mat4_vec4 80 and point_light 32; any other value gives 0, and only those do; every size is a multiple of 16 |
| UniformData.Mat4Vec4ExtendsMat4 | src/vtek_uniform_data.cpp:40-52 | Uniform_m4_v4 is Uniform_m4 plus one 16-byte vector starting at offset 64; the point light's second vector ends the struct |
| Types.DefaultFloatRange | include/vtek/vtek_types.hpp:33 | the default FloatRange is [0, 0] |
| Types.MakeFloatRange | include/vtek/vtek_types.hpp:34-37 | fmin <= fmax, and the pair {fmin, fmax} is the pair of arguments |
| Types.FloatRangeSymmetric | include/vtek/vtek_types.hpp:34-37 | the two-argument constructor does not depend on the order of its arguments |
| Types.FloatClamp | include/vtek/vtek_types.hpp:49-51 | a value inside [Min, Max] is kept, one below Min becomes Min, one not below Min but above Max becomes Max, and for Min <= Max the result lies in the range |
| Types.FloatClampIdempotent | include/vtek/vtek_types.hpp:49-51 | clamping a clamped value changes nothing |
| Types.VulkanBool.constructor | include/vtek/vtek_types.hpp:60 | the constructor stores the given value |
| Types.VulkanBool.Assign | include/vtek/vtek_types.hpp:61 | assignment replaces the stored value |
| Types.VulkanBool.Get | include/vtek/vtek_types.hpp:62 | get is VK_TRUE (1) exactly when the value is true and VK_FALSE (0) exactly when it is false |
| VulkanVersion.FromApi | include/vtek/vtek_vulkan_version.hpp:14-19 | the packed version is kept, and the decoded major, minor and patch fit their 7, 10 and 12 bits |
| VulkanVersion.FromTriple | include/vtek/vtek_vulkan_version.hpp:20-23 | the triple is kept; when each part fits its field, the packed version has variant 0 and decodes back to the triple |
| VulkanVersion.TripleRoundTrip | include/vtek/vtek_vulkan_version.hpp:14-23 | packing a triple that fits and decoding the result gives back the same version |
| VulkanVersion.ApiRoundTrip | include/vtek/vtek_vulkan_version.h:12-21 | decoding a packed version and packing the parts again gives back the original exactly when its variant is 0 |
| Input.KeysFitMap | include/vtek/vtek_input.hpp:13-28 | every KeyboardKey enumerator value is a valid index into the 128-entry map |
| Input.KeyboardMap.constructor | include/vtek/vtek_input.hpp:36-39 | a new keyboard map owns a fresh array of kSize = 128 entries |
| Input.KeyboardMap.PressKey | include/vtek/vtek_input.hpp:41-43 | press_key sets the key's entry and leaves every other entry unchanged |
| Input.KeyboardMap.ReleaseKey | include/vtek/vtek_input.hpp:44-46 | release_key clears the key's entry and leaves every other entry unchanged |
| Input.KeyboardMap.GetKey | include/vtek/vtek_input.hpp:47-49 | get_key reads the key's entry |
| Input.KeyboardMap.Reset | include/vtek/vtek_input.hpp:50-52 | after reset all 128 entries are false, so no key reads as pressed |
| Submission.SubmitInfo.constructor | include/vtek/vtek_submit_info.hpp:56-62 | a new SubmitInfo has no signal or wait semaphores, all wait stages 0 and a null post-signal fence |
| Submission.SubmitInfo.SetPostSignalFence | include/vtek/vtek_submit_info.hpp:16 | the fence is replaced and nothing else changes |
| Submission.SubmitInfo.AddSignalSemaphore | include/vtek/vtek_submit_info.hpp:17-20 | below kMaxSemaphores (4) the semaphore is appended to the signal list; at the limit it is silently dropped; the wait lists and the fence never change |
| Submission.SubmitInfo.AddWaitSemaphore | include/vtek/vtek_queue_submit_info.hpp:20-25 | below kMaxSemaphores the semaphore and its stage are appended together; at the limit both are dropped; the signal list and the fence never change |
| Submission.SubmitInfo.PostSignalFence | include/vtek/vtek_submit_info.hpp:29-32 | returns the fence last set |
| Submission.SubmitInfo.NumSignalSemaphores | include/vtek/vtek_submit_info.hpp:34-37 | the number of signal semaphores added, never more than 4 |
| Submission.SubmitInfo.SignalSemaphores | include/vtek/vtek_queue_submit_info.hpp:30-33 | the signal array, or null exactly when none was added |
| Submission.SubmitInfo.NumWaitSemaphores | include/vtek/vtek_submit_info.hpp:43-46 | the number of wait semaphores added, equal to the number of wait stages and never more than 4 |
| Submission.SubmitInfo.WaitSemaphores | include/vtek/vtek_submit_info.hpp:47-50 | the wait array, or null exactly when none was added |
| Submission.SubmitInfo.WaitPipelineStages | include/vtek/vtek_submit_info.hpp:51-54 | the stage array, or null exactly when no wait semaphore was added |
| DescriptorTypes.InlineUniformBlockGateMeaning | src/vtek_descriptor_type.cpp:39-61 | for a device version of major 1 or more, the inline-uniform-block test passes exactly for version 1.3 or later |
| DescriptorTypes.GetDescriptorType | src/vtek_descriptor_type.cpp:11-88 | each core type maps to its VkDescriptorType value; inline_uniform_block maps only when the version test passes; acceleration_structure maps to the KHR value; any other value gives nullopt |
| DescriptorTypes.ListedTypesResolve | src/vtek_descriptor_type.cpp:14-67 | every listed type other than inline_uniform_block resolves, whatever the device version |
| DescriptorTypes.GetDescriptorTypeInjective | src/vtek_descriptor_type.cpp:14-67 | two types that resolve to the same VkDescriptorType are the same type |
| Samplers.GetAddressMode | src/vtek_sampler.cpp:19-46 | the four basic modes map to their Vulkan values; mirror_clamp_to_edge maps to itself on a device version (major, minor) of at least (1, 2) and to REPEAT below it; the result is a valid address mode |
| Samplers.AddressModeFallback | src/vtek_sampler.cpp:19-46 | the result is REPEAT exactly for repeat, an unlisted mode, or mirror_clamp_to_edge below 1.2, and MIRROR_CLAMP_TO_EDGE exactly for that mode from 1.2 on |
| Samplers.SamplerCreate | src/vtek_sampler.cpp:51-93 | the create info gets linear or nearest filters as asked, one address mode for U, V and W, bias 0, anisotropy enabled exactly as asked and a maximum anisotropy clamped to [0, 16]; no sampler is returned |
| Shaders.GetShaderStage | src/vtek_shaders.cpp:19-71 | 0 exactly for a value outside the enumeration; every single stage gives one flag bit; every result lies within VK_SHADER_STAGE_ALL |
| Shaders.GetShaderStageGraphics | src/vtek_shaders.cpp:73-92 | a result inside VK_SHADER_STAGE_ALL_GRAPHICS, 0 exactly for a value outside the enumeration |
| Shaders.GetShaderStageRayTracing | src/vtek_shaders.cpp:94-115 | a result with no bit of VK_SHADER_STAGE_ALL_GRAPHICS, 0 exactly for a value outside the enumeration |
| Shaders.TablesAgree | src/vtek_shaders.cpp:19-115 | the graphics and ray-tracing tables give the same flag bit as the general stage table for the same stage |
| Shaders.GraphicsStageBits | src/vtek_shaders.cpp:73-92 | each listed graphics stage is one bit inside ALL_GRAPHICS, distinct stages have disjoint bits, and 0 is returned exactly for an unlisted value |
| Shaders.RayTracingStageBits | src/vtek_shaders.cpp:94-115 | each listed ray-tracing stage is one bit outside ALL_GRAPHICS, distinct stages have disjoint bits, and 0 is returned exactly for an unlisted value |
| Shaders.GraphicsStageFlagsMembership | src/vtek_shaders.cpp:73-92 | in the OR of a list of graphics stages' bits, a stage's bit is set exactly when the stage is in the list |
| DescriptorPools.PoolFlagsMeaning | src/vtek_descriptor_pool.cpp:35-52 | the pool flags carry FREE_DESCRIPTOR_SET exactly when individual free is allowed, UPDATE_AFTER_BIND exactly when update-after-bind is allowed, and no other bit |
| DescriptorPools.AccumulateMeaning | src/vtek_descriptor_pool.cpp:54-78 | the pool-size loop succeeds exactly when every descriptor type resolves; it then yields one pool size per type, in order, and maxSets is the uint32 sum of the counts |
| DescriptorPools.NoneStaysNone | src/vtek_descriptor_pool.cpp:59-70 | once a type fails to resolve, the whole loop fails, whatever follows |
| DescriptorPools.DescriptorPool.constructor | src/vtek_descriptor_pool.cpp:15-21 | a new pool has a null handle and neither flag |
| DescriptorPools.DescriptorPool.Handle | src/vtek_descriptor_pool.cpp:111-114 | descriptor_pool_get_handle returns the pool's handle |
| DescriptorPools.DescriptorPool.AllocSet | src/vtek_descriptor_pool.cpp:134-162 | on VK_SUCCESS a new descriptor set holding the allocated handle and no pending writes; otherwise null |
| DescriptorPools.PoolCreateFlags | src/vtek_descriptor_pool.cpp:35-52 | the flags computed step by step are the pool flags of the two requests |
| DescriptorPools.PoolCreateInfoFor | src/vtek_descriptor_pool.cpp:32-84 | a create info exists exactly when every type resolves, and then holds the pool flags, maxSets and pool sizes of the accumulation |
| DescriptorPools.DescriptorPoolCreate | src/vtek_descriptor_pool.cpp:26-97 | a pool is returned exactly when every type resolves and vkCreateDescriptorPool succeeds; it holds the new handle and records both requests |
| DescriptorPools.DescriptorPoolDestroy | src/vtek_descriptor_pool.cpp:99-109 | a non-null pool's handle is reset; its flags are kept |
| DescriptorPools.DescriptorPoolFreeSet | src/vtek_descriptor_pool.cpp:164-182 | nothing happens for a null pool or set, or when the pool does not allow individual free; otherwise the set's handle is reset and its pending writes kept |
| DescriptorSets.DescriptorSet.constructor | src/vtek_descriptor_pool.cpp:158-159 | a new set has the given handle and no pending image, buffer or write entries |
| DescriptorSets.DescriptorSet.Handle | src/vtek_descriptor_set.cpp:18-21 | descriptor_set_get_handle returns the set's handle |
| DescriptorSets.DescriptorSet.Update | src/vtek_descriptor_set.cpp:23-34 | after the update the pending writes and buffer infos are cleared; the image infos and the handle are kept |
| DescriptorSets.DescriptorSet.BindCombinedImage2DSampler | src/vtek_descriptor_set.cpp:46-72 | one image info (layout, view, sampler) and one write (this set, the binding, element 0, count 1, COMBINED_IMAGE_SAMPLER, pointing at that image info) are appended; buffer infos unchanged; returns true |
| DescriptorSets.DescriptorSet.BindUniformBuffer | src/vtek_descriptor_set.cpp:95-124 | one buffer info (buffer, offset 0, range the uniform type's size) and one UNIFORM_BUFFER write pointing at it are appended; image infos unchanged; returns true |
| DescriptorSets.DescriptorSet.BindNotImplemented | src/vtek_descriptor_set.cpp:39-44 | the binders that are not implemented return false |
| DescriptorSetLayouts.ResolveBindings | src/vtek_descriptor_set_layout.cpp:26-69 | the binding loop succeeds exactly when every binding's type resolves and none asks for update-after-bind on an input attachment or dynamic buffer; it then yields one Vulkan binding per binding, in order, and reports whether any binding asked for update-after-bind |
| DescriptorSetLayouts.BindingFlagsFor | src/vtek_descriptor_set_layout.cpp:87-98 | one binding flag per binding, UPDATE_AFTER_BIND exactly for the bindings that ask for it |
| DescriptorSetLayouts.LayoutCreateInfoFor | src/vtek_descriptor_set_layout.cpp:26-113 | a create info exists exactly when every binding is accepted; binding flags are chained, and the UPDATE_AFTER_BIND_POOL flag set, exactly when some binding asks for update-after-bind and the version test passes; otherwise the flags are 0 |
| DescriptorSetLayouts.DescriptorSetLayoutCreate | src/vtek_descriptor_set_layout.cpp:17-125 | a layout is returned exactly when every binding is accepted and vkCreateDescriptorSetLayout succeeds |
| DescriptorSetLayouts.DynamicUniformBufferRejectsUpdateAfterBind | src/vtek_descriptor_set_layout.cpp:46-57 | a dynamic uniform buffer binding that asks for update-after-bind is always refused |
| CommandBuffers.CommandBuffer.constructor | src/vtek_command_buffer.cpp:23-35 | a new command buffer has null handles, state invalid, no reset support and is primary |
| CommandBuffers.CommandBuffer.Reset | src/vtek_command_buffer.cpp:134-165 | reset fails from the pending state, succeeds at once from the initial state, fails without reset support, and otherwise succeeds exactly when vkResetCommandBuffer does; Vulkan is called only in that last case |
| CommandBuffers.CommandBuffer.Free | src/vtek_command_buffer.cpp:167-179 | free succeeds exactly when the buffer is not pending |
| CommandBuffers.CommandBuffer.Begin | src/vtek_command_buffer.cpp:181-242 | begin fails from pending or invalid and for a secondary buffer, and otherwise succeeds exactly when vkBeginCommandBuffer does; a warning is given exactly when the buffer is already recording |
| CommandBuffers.CommandBufferCreate | src/vtek_command_buffer.cpp:37-62 | as written: on a successful allocation a new buffer with the handle and the requested level, still in the invalid state and without pool or reset support; null otherwise |
| CommandBuffers.CreatedBufferNeverBegins | src/vtek_command_buffer.cpp:23-192 | a buffer in the state command_buffer_create leaves it in can never begin recording, and cannot be reset either |
| CommandBuffers.CommandBufferCreateInitial | src/vtek_command_buffer.cpp:37-62 | corrected: a freshly allocated buffer is in the initial state, as Vulkan defines for a newly allocated command buffer |
| CommandBuffers.InitialBufferBegins | src/vtek_command_buffer.cpp:134-242 | a primary buffer in the initial state begins exactly when vkBeginCommandBuffer succeeds, and resets at once without calling Vulkan |
| CommandBuffers.CommandBufferCreateBatch | src/vtek_command_buffer.cpp:64-103 | on success createCount distinct new buffers, each holding its handle, the pool's handle, the pool's reset support and the requested level; no buffers when allocation fails, which is how the model reads the ill-formed failure path |
| CommandBuffers.CommandBufferDestroyBatch | src/vtek_command_buffer.cpp:110-132 | read as the evident intent of an ill-formed body: the handles of all buffers are freed together on the first buffer's pool, in order; afterwards each buffer has null handles and the not-allocated state |
| GraphicsPipelines.StateIndex | src/vtek_graphics_pipeline.cpp:23-77 | each dynamic state has a position in the order the source tests the flags |
| GraphicsPipelines.StateIndexOfDeclared | src/vtek_graphics_pipeline.cpp:23-77 | the position of the k-th checked state is k, so the checked states are all different |
| GraphicsPipelines.GateAsWrittenRejects2_0 | src/vtek_graphics_pipeline.cpp:45-79 | version 2.0 is at least 1.3, yet the written test (major >= 1 and minor >= 3) rejects it, while the corrected test accepts it |
| GraphicsPipelines.GateMonotone | src/vtek_graphics_pipeline.cpp:45-79 | the corrected test holds for every version at least as new as one it holds for, and agrees with the written test on every 1.x version |
| GraphicsPipelines.EnabledBelow | src/vtek_graphics_pipeline.cpp:23-77 | the states pushed while testing the first n flags number at most n |
| GraphicsPipelines.EnabledBelowStep | src/vtek_graphics_pipeline.cpp:23-77 | testing one more flag appends its state exactly when the flag is set and, for a 1.3 state, the version test passed |
| GraphicsPipelines.EnabledBelowMembership | src/vtek_graphics_pipeline.cpp:23-77 | a state is among those pushed for the first n flags exactly when it is one of them, its flag is set and it is allowed by the version test |
| GraphicsPipelines.EnabledBelowOrdered | src/vtek_graphics_pipeline.cpp:23-77 | the states come out in the order the source tests them |
| GraphicsPipelines.EnabledStatesMeaning | src/vtek_graphics_pipeline.cpp:13-80 | a state is enabled exactly when its flag is set and it is a 1.0 state or the version test passed; no state is enabled twice |
| GraphicsPipelines.UngatedStopsAtCore | src/vtek_graphics_pipeline.cpp:45-78 | when the version test fails, only the nine Vulkan 1.0 states can be enabled |
| GraphicsPipelines.GetEnabledDynamicStates | src/vtek_graphics_pipeline.cpp:13-80 | the states pushed by the loop of flag tests are the enabled states for the flags and the version test as written; for major version 1 these are the states the corrected test enables |
| GraphicsPipelines.GraphicsPipelineCreateInfoFor | src/vtek_graphics_pipeline.cpp:84-163 | nothing without a viewport state; otherwise the dynamic states are the ones enabled under the version test as written, their count is recorded, the pointer is set exactly when there is at least one, and the rendering info is chained exactly for dynamic rendering |
| Framebuffers.ValidateFramebufferInfo | src/vtek_framebuffer.cpp:37-78 | the info is accepted exactly when it has an attachment, a non-zero resolution, valid color formats, a valid depth/stencil format when one is used, and a render pass or dynamic rendering |
| Framebuffers.MsaaQuery | src/vtek_framebuffer.cpp:219-233 | the query asks for color exactly when there are color attachments, and for depth or stencil exactly when the depth/stencil format has that aspect |
| Framebuffers.ClampSampleCount | src/vtek_framebuffer.cpp:235-244 | the requested count is lowered to the supported one when it exceeds it: the result is one of the two and at most both, and stays a valid sample count |
| Framebuffers.AttachmentSamples | src/vtek_framebuffer.cpp:219-245 | the attachments' sample count never exceeds the requested count nor any limit of the aspects the attachments have |
| Framebuffers.AttachmentSamplesIsSampleCount | src/vtek_framebuffer.cpp:234-245 | with valid device limits the chosen count is a valid sample count |
| Framebuffers.MixedFamiliesSnoc | src/vtek_framebuffer.cpp:265-278 | after pushing a queue, the queues mix families exactly when they did before or the new queue's family differs from an earlier one |
| Framebuffers.ChooseSharingMode | src/vtek_framebuffer.cpp:250-279 | with no sharing queues the image is exclusive to the graphics queue, and creation fails without one; otherwise it is shared by exactly the given queues, concurrently exactly when they come from more than one family |
| Framebuffers.DepthStencilAspects | src/vtek_framebuffer.cpp:305-318 | the depth/stencil view asks for the depth aspect exactly when the format has depth, for stencil exactly when it has stencil, and for nothing else |
| Framebuffers.DepthStencilViewAspects | src/vtek_framebuffer.cpp:305-318 | the depth/stencil view's aspect mask holds depth and stencil exactly as the format has them, nothing else, and is not empty for a depth/stencil format |
| Framebuffers.Framebuffer.constructor | src/vtek_framebuffer.cpp:23-32 | a new framebuffer has a null handle, no attachments, resolution 1x1, queue family 0 and is not dynamic-rendering-only |
| Framebuffers.Framebuffer.Destroy | src/vtek_framebuffer.cpp:365-389 | afterwards no color attachments, no depth/stencil attachment and a null handle; the other fields are kept |
| Framebuffers.Framebuffer.AttachColorImages | src/vtek_framebuffer.cpp:283-299 | succeeds exactly when every color image was created, and then holds one attachment per color attachment info, in order, with that image and format; on failure the framebuffer is destroyed and holds none |
| Framebuffers.Framebuffer.Complete | src/vtek_framebuffer.cpp:301-360 | succeeds exactly when the depth/stencil image exists when needed and a Vulkan handle was created unless rendering is dynamic-only; then the depth/stencil attachment, resolution, queue family, dynamic-only flag and handle are set from the info |
| Framebuffers.Framebuffer.IsDynamicRenderingOnly | src/vtek_framebuffer.cpp:391-394 | reports the dynamic-rendering-only flag |
| Framebuffers.Framebuffer.ColorFormats | src/vtek_framebuffer.cpp:486-496 | one format per color attachment, in order, each that attachment's format |
| Framebuffers.Framebuffer.DepthStencilFormat | src/vtek_framebuffer.cpp:498-508 | undefined without a depth/stencil attachment, otherwise its format |
| Framebuffers.AttachmentImageSetting | src/vtek_framebuffer.cpp:209-279 | the image settings exist exactly when the info is valid, its depth/stencil format is a depth/stencil format and a graphics queue is available when needed; the sample count is the clamped one and the sharing is as ChooseSharingMode states |
| Framebuffers.CreateFramebuffer | src/vtek_framebuffer.cpp:206-363 | a framebuffer is returned exactly when preparation succeeds, every attachment image is created and, unless dynamic-only, the Vulkan framebuffer is created; it then holds the created attachments in order, the info's resolution, the graphics queue's family and the handle |
| Images.AspectFlagsMeaning | src/vtek_image.cpp:17-104 | color, depth, stencil and metadata bits are set exactly when asked for; a plane bit only when no color and no lower plane was asked for; an empty request gives no bits |
| Images.AtMostOnePlane | src/vtek_image.cpp:17-104 | the mask never holds two plane bits |
| Images.GetImageAspectFlags | src/vtek_image.cpp:17-104 | the flags built step by step are the aspect flags of the request |
| Images.LoadSharing | src/vtek_image.cpp:247-257 | exclusive exactly when the transfer queue and the graphics queue share a family; otherwise concurrent between exactly those two queues |
| Images.Image2DCreate | src/vtek_image.cpp:157-191 | no image without an allocator, when allocation fails, or when a requested view cannot be created; otherwise the image has the allocated handle and a view exactly when one was requested |
| Images.ColorOnlyAspects | src/vtek_image.cpp:262 | the color-only request gives exactly the color aspect |
| HostAllocators.HostAllocatorRegistry.constructor | src/vtek_host_allocator.cpp:14-19 | the registry starts out absent and empty |
| HostAllocators.HostAllocatorRegistry.Initialize | src/vtek_host_allocator.cpp:14-19 | afterwards a registry exists, empty, and true is returned |
| HostAllocators.HostAllocatorRegistry.Register | src/vtek_host_allocator.cpp:37-40 | the allocator is appended after those registered before |
| HostAllocators.HostAllocatorRegistry.Destroy | src/vtek_host_allocator.cpp:21-35 | without a registry nothing happens; otherwise one warning per allocator with live objects, in registration order, and the registry is released |
| HostAllocators.UnfreedMembership | src/vtek_host_allocator.cpp:21-35 | an allocator is warned about exactly when it reports live objects; never more warnings than allocators |
| HostAllocators.IdHostAllocator.constructor | src/impl/vtek_host_allocator.hpp:43-46 | an empty pool, the id counter at 0, and the allocator registered under its title |
| HostAllocators.IdHostAllocator.NumAllocationsBound | src/impl/vtek_host_allocator.hpp:43-73 | there are never more live objects than ids issued |
| HostAllocators.IdHostAllocator.NumAllocations | src/impl/vtek_host_allocator.hpp:48 | GetNumAllocations: the number of live objects in the pool, never more than the ids issued (NumAllocationsBound) |
| HostAllocators.IdHostAllocator.Alloc | src/impl/vtek_host_allocator.hpp:49-61 | the new id is the counter's value, not live before; the pool gains exactly a default object under it and the counter moves past it |
| HostAllocators.IdHostAllocator.Free | src/impl/vtek_host_allocator.hpp:62-69 | the id is removed; an invalid free is reported exactly when it was not live; ids are never reused |
| HostAllocators.IdHostAllocator.Clear | src/impl/vtek_host_allocator.hpp:70-73 | no live objects remain and the counter is kept |
| HostAllocators.IdsBound | src/impl/vtek_host_allocator.hpp:49-61 | a set of ids all below the counter has at most that many members |
| HostAllocators.VectorHostAllocator.Registered | src/impl/vtek_host_allocator.h:34-37 | an empty pool, registered under its title |
| HostAllocators.VectorHostAllocator.Unregistered | include/vtek/vtek_host_allocator.h:27-28 | an empty pool, not registered |
| HostAllocators.VectorHostAllocator.NumAllocations | src/impl/vtek_host_allocator.h:40-52 | the number of objects equals the number of allocs since the last clear |
| HostAllocators.VectorHostAllocator.Alloc | src/impl/vtek_host_allocator.h:40-52 | one default object is appended and the result refers to it |
| HostAllocators.VectorHostAllocator.Free | include/vtek/vtek_host_allocator.h:31-43 | free changes nothing |
| HostAllocators.VectorHostAllocator.Clear | src/impl/vtek_host_allocator.h:40-52 | the pool is emptied |
| FileIo.ReadFileModeFlags | src/vtek_fileio.cpp:85-127 | zero exactly for read with write or write with both trunc and append; otherwise in for read, out for write without read, trunc over append only when writing, binary when asked, ate always, and no other bit |
| FileIo.FileOpen | src/vtek_fileio.cpp:189-217 | the path is examined exactly when the flags translate, and no file is ever returned |
| BuildShaders.PathJoin | shaders/build_shaders.py:30-37 | the directory and the name, separated by a slash unless the directory already ends in one |
| BuildShaders.SplitExt | shaders/build_shaders.py:15 | the root and the extension put back together give the path, and a non-empty extension starts with a dot |
| BuildShaders.OutputPathReplacesExtension | shaders/build_shaders.py:15-16 | a file named stem.word compiles to stem.spv |
| BuildShaders.SplitOnSpace | shaders/build_shaders.py:9-19 | str.split(' ') always yields at least one piece |
| BuildShaders.SplitWord | shaders/build_shaders.py:9-19 | a word without spaces splits into itself alone |
| BuildShaders.SplitWordSpace | shaders/build_shaders.py:9-19 | a space-free word followed by a space splits off as the first piece |
| BuildShaders.SplitJoinWords | shaders/build_shaders.py:9-19 | words without spaces, joined by single spaces, split back into the same words |
| BuildShaders.JoinWordsCons | shaders/build_shaders.py:9-19 | joining a word in front of other words puts one space between it and the rest |
| BuildShaders.OptionsSpelled | shaders/build_shaders.py:9 | the option text of the template is its words, each preceded by one space, and a trailing space before what follows |
| BuildShaders.CommandIsJoinedArgv | shaders/build_shaders.py:8-19 | the command line the script builds is the corrected argument vector joined by spaces |
| BuildShaders.ArgvIsCommandSplit | shaders/build_shaders.py:8-21 | corrected: when the stage and the paths have no spaces, the argument vector is exactly the command line split at its spaces, with glslangValidator as the program |
| BuildShaders.PosixProgramIsNotTheTool | shaders/build_shaders.py:18-21 | as written, the single command string handed over is itself the program name, spaces included, so it is never glslangValidator |
| BuildShaders.BuildShader | shaders/build_shaders.py:14-23 | the compile launched is for the file's .spv output; the call raises FileNotFoundError exactly when the launched program is not glslangValidator, which is exactly the whole-string launch as written; otherwise it returns 5 whatever the compiler reports |
| BuildShaders.BuildShaderDir | shaders/build_shaders.py:25-45 | fails with no compile when the tool or vertex.glsl is missing; otherwise vertex.glsl is compiled first; as written that compile raises and fragment.glsl is never looked at; with the argument-vector launch it succeeds exactly when fragment.glsl exists too, compiling both; never more than two compiles |
| BuildShaders.RunMain | shaders/build_shaders.py:47-79 | a usage error without --clean or a directory; None for --clean alone or a path that is not a directory; as written, an exception after one compile whenever the tool and vertex.glsl exist; otherwise 0 on success and 1 on failure |
| BuildShaders.ExitStatus | shaders/build_shaders.py:82-83 | main's value is discarded: the process exits 2 exactly on a usage error, 1 exactly on an escaped exception, and 0 whenever main returns, a failed build included |
| ImageFiles.ToLower | src/imgutils/vtek_image_load.cpp:29-30 | upper-case ASCII letters become lower-case, every other character is kept |
| ImageFiles.Lowercase | src/imgutils/vtek_image_load.cpp:29-30 | the lower-cased extension has the same length |
| ImageFiles.ClassifyExtension | src/imgutils/vtek_image_load.cpp:32-41 | jpg and jpeg are Jpg, png, tga, bmp and hdr their own type, anything else unsupported, never empty |
| ImageFiles.GetImageType | src/imgutils/vtek_image_load.cpp:24-42 | the type of the lower-cased extension; empty exactly when there is no extension |
| ImageFiles.ImageTypeIgnoresCase | src/imgutils/vtek_image_load.cpp:24-42 | an extension and its upper-cased spelling have the same type |
| ImageFiles.LoadableIffRecognised | src/imgutils/vtek_image_load.cpp:53-64 | a file's type is loadable exactly when it has an extension whose lower-cased form is recognised |
| ImgUtils.ImageLoad | src/imgutils/vtek_image_load.cpp:47-137 | succeeds exactly when the file exists, its type is loadable, it opens, it is not a 16-bit non-HDR file, it decodes and every dimension is positive; files are opened only when they exist and are loadable, PNGs with four channels requested; output is untouched before that, filled on success (float data for HDR), cleared on a bad dimension |
| ImgUtils.ChannelSize | src/imgutils/vtek_image_load.cpp:145-154 | 1 byte for 8-bit data, 2 for 16-bit, 32 for float data, the first buffer present deciding; 0 with no data |
| ImgUtils.DataSizeWraps | src/imgutils/vtek_image_load.cpp:145-154 | the size is the full product modulo 2^32, the product itself when it fits, 0 without data |
| ImgUtils.DataSize | src/imgutils/vtek_image_load.cpp:145-154 | image_load_data_get_size: the channel size (1, 2, 32 or 0 by the buffer present) times channels, width and height in uint32 arithmetic, so below 2^32 and 0 whenever a factor is 0 |
| ImgLoad.ImageLoad | src/imgload/vtek_image_load.cpp:37-103 | succeeds exactly when the file exists, its type is loadable, a nonzero channel count was asked for, it decodes and no dimension is negative; the decoder runs only after those checks; output untouched before, filled on success, cleared on a bad dimension |
| ImgLoad.DataSizeWraps | src/imgload/vtek_image_load.cpp:111-117 | the size is the full product modulo 2^32, the product when it fits, 0 when bitsPerChannel is 0 |
| ImgLoad.DataSize | src/imgload/vtek_image_load.cpp:111-117 | image_load_data_get_size: bitsPerChannel times channels, width and height in uint32 arithmetic, so below 2^32 and 0 whenever a factor is 0 |
| ImgLoad.Image2dLoadInfoAsWritten | src/vtek_image.cpp:215-219 | as written: image2d_load asks for 0 channels |
| ImgLoad.Image2dLoadAlwaysFails | src/vtek_image.cpp:215-219 | with that info image_load fails for every file and every decoder outcome |
| ImgLoad.Image2dLoadInfo | src/vtek_image.cpp:215-219 | corrected: four channels are asked for, matching the RGBA image image2d_load creates |
| ImgLoad.Image2dLoadSucceedsOnGoodFiles | src/imgload/vtek_image_load.cpp:37-103 | with the corrected info loading succeeds exactly for an existing, loadable, decodable file with non-negative dimensions |
| Models.MeshListStep | src/vtek_models.cpp:64-68 | gathering one more mesh of a node appends that mesh's positions or normals |
| Models.MeshListLengths | src/vtek_models.cpp:36-55 | over a node's meshes there are never more normals than positions, and as many when every mesh has normals and normals are loaded |
| Models.NodeLengths | src/vtek_models.cpp:57-74 | the same over a node and all its descendants |
| Models.ChildrenLengths | src/vtek_models.cpp:69-73 | over a node's children and their descendants, the normals gathered never outnumber the positions, and match them when every mesh has normals and normals are loaded |
| Models.Model.constructor | src/vtek_models.cpp:21-31 | a new model has no vertices, no normals, a zero vertex count and no buffers |
| Models.Model.VertexBuffer | src/vtek_models.cpp:220-223 | reports the vertex buffer |
| Models.Model.NormalBuffer | src/vtek_models.cpp:225-228 | reports the normal buffer |
| Models.Model.NumVertices | src/vtek_models.cpp:230-233 | reports the vertex count |
| Models.LoadSceneMesh | src/vtek_models.cpp:36-55 | the mesh's positions are appended, and its normals exactly when it has normals and normals are loaded; nothing else changes |
| Models.LoadNodeMeshes | src/vtek_models.cpp:62-68 | the positions and normals of the node's meshes are appended in the node's order |
| Models.LoadNodeChildren | src/vtek_models.cpp:69-73 | the positions and normals of each child's subtree are appended, children in order |
| Models.LoadSceneNode | src/vtek_models.cpp:57-74 | the node's own meshes are appended first, then its children's subtrees: a depth-first walk of the scene |
| Models.CreateBuffers | src/vtek_models.cpp:76-125 | succeeds exactly when the vertex buffer is created and written and, when normals are loaded and present, the normal buffer too; the normal buffer is attempted only after the vertex buffer succeeds; the region size is the positions' size |
| Models.DestroyModelBuffers | src/vtek_models.cpp:127-139 | both buffers are released; the gathered data is kept |
| Models.ModelLoadObj | src/vtek_models.cpp:144-210 | no model when the file is missing or the import fails; otherwise a model exactly when its buffers are created, with the vertex count set to the positions gathered (as uint32), a normal buffer exactly when normals were asked for and some were gathered, and the host arrays cleared |
| Models.ModelDestroy | src/vtek_models.cpp:212-218 | the model's buffers are released |
| Models.NormalUploadOverreads | src/vtek_models.cpp:107-121 | as written: a scene with one mesh with normals and one without gathers six positions and three normals, and the normal upload reads past the end of the normals |
| Models.NormalUploadSizeFits | src/vtek_models.cpp:80-121 | corrected: the normal upload's size stays within the gathered normals and equals the written size when every mesh has normals |
| Formats.DefaultDetails | src/vtek_format_support.cpp:544-557 | the default details: four 8-bit unorm channels, uncompressed, with no alpha, sRGB, blue-endian, alpha-first, depth, stencil or planar property |
| ImageFormats.GetFormatFeatures | src/imgutils/vtek_image_formats.cpp:590-672 | no feature gives no bits |
| ImageFormats.GetFormatFeaturesExact | src/imgutils/vtek_image_formats.cpp:590-672 | the translated mask covers a feature's bits exactly when that feature was requested |
| ImageFormats.StorageImageBitFromSampled | src/imgutils/vtek_image_formats.cpp:596-601 | the storage-image bit is set exactly when the sampled-image feature is requested, which is what the source tests for it |
| ImageFormats.FlagsFromTestsKnownBits | src/imgutils/vtek_image_formats.cpp:590-672 | the translation never sets a bit outside the known Vulkan feature bits |
| ImageFormats.FirstSupportedIsFirst | src/imgutils/vtek_image_formats.cpp:674-706 | nothing is found exactly when no candidate's features for the tiling cover the request; otherwise the result is the first candidate that does |
| ImageFormats.OtherTilingFindsNothing | src/imgutils/vtek_image_formats.cpp:674-706 | a tiling other than linear or optimal finds no format |
| ImageFormats.FindSupportedImageFormat | src/imgutils/vtek_image_formats.cpp:674-706 | the loop over the candidates finds exactly the first supported one, and leaves the output unchanged when there is none |
| ImageFormats.SrgbCandidates | src/imgutils/vtek_image_formats.cpp:10-50 | one sRGB candidate for one to four channels, none otherwise |
| ImageFormats.Channel1Candidates | src/imgutils/vtek_image_formats.cpp:54-154 | for a regular channel size, one candidate exactly when the storage type suits the channel size |
| ImageFormats.Channel2Candidates | src/imgutils/vtek_image_formats.cpp:157-261 | for a regular channel size, one candidate exactly when the storage type suits the channel size |
| ImageFormats.Channel3Candidates | src/imgutils/vtek_image_formats.cpp:263-377 | for a regular channel size, one candidate exactly when the storage type suits it and blue-first order is asked only for 8-bit channels |
| ImageFormats.Channel4Candidates | src/imgutils/vtek_image_formats.cpp:379-573 | for a regular channel size, one candidate exactly when the storage type suits it or it is an 8-bit packed 32-bit layout |
| ImageFormats.ColorCandidates | src/imgutils/vtek_image_formats.cpp:710-754 | no candidates for a compressed request or an out-of-range channel count; the sRGB list for an sRGB request |
| ImageFormats.GetFormatColor | src/imgutils/vtek_image_formats.cpp:710-754 | the first candidate whose optimal-tiling features cover the request, undefined when there is none, and always undefined for a compressed request |
| ImageFormats.GetFormatDepthStencilTest | src/imgutils/vtek_image_formats.cpp:758-775 | a test is reported exactly for a depth or stencil format; the depth test is reported exactly for depth formats and the stencil test exactly for stencil formats |
| FormatSupport.NumChannels | src/vtek_format_support.cpp:2503-2507 | the channel count read from the mask is between 1 and 4 |
| FormatSupport.HasAlpha | src/vtek_format_support.cpp:2509-2512 | has_alpha tests the alpha bit; for a mask the constructor packed it is the format's alpha detail (PackedMaskDecodes) |
| FormatSupport.IsSrgb | src/vtek_format_support.cpp:2514-2517 | is_srgb tests the sRGB bit; for a packed mask it is the format's sRGB detail (PackedMaskDecodes) |
| FormatSupport.IsCompressed | src/vtek_format_support.cpp:2519-2522 | is_compressed tests the compressed bit; for a packed mask it holds exactly when the format's details name a compression (PackedMaskDecodes) |
| FormatSupport.IsLinearTilingSupported | src/vtek_format_support.cpp:2524-2527 | is_linear_tiling_supported tests the tiling bit; for a packed mask it is the tiling the constructor was given (PackedMaskDecodes) |
| FormatSupport.IsBlueEndian | src/vtek_format_support.cpp:2529-2532 | is_blue_endian tests its bit; for a packed mask it is the format's blue-endian detail (PackedMaskDecodes) |
| FormatSupport.IsAlphaFirst | src/vtek_format_support.cpp:2534-2537 | is_alpha_first tests its bit; for a packed mask it is the format's alpha-first detail (PackedMaskDecodes) |
| FormatSupport.IsDepthStencil | src/vtek_format_support.cpp:2539-2542 | is_depth_stencil tests either depth or stencil bit; it equals has_depth or has_stencil for any mask (DepthStencilIsEither) |
| FormatSupport.HasDepth | src/vtek_format_support.cpp:2544-2547 | has_depth tests the depth bit; for a packed mask it is the format's depth detail (PackedMaskDecodes) |
| FormatSupport.HasStencil | src/vtek_format_support.cpp:2549-2552 | has_stencil tests the stencil bit; for a packed mask it is the format's stencil detail (PackedMaskDecodes) |
| FormatSupport.IsPlanar | src/vtek_format_support.cpp:2554-2557 | is_planar tests the planar bit; for a packed mask it is the format's planar detail (PackedMaskDecodes) |
| FormatSupport.CompressionScheme | src/vtek_format_support.cpp:2559-2562 | get_compression_scheme returns the stored scheme: none for every value the constructor as written builds (SupportedFormatForDecodes), the format's scheme for the corrected one (BuildSupportedFormat) |
| FormatSupport.StorageTypeOf | src/vtek_format_support.cpp:2564-2567 | get_storage_type returns the stored storage type, which the constructor takes from the format's details (BuildSupportedFormatAsWritten) |
| FormatSupport.Get | src/vtek_format_support.cpp:2493-2496 | get returns the stored VkFormat, which the constructor takes from its argument (BuildSupportedFormatAsWritten) |
| FormatSupport.FormatString | src/vtek_format_support.cpp:2498-2501 | get_format_string returns the name of the stored vtek format |
| FormatSupport.EqualsFormat | src/vtek_format_support.cpp:2488-2491 | operator== holds exactly for the vtek format the value was built for (BuildSupportedFormatAsWritten) |
| FormatSupport.PackedMaskDecodes | src/vtek_format_support.cpp:2443-2557 | every getter reads back from the packed mask the detail the constructor stored |
| FormatSupport.ChannelAndColourBitsDecode | src/vtek_format_support.cpp:2503-2537 | the channel count, alpha, alpha-first and sRGB getters return the format's details |
| FormatSupport.LayoutBitsDecode | src/vtek_format_support.cpp:2519-2557 | compressed, linear tiling, blue-endian and planar getters return the details and the tiling |
| FormatSupport.DepthStencilBitsDecode | src/vtek_format_support.cpp:2539-2552 | the depth and stencil getters return the details, and is_depth_stencil holds exactly when either does |
| FormatSupport.DepthStencilIsEither | src/vtek_format_support.cpp:2539-2552 | for any mask, is_depth_stencil holds exactly when has_depth or has_stencil does |
| FormatSupport.BuildSupportedFormat | src/vtek_format_support.cpp:2443-2486 | corrected: the mask packs the details, the storage type and the compression scheme are the format's, so is_compressed agrees with the compression scheme |
| FormatSupport.BuildSupportedFormatAsWritten | src/vtek_format_support.cpp:2466-2472 | as written: the mask decodes to the details, but the compression scheme is always none, so a compressed format reports compression with scheme none |
| FormatSupport.SupportedFormatForDecodes | src/vtek_format_support.cpp:2443-2486 | a supported format built, as written, for a format decodes to that format's details and reports compression scheme none |
| FormatSupport.NewSupportedFormat | src/vtek_format_support.cpp:2443-2486 | the constructor's result, as written: the format, its VkFormat, the mask of its details for the tiling, its storage type, and compression scheme none |
| FormatSupport.FindFormat | src/vtek_format_support.cpp:2353-2380 | found exactly when a request is given, the format is not undefined and the chosen tiling's features cover the requested ones; then the result is built for that format and tiling by the constructor as written, otherwise the output is untouched |
| FormatSupport.FindForRequest | src/vtek_format_support.cpp:2358-2379 | with a request and a defined format, found exactly when the tiling's features cover the request, with the same result |
| FormatSupport.FindWithFlags | src/vtek_format_support.cpp:2363-2379 | found exactly when the linear or optimal features, as the tiling says, cover the flags |
| FormatSupport.FirstSupportedFormatIsFirst | src/vtek_format_support.cpp:2382-2391 | nothing is found exactly when no format in the list is supported; otherwise the first supported one |
| FormatSupport.NoRequestFindsNothing | src/vtek_format_support.cpp:2356 | without a request no format in any list is found |
| FormatSupport.FindFormatInList | src/vtek_format_support.cpp:2382-2391 | the loop finds exactly the first supported format of the list and builds the result for it by the constructor as written; the output is untouched when there is none |
| PhysicalDevices.FirstWithRoleIsFirst | src/vtek_physical_device.cpp:64-158 | no family is chosen for a role exactly when no family has it; a chosen family has the role and no earlier one does |
| PhysicalDevices.FirstWithRoleAppend | src/vtek_physical_device.cpp:64-158 | scanning one more family keeps an earlier choice, and otherwise chooses the new family exactly when it has the role |
| PhysicalDevices.ScanGraphicsFamily | src/vtek_physical_device.cpp:68-109 | the first graphics family is recorded with its count, timestamp, sparse binding, present and compute support; later ones change nothing |
| PhysicalDevices.ScanTransferFamily | src/vtek_physical_device.cpp:114-131 | the first family with transfer but neither graphics nor compute is recorded as the separate transfer family; later ones change nothing |
| PhysicalDevices.ScanComputeFamily | src/vtek_physical_device.cpp:134-157 | the first family with compute but not graphics is recorded as the separate compute family and makes compute supported; later ones change nothing |
| PhysicalDevices.GetQueueFamilySupport | src/vtek_physical_device.cpp:45-159 | the loop over the families computes the support of the first graphics, first separate transfer and first separate compute families |
| PhysicalDevices.QueueSupportMeaning | src/vtek_physical_device.cpp:45-159 | graphics is supported exactly when some family has it, at the first such family with its queue count; compute exactly when the graphics family has it or some non-graphics family does; a separate transfer family has the transfer role; present only with a surface and a graphics family |
| PhysicalDevices.HasRequiredFeatures | src/vtek_physical_device.cpp:268-445 | the features are supported exactly when every required feature is supported |
| PhysicalDevices.LeadingAvailable | src/vtek_physical_device.cpp:214-262 | the ray tracing extensions are checked in order up to the first one missing |
| PhysicalDevices.HasRequiredExtensionSupport | src/vtek_physical_device.cpp:169-266 | supported exactly when the swapchain extension (when checked) and every ray tracing extension (when required) are available; the required list holds those checked and found, in order (RequiredExtensions); the swapchain and ray tracing flags are updated accordingly |
| PhysicalDevices.CheckQueueFamilies | src/vtek_physical_device.cpp:452-494 | the families suffice exactly when every required queue kind is supported and sparse binding, if any feature needs it, is supported by a chosen family; the required flags are recorded |
| PhysicalDevices.CheckDeviceSuitability | src/vtek_physical_device.cpp:449-507 | a device is suitable exactly when its queue families, extensions and features suffice; the queue support recorded is the one scanned, with the required flags; the required extensions and extension flags are those has_required_extension_support leaves |
| PhysicalDevices.DeviceWeight | src/vtek_physical_device.cpp:542-572 | every weight is below 255, and 0 exactly for a discrete GPU |
| PhysicalDevices.DeviceWeightOrder | src/vtek_physical_device.cpp:546-568 | discrete before integrated before CPU before virtual before other |
| PhysicalDevices.Weights | src/vtek_physical_device.cpp:543-573 | one weight per device, by device type |
| PhysicalDevices.Verdicts | src/vtek_physical_device.cpp:587-600 | one suitability verdict per device |
| PhysicalDevices.FirstInOrder | src/vtek_physical_device.cpp:589-600 | a device found in the sorted order is suitable |
| PhysicalDevices.PickPhysicalDevice | src/vtek_physical_device.cpp:525-636 | no device is picked exactly when none in the sorted order is suitable; otherwise the first suitable one in that order, carrying the queue support scanned for it with the required flags and its required extensions; its extension flags are exactly the checks the requirements ask for (ray tracing, swapchain), dynamic rendering unset |
| PhysicalDevices.FirstInOrderIsLightest | src/vtek_physical_device.cpp:575-600 | the first suitable device in weight order is suitable and no lighter device is; none is found only when no device is suitable |
| PhysicalDevices.PickIsLightestSuitable | src/vtek_physical_device.cpp:525-636 | the pick is a suitable device of the lightest weight any suitable device has, and nothing is picked only when no device is suitable |
| Devices.CreateInfoOf | src/vtek_device.cpp:130-151 | a queue create info carries the description's family and queue count |
| Devices.CreateInfosOf | src/vtek_device.cpp:130-337 | one create info per selected family: graphics, compute and transfer |
| Devices.PlanGraphicsQueue | src/vtek_device.cpp:132-211 | the graphics family's description, its maximum capped at the queue limit and its count within it; transfer goes to a second graphics-family queue when a separate one is preferred but missing, else shares the graphics queue; compute likewise; present goes to the graphics queue when it can present and is not meant for a separate compute family |
| Devices.PlanSeparateComputeQueue | src/vtek_device.cpp:213-253 | the separate compute family's description with the requested count clamped to its maximum; transfer moves there when there is no separate transfer family and no graphics; present moves there when preferred and supported |
| Devices.PlanGraphicsFamilyComputeQueue | src/vtek_device.cpp:255-304 | compute in the graphics family when graphics is not required; transfer joins it without a separate transfer family; present joins it when the graphics family can present |
| Devices.PlanSeparateTransferQueue | src/vtek_device.cpp:306-335 | the separate transfer family's description, count clamped to its maximum, without present |
| Devices.CreateQueueInfos | src/vtek_device.cpp:110-337 | a graphics family is chosen exactly when graphics is supported and required; compute exactly when needed and placed in a separate family or, without graphics, in the graphics family; a separate transfer family exactly when it exists and is preferred; each chosen description fits its family; the create infos are one per choice |
| Devices.CorrectedQueueSupport | src/vtek_physical_device.cpp:134-157 | corrected: the separate compute family's queue count is recorded |
| Devices.SeparateComputeCountAsWritten | src/vtek_device.cpp:216-246 | as written the separate compute family's maximum is never recorded, so the clamped compute queue count is always 0 |
| Devices.SeparateComputeCountExample | src/vtek_physical_device.cpp:134-157 | a device with a graphics family and a four-queue compute family reports a separate compute family with a maximum of 0 |
| Devices.CorrectedSeparateComputeCount | src/vtek_device.cpp:216-246 | with the corrected support the compute queue count is between 1 and the family's queue count |
| Devices.MaxSampleCountBit | src/vtek_device.cpp:605-613 | the highest sample count whose bit is set, 1 when none is |
| Devices.DeviceVulkanVersion | src/vtek_device.cpp:732-747 | a 1.0 instance keeps its version; otherwise the device takes the physical device's API version |
| Devices.SeparateTransferQueues | src/vtek_device.cpp:471-494 | one queue per index up to the description's count, stopping at the family's maximum, each with the fetched handle, the family, its flags and no present support |
| Devices.Device.constructor | src/vtek_device.cpp:25-52 | a new device has version 1.0.0, empty queues and sample limits of 1 |
| Devices.Device.FetchSeparateTransferQueues | src/vtek_device.cpp:471-494 | the separate transfer queues are appended to the transfer queues; nothing else changes |
| Devices.Device.SetMsaaLimits | src/vtek_device.cpp:595-617 | each limit is the highest sample count its flags allow; nothing else changes |
| Devices.Device.MaxSampleCount | src/vtek_device.cpp:958-967 | 64 lowered to every queried limit: at most each queried limit, equal to 64 or one of them, 64 when nothing is queried |
| Devices.Device.GraphicsQueue | src/vtek_device.cpp:920-924 | no graphics queue exactly when its handle is null, otherwise that queue |
| Devices.Device.PresentQueue | src/vtek_device.cpp:926-930 | no present queue exactly when its handle is null, otherwise that queue |
| Devices.Device.GraphicsPresentSameFamily | src/vtek_device.cpp:948-951 | the graphics and present queues come from one family |
| Devices.Device.ClearQueues | src/vtek_device.cpp:855-859 | the queues are reset, so neither a graphics nor a present queue is reported afterwards; nothing else changes |
| Swapchain.FirstPreferredIsFirst | src/vtek_swapchain.cpp:134-174 | no preferred surface format is found exactly when none is preferred; one found comes before any other preferred one |
| Swapchain.ChooseSurfaceFormat | src/vtek_swapchain.cpp:134-174 | the choice is one of the offered formats, and a preferred one whenever one is offered |
| Swapchain.ChoosePresentMode | src/vtek_swapchain.cpp:176-264 | FIFO or a supported mode; only mailbox or FIFO unless tearing is allowed; immediate only when tearing is allowed and vertical blank is not enforced |
| Swapchain.FirstSupportedMode | src/vtek_swapchain.cpp:176-264 | the first supported preference, FIFO when none is supported |
| Swapchain.ChoosePresentModeIsFirstPreference | src/vtek_swapchain.cpp:176-264 | the chosen mode is the first supported mode of the options' preference list |
| Swapchain.OptionsFor | src/vtek_swapchain.cpp:940-947 | tearing is allowed exactly without vsync, and the queued image is replaced exactly when low latency is prioritised |
| Swapchain.VsyncPresentMode | src/vtek_swapchain.cpp:176-264 | with vsync the mode is mailbox or FIFO, FIFO unless low latency is asked, mailbox with low latency exactly when supported; without vsync immediate whenever supported |
| Swapchain.ClampDimension | src/vtek_swapchain.cpp:266-305 | the value clamped to the surface's bounds: kept inside them, raised to the minimum, lowered to the maximum |
| Swapchain.ChooseImageExtent | src/vtek_swapchain.cpp:266-305 | the surface's current extent when it is set; otherwise the framebuffer size clamped to the surface's bounds |
| Swapchain.ChooseSwapchainLength | src/vtek_swapchain.cpp:422-447 | three images when triple buffering may be used, else two, raised to the surface minimum and lowered to its maximum when there is one |
| Swapchain.ChoosePreTransform | src/vtek_swapchain.cpp:449-488 | the identity transform when supported, otherwise the current transform |
| Swapchain.SwapchainImageUsage | src/vtek_swapchain.cpp:966-979 | color attachment always, transfer source exactly when the surface supports it, nothing else |
| Swapchain.SwapchainSharing | src/vtek_swapchain.cpp:1010-1033 | exclusive exactly when graphics and present share a family; otherwise concurrent between those two distinct families |
| Swapchain.PlanSwapchain | src/vtek_swapchain.cpp:898-1070 | vkCreateSwapchainKHR is reached and succeeds exactly when the extension is enabled, formats and present modes exist, both queues exist and creation succeeds; its settings are the chosen format, mode, extent, length, usage, sharing and transform; the image views, depth images and frame-sync objects that follow are not part of this member |
| Swapchain.TripleBufferingOnlyWithMailbox | src/vtek_swapchain.cpp:947-955 | without mailbox more than two images are used only when the surface's minimum demands them |
| Swapchain.FramesInFlightFor | src/vtek_swapchain.cpp:554 | the length minus one clamped to 1..2 in 32-bit arithmetic: always fewer frames than images when there are at least two, 2 for three or more images, and 2 for length 0 by wrap-around |
| Swapchain.WaitBeginFrameStatus | src/vtek_swapchain.cpp:1407-1432 | ok when the fence is already signalled or the wait succeeds; timeout exactly when the wait times out; never out-of-date |
| Swapchain.AcquireStatus | src/vtek_swapchain.cpp:1434-1461 | ok for success and suboptimal, out-of-date for out-of-date, an error otherwise |
| Swapchain.PresentStatus | src/vtek_swapchain.cpp:1512-1547 | ok only for success; out-of-date for out-of-date and suboptimal; an error otherwise |
| Swapchain.WaitImageReadyStatus | src/vtek_swapchain.cpp:1463-1497 | ok without a fence, when it is signalled or when the wait succeeds; timeout exactly when a fence's wait times out |
| Swapchain.Swapchain.constructor | src/vtek_swapchain.cpp:23-60 | a new swapchain of the given length with no frames in flight and no image fences |
| Swapchain.Swapchain.CreateFrameSyncObjects | src/vtek_swapchain.cpp:552-580 | the frames in flight are the length minus one, clamped; one image fence slot per image, all null when new; the created semaphores and fences are stored |
| Swapchain.Swapchain.DestroyFrameSyncObjects | src/vtek_swapchain.cpp:582-599 | no image fences, no frames in flight and frame index 0 |
| Swapchain.Swapchain.ResetFrameSyncObjectsAsWritten | src/vtek_swapchain.cpp:601-617 | as written the image fences are resized to the number of frames in flight, so with three or more images there are fewer slots than images |
| Swapchain.Swapchain.ResetFrameSyncObjects | src/vtek_swapchain.cpp:601-617 | corrected: one image fence slot per image again, frames in flight recomputed and frame index 0 |
| Swapchain.Swapchain.SetImageInUse | src/vtek_swapchain.cpp:619-630 | the image's slot holds the current frame's fence; nothing else changes |
| Swapchain.Swapchain.WaitImageReady | src/vtek_swapchain.cpp:1463-1497 | the status of waiting on the image's fence; on success the image is marked in use by the current frame, otherwise nothing changes |
| Swapchain.Swapchain.FillQueueSubmitInfo | src/vtek_swapchain.cpp:1499-1510 | the frame's render-finished semaphore is signalled, its image-available semaphore waited on at the color output stage, and its fence signalled after submission |
| Swapchain.Swapchain.PresentFrame | src/vtek_swapchain.cpp:1512-1547 | the status of presenting; on success the frame index moves to the next frame in flight, otherwise it stays |
| Swapchain.Swapchain.GetLength | src/vtek_swapchain.cpp:1372-1375 | the length field, in any state; once the swapchain is ready it equals the number of image fence slots |

## Left out

- Foreign calls: every Vulkan, VMA, glslang, stb_image, Assimp, spdlog and GLFW call, and every filesystem query. Their results are parameters of the model, so it says nothing about how they behave.
- Logging: the log messages are not modelled. Only the decision whether a warning is issued is kept, as in the host allocator registry.
- Command recording, image barriers and render-pass plumbing. These only fill Vulkan structures for foreign calls.
- Conditional compilation: every `#if defined(VK_API_VERSION_1_x)` branch is assumed to be compiled in, and so are the `VK_KHR_RAY_TRACING_PIPELINE_EXTENSION_NAME` and `VK_EXT_MESH_SHADER_EXTENSION_NAME` branches of src/vtek_shaders.cpp:39-65. Without those two, `Shaders.GetShaderStage` would give 0 for the ray-tracing, task, mesh, all_graphics and all stages.
- CommandBuffers.CommandBufferCreateBatch: the body at src/vtek_command_buffer.cpp:64-103 does not compile. Line 69 builds a `std::vector` from a raw pointer, line 87 deletes an undeclared `commandBuffer`, line 88 returns `nullptr` from a function returning a vector, and line 99 writes a `secondary` member where the struct's field is `isSecondary`. The model reads it as: one new buffer per count, an empty result when allocation fails, and `isSecondary` set from the create info.
- CommandBuffers.CommandBufferDestroyBatch: the batch destroy at src/vtek_command_buffer.cpp:110-132 is defined outside `namespace vtek` and calls `->data()` and `.reset()` on a vector, which does not compile. The model reads it as freeing the handles and resetting each buffer. The final deletion of the buffer objects and the emptying of the vector are not modelled.
- Samplers.GetAddressMode: src/vtek_sampler.cpp:31 compares the `const VulkanVersion*` returned by device_get_vulkan_version with a `VulkanVersion`, and that class has no comparison operator, so the line does not compile. The model reads it as comparing the device's (major, minor) lexicographically with (1, 2).
- get_format_details and get_format_string: `Formats.FormatDetails` and `Formats.FormatName` are the tables themselves. No per-format lemmas are stated about them (which formats have depth or stencil, each enumerator's name) because each such fact over the 239-value format type is costly for the solver. `Formats.DefaultDetails` states the defaults.
- FormatSupport.BuildSupportedFormatAsWritten: the compressed format named under Findings, bc1_rgb_unorm_block, is not proved to have compressed details in the table, for the same reason. The contract shows the discrepancy for any details whose compression is not none.
- QueryColorFormat (src/vtek_format_support.cpp:2393-2440) is a function defined inside another function and is not valid C++. It is not part of this model, nor is get_supported_depth_format.
- get_supported_features (src/vtek_format_support.cpp:2570-2573) returns a field the constructor never sets. It is not part of this model.
- get_multisample_enum, is_valid, get_shader_stage_flags and filename_get_extension are not part of this model.
- descriptor_pool_reset, the directory helpers of the file I/O module and the file I/O memory pool with its mutex are not part of this model.
- The unimplemented functions of src/vtek_frame_sync.cpp (create, destroy, the waits and the semaphore getters) have no body to model. `FrameSync.FrameSync` is built directly with a number of frames in flight.
- sampler_destroy has an empty body and is not modelled. sampler_create is modelled only up to its null return: `Samplers.SamplerCreate` states the create-info fields it fills in and that it returns no sampler.
- graphics_pipeline_create is modelled up to the point where the create info is complete, including the dynamic-state list and the viewport guard. The Vulkan creation call and its null return are not modelled.
- image2d_load: only the load info it builds and its sharing-mode choice are modelled. The upload that follows a successful load is not.
- Models: pointers into Assimp data and GPU buffers are modelled as values and as `Option`s. The floating-point vertex data is `real`.
- HostAllocators.HostAllocatorRegistry.Register requires an initialised registry. The source dereferences `sStorage` unchecked at src/vtek_host_allocator.cpp:38-41, so registering before initialisation, or after destruction, is undefined behaviour there and is not modelled.
- Host allocators: pointers returned by alloc are modelled as ids or indices into the pool. HostAllocators.VectorHostAllocator.Alloc returns `&mPool.back()` in the source, and a later push_back may reallocate the vector and invalidate every earlier pointer; an index stays valid, so the model does not capture that invalidation. The registry receives each allocator's number of live objects as input instead of calling into it.
- HostAllocators.IdHostAllocator.Alloc: the 64-bit counter `mNext` is unbounded here, so its wrap-around after 2^64 allocations is not modelled. GetNumAllocations' cast to int is not modelled either.
- Framebuffers.CreateFramebuffer requires a graphics queue whenever sharing queues are listed. The source reads the graphics queue's family at src/vtek_framebuffer.cpp:337-338 without a null check, and a missing queue there is undefined behaviour.
- ImgUtils.ImageLoad: stbi_is_hdr_from_file, stbi_is_16_bit_from_file, stbi_loadf_from_file and stbi_load_from_file (src/imgutils/vtek_image_load.cpp:95-112) are inputs: whether the file is HDR, whether it is 16-bit, whether decoding produced data, and the dimensions reported. The test at line 117, `outData->data == channels <= 0`, is ill-formed: it compares a pointer with a bool, and it looks at `data` even on the HDR branch, where only `fdata` was set. The model reads the whole test as "the decoder returned no data" (`decoded`).
- Types: `float` is modelled by `real`, without NaN, infinities or rounding.
- std::clamp with hi < lo is undefined behaviour in C++. `Wrappers.Clamp` follows the usual library implementation there, which is what Devices.SeparateComputeCountAsWritten relies on.
- BuildShaders.RunMain: `--clean` deletes nothing in the source, and it deletes nothing in the model.
- BuildShaders.BuildShader: the launch is modelled as on a POSIX system, where subprocess.call given one string without shell=True runs the program named by the whole string. The model takes it that no program of that name, spaces included, is on PATH, so the call raises FileNotFoundError. On Windows the string is parsed as a command line and the tool runs; that behaviour is the `ArgumentVector` launch.

## Findings

| source | as written | input that shows it | evidently intended | confidence | as-written member | corrected member |
|---|---|---|---|---|---|---|
| src/vtek_physical_device.cpp:134-157 | the scan of a separate compute family never stores that family's queueCount in separateComputeMaxCount, so create_queue_infos clamps the compute queue count into [1, 0] and gets 0 | one graphics family and one compute-only family of 4 queues, with 1 compute queue requested | separateComputeMaxCount is the compute family's queueCount, so the count lands in [1, min(16, 4)] | not executed | Devices.SeparateComputeCountAsWritten | Devices.CorrectedSeparateComputeCount |
| src/vtek_swapchain.cpp:601-617 | reset_frame_sync_objects resizes imagesInFlight to numFramesInFlight, which is below the swapchain length | a swapchain of length 3: 2 slots for 3 images | one imagesInFlight slot per swapchain image, as create_frame_sync_objects makes | not executed | Swapchain.Swapchain.ResetFrameSyncObjectsAsWritten | Swapchain.Swapchain.ResetFrameSyncObjects |
| src/vtek_format_support.cpp:2468-2472 | the constructor assigns `compression` to itself, so get_compression_scheme never reports the format's scheme | bc1_rgb_unorm_block | the scheme is taken from the format's details | not executed | FormatSupport.BuildSupportedFormatAsWritten | FormatSupport.BuildSupportedFormat |
| src/vtek_queue.cpp:14-19 | queue_get_sharing_mode returns concurrent for queues of the same family and exclusive for different families | any two queues | exclusive for one family, concurrent for two, the rule swapchain_create applies | not executed | Queues.GetSharingModeAsWritten | Queues.GetSharingMode |
| src/vtek_graphics_pipeline.cpp:45-79 | the Vulkan 1.3 dynamic states are enabled only when major >= 1 and minor >= 3 | a device of version 2.0 | enabled from version 1.3 on, whatever the major version | not executed | GraphicsPipelines.GateAsWrittenRejects2_0 | GraphicsPipelines.GateMonotone |
| src/vtek_command_buffer.cpp:37-62 | command_buffer_create leaves the buffer in the invalid state, from which begin always fails and reset cannot help | a buffer just returned by command_buffer_create | a newly allocated buffer is in the initial state, as section 6.1 of the Vulkan 1.3 specification describes | not executed | CommandBuffers.CreatedBufferNeverBegins | CommandBuffers.InitialBufferBegins |
| src/vtek_image.cpp:215-219 | image2d_load passes a value-initialised ImageLoadInfo whose desiredChannels is 0, which image_load rejects | any image file | a load info asking for a positive number of channels | not executed | ImgLoad.Image2dLoadAlwaysFails | ImgLoad.Image2dLoadSucceedsOnGoodFiles |
| src/vtek_models.cpp:107-121 | the normal buffer is written with the positions' region, one vec3 per position, although there may be fewer normals | one mesh of 3 vertices with normals and one of 3 without, loaded with normals: 72 bytes read from 36 | the normal upload's size is the size of the normals array | not executed | Models.NormalUploadOverreads | Models.NormalUploadSizeFits |
| shaders/build_shaders.py:18-21 | subprocess.call receives the whole command line as one string without shell=True, so on POSIX it looks for a program named by the full string | a directory holding vertex.glsl and fragment.glsl, with glslangValidator on PATH, on a POSIX system: the first compile raises FileNotFoundError, fragment.glsl is never compiled and the process exits 1 | glslangValidator runs with the command line split into separate arguments | not executed | BuildShaders.BuildShaderDir | BuildShaders.ArgvIsCommandSplit |
