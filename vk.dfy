// The Vulkan enumerant values the model needs, as the Vulkan headers define
// them. Results of Vulkan calls enter the model as parameters of these types.
module Vk {
  /** VkResult. */
  type VkResult = int

  const VK_SUCCESS: VkResult := 0
  const VK_NOT_READY: VkResult := 1
  const VK_TIMEOUT: VkResult := 2
  const VK_ERROR_OUT_OF_HOST_MEMORY: VkResult := -1
  const VK_ERROR_OUT_OF_DEVICE_MEMORY: VkResult := -2
  const VK_SUBOPTIMAL_KHR: VkResult := 1000001003
  const VK_ERROR_OUT_OF_DATE_KHR: VkResult := -1000001004

  /** VkSharingMode. */
  datatype SharingMode = Exclusive | Concurrent
}
