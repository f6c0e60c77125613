// vtek::Sampler (src/vtek_sampler.cpp): the address-mode table and the
// VkSamplerCreateInfo fields sampler_create fills in before it gives up.
module Samplers {
  import opened Wrappers
  import opened VulkanVersion
  import opened Types

  /** vtek::SamplerAddressMode; `UnlistedMode` stands for any other value of the enum type. */
  datatype SamplerAddressMode =
    | Repeat | MirroredRepeat | ClampToEdge | ClampToBorder | MirrorClampToEdge | UnlistedMode

  /** vtek::SamplerFilterMode. */
  datatype SamplerFilterMode = Nearest | Linear

  /** VkSamplerAddressMode values. */
  const VK_SAMPLER_ADDRESS_MODE_REPEAT: nat := 0
  const VK_SAMPLER_ADDRESS_MODE_MIRRORED_REPEAT: nat := 1
  const VK_SAMPLER_ADDRESS_MODE_CLAMP_TO_EDGE: nat := 2
  const VK_SAMPLER_ADDRESS_MODE_CLAMP_TO_BORDER: nat := 3
  const VK_SAMPLER_ADDRESS_MODE_MIRROR_CLAMP_TO_EDGE: nat := 4

  /** VkFilter and VkSamplerMipmapMode values. */
  const VK_FILTER_NEAREST: nat := 0
  const VK_FILTER_LINEAR: nat := 1
  const VK_SAMPLER_MIPMAP_MODE_NEAREST: nat := 0
  const VK_SAMPLER_MIPMAP_MODE_LINEAR: nat := 1

  /** The listed modes that every Vulkan version has, in enum order. */
  const BASIC_MODES: seq<SamplerAddressMode> := [Repeat, MirroredRepeat, ClampToEdge, ClampToBorder]

  /**
   * get_address_mode: the four basic modes map to their namesakes,
   * mirror_clamp_to_edge does so only on a device of at least Vulkan 1.2 and
   * falls back to repeat otherwise, and any other value gives repeat.
   */
  function GetAddressMode(mode: SamplerAddressMode, v: Version): (r: nat)
    ensures forall k :: 0 <= k < |BASIC_MODES| && mode == BASIC_MODES[k] ==> r == k
    ensures mode.MirrorClampToEdge? ==>
      r == (if AtLeast(v, 1, 2) then VK_SAMPLER_ADDRESS_MODE_MIRROR_CLAMP_TO_EDGE
            else VK_SAMPLER_ADDRESS_MODE_REPEAT)
    ensures r <= VK_SAMPLER_ADDRESS_MODE_MIRROR_CLAMP_TO_EDGE
  {
    match mode
    case Repeat => VK_SAMPLER_ADDRESS_MODE_REPEAT
    case MirroredRepeat => VK_SAMPLER_ADDRESS_MODE_MIRRORED_REPEAT
    case ClampToEdge => VK_SAMPLER_ADDRESS_MODE_CLAMP_TO_EDGE
    case ClampToBorder => VK_SAMPLER_ADDRESS_MODE_CLAMP_TO_BORDER
    case MirrorClampToEdge =>
      if AtLeast(v, 1, 2) then VK_SAMPLER_ADDRESS_MODE_MIRROR_CLAMP_TO_EDGE
      else VK_SAMPLER_ADDRESS_MODE_REPEAT
    case UnlistedMode => VK_SAMPLER_ADDRESS_MODE_REPEAT
  }

  /**
   * Repeat is what the sampler gets exactly when repeat was asked for, the
   * value is not a listed mode, or mirror_clamp_to_edge was asked for on a
   * device older than Vulkan 1.2; every other answer is the mode asked for.
   */
  lemma AddressModeFallback(mode: SamplerAddressMode, v: Version)
    ensures GetAddressMode(mode, v) == VK_SAMPLER_ADDRESS_MODE_REPEAT <==>
      mode.Repeat? || mode.UnlistedMode? || (mode.MirrorClampToEdge? && !AtLeast(v, 1, 2))
    ensures GetAddressMode(mode, v) == VK_SAMPLER_ADDRESS_MODE_MIRROR_CLAMP_TO_EDGE <==>
      mode.MirrorClampToEdge? && AtLeast(v, 1, 2)
  {
    match mode
    case Repeat => assert mode == BASIC_MODES[0];
    case MirroredRepeat => assert mode == BASIC_MODES[1];
    case ClampToEdge => assert mode == BASIC_MODES[2];
    case ClampToBorder => assert mode == BASIC_MODES[3];
    case MirrorClampToEdge =>
    case UnlistedMode =>
  }

  /**
   * vtek::SamplerInfo; `maxAnisotropy` is the value its FloatClamp<0, 16>
   * was constructed from. The border colour and the depth compare operation
   * are not read by sampler_create.
   */
  datatype SamplerInfo = SamplerInfo(
    addressMode: SamplerAddressMode, anisotropicFiltering: bool, maxAnisotropy: real,
    minFilter: SamplerFilterMode, magFilter: SamplerFilterMode, mipmapFilter: SamplerFilterMode)

  /** The fields of VkSamplerCreateInfo that sampler_create sets. */
  datatype SamplerCreateInfo = SamplerCreateInfo(
    flags: nat, magFilter: nat, minFilter: nat, mipmapMode: nat,
    addressModeU: nat, addressModeV: nat, addressModeW: nat,
    mipLodBias: real, anisotropyEnable: nat, maxAnisotropy: real)

  /**
   * sampler_create: the create info is filled in field by field, but the
   * function reports that it is not implemented and returns no sampler.
   * The filters are linear exactly when linear filtering was requested, the
   * three address modes are the same mode, and anisotropy is enabled exactly
   * when it was requested.
   */
  method SamplerCreate(info: SamplerInfo, v: Version)
    returns (sampler: Option<nat>, createInfo: SamplerCreateInfo)
    ensures sampler.None?
    ensures createInfo.flags == 0
    ensures createInfo.magFilter == VK_FILTER_LINEAR <==> info.magFilter == Linear
    ensures createInfo.magFilter == VK_FILTER_NEAREST <==> info.magFilter == Nearest
    ensures createInfo.minFilter == VK_FILTER_LINEAR <==> info.minFilter == Linear
    ensures createInfo.minFilter == VK_FILTER_NEAREST <==> info.minFilter == Nearest
    ensures createInfo.mipmapMode == VK_SAMPLER_MIPMAP_MODE_LINEAR <==> info.mipmapFilter == Linear
    ensures createInfo.mipmapMode == VK_SAMPLER_MIPMAP_MODE_NEAREST <==> info.mipmapFilter == Nearest
    ensures createInfo.addressModeU == GetAddressMode(info.addressMode, v)
    ensures createInfo.addressModeV == createInfo.addressModeU
    ensures createInfo.addressModeW == createInfo.addressModeU
    ensures createInfo.mipLodBias == 0.0
    ensures createInfo.anisotropyEnable == 1 <==> info.anisotropicFiltering
    ensures createInfo.anisotropyEnable == 0 <==> !info.anisotropicFiltering
    ensures 0.0 <= createInfo.maxAnisotropy <= 16.0
    ensures 0.0 <= info.maxAnisotropy <= 16.0 ==> createInfo.maxAnisotropy == info.maxAnisotropy
  {
    var magFilter := if info.magFilter == Linear then VK_FILTER_LINEAR else VK_FILTER_NEAREST;
    var minFilter := if info.minFilter == Linear then VK_FILTER_LINEAR else VK_FILTER_NEAREST;
    var mipmapMode :=
      if info.mipmapFilter == Linear then VK_SAMPLER_MIPMAP_MODE_LINEAR
      else VK_SAMPLER_MIPMAP_MODE_NEAREST;
    var addrMode := GetAddressMode(info.addressMode, v);
    var anisotropy := new VulkanBool(info.anisotropicFiltering);
    createInfo := SamplerCreateInfo(0, magFilter, minFilter, mipmapMode,
      addrMode, addrMode, addrMode, 0.0, anisotropy.Get(),
      FloatClamp(0.0, 16.0, info.maxAnisotropy));
    sampler := None;
  }
}
