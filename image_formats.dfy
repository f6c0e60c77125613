// src/imgutils/vtek_image_formats.cpp: the translation of vtek::FormatFeature
// flags into VkFormatFeatureFlags, the priority lists of candidate formats
// for a colour format request, the "first candidate whose features cover the
// request" search, and the depth/stencil classification of a format.
// vkGetPhysicalDeviceFormatProperties is an oracle: a function from a format
// to its properties.
module ImageFormats {
  import opened Wrappers
  import opened Formats

  /** vtek::FormatFeature, the enumerators get_format_features tests. */
  datatype FormatFeature =
      sampled_image | storage_image_atomic | uniform_texel_buffer
    | storage_texel_buffer | storage_texel_buffer_atomic | vertex_buffer
    | color_attachment | color_attachment_blend | depth_stencil_attachment
    | blit_src | blit_dst | sampled_image_filter_linear
    | transfer_src | transfer_dst | midpoint_chroma_samples
    | sampled_image_ycbcr_conv_lin_filter | sampled_image_ycbcr_conv_sep_rec_filter
    | sampled_image_ycbcr_conv_chroma_Rec_ex | sampled_image_ycbcr_conv_chroma_rec_ex_force
    | disjoint_bit | cosited_chroma_samples | sampled_image_filter_minmax

  // VkFormatFeatureFlagBits (section 34.3 "Format Properties" of the Vulkan 1.3 specification).
  const SAMPLED_IMAGE_BIT: bv32 := 0x1
  const STORAGE_IMAGE_BIT: bv32 := 0x2
  const STORAGE_IMAGE_ATOMIC_BIT: bv32 := 0x4
  const UNIFORM_TEXEL_BUFFER_BIT: bv32 := 0x8
  const STORAGE_TEXEL_BUFFER_BIT: bv32 := 0x10
  const STORAGE_TEXEL_BUFFER_ATOMIC_BIT: bv32 := 0x20
  const VERTEX_BUFFER_BIT: bv32 := 0x40
  const COLOR_ATTACHMENT_BIT: bv32 := 0x80
  const COLOR_ATTACHMENT_BLEND_BIT: bv32 := 0x100
  const DEPTH_STENCIL_ATTACHMENT_BIT: bv32 := 0x200
  const BLIT_SRC_BIT: bv32 := 0x400
  const BLIT_DST_BIT: bv32 := 0x800
  const SAMPLED_IMAGE_FILTER_LINEAR_BIT: bv32 := 0x1000
  const TRANSFER_SRC_BIT: bv32 := 0x4000
  const TRANSFER_DST_BIT: bv32 := 0x8000
  const SAMPLED_IMAGE_FILTER_MINMAX_BIT: bv32 := 0x10000
  const MIDPOINT_CHROMA_SAMPLES_BIT: bv32 := 0x20000
  const YCBCR_CONVERSION_LINEAR_FILTER_BIT: bv32 := 0x40000
  const YCBCR_CONVERSION_SEPARATE_RECONSTRUCTION_FILTER_BIT: bv32 := 0x80000
  const YCBCR_CONVERSION_CHROMA_RECONSTRUCTION_EXPLICIT_BIT: bv32 := 0x100000
  const YCBCR_CONVERSION_CHROMA_RECONSTRUCTION_EXPLICIT_FORCEABLE_BIT: bv32 := 0x200000
  const DISJOINT_BIT: bv32 := 0x400000
  const COSITED_CHROMA_SAMPLES_BIT: bv32 := 0x800000

  /** The VkFormatFeatureFlags that one vtek::FormatFeature contributes. */
  function FeatureBits(f: FormatFeature): bv32
  {
    match f
    case sampled_image => SAMPLED_IMAGE_BIT | STORAGE_IMAGE_BIT
    case storage_image_atomic => STORAGE_IMAGE_ATOMIC_BIT
    case uniform_texel_buffer => UNIFORM_TEXEL_BUFFER_BIT
    case storage_texel_buffer => STORAGE_TEXEL_BUFFER_BIT
    case storage_texel_buffer_atomic => STORAGE_TEXEL_BUFFER_ATOMIC_BIT
    case vertex_buffer => VERTEX_BUFFER_BIT
    case color_attachment => COLOR_ATTACHMENT_BIT
    case color_attachment_blend => COLOR_ATTACHMENT_BLEND_BIT
    case depth_stencil_attachment => DEPTH_STENCIL_ATTACHMENT_BIT
    case blit_src => BLIT_SRC_BIT
    case blit_dst => BLIT_DST_BIT
    case sampled_image_filter_linear => SAMPLED_IMAGE_FILTER_LINEAR_BIT
    case transfer_src => TRANSFER_SRC_BIT
    case transfer_dst => TRANSFER_DST_BIT
    case midpoint_chroma_samples => MIDPOINT_CHROMA_SAMPLES_BIT
    case sampled_image_ycbcr_conv_lin_filter => YCBCR_CONVERSION_LINEAR_FILTER_BIT
    case sampled_image_ycbcr_conv_sep_rec_filter => YCBCR_CONVERSION_SEPARATE_RECONSTRUCTION_FILTER_BIT
    case sampled_image_ycbcr_conv_chroma_Rec_ex => YCBCR_CONVERSION_CHROMA_RECONSTRUCTION_EXPLICIT_BIT
    case sampled_image_ycbcr_conv_chroma_rec_ex_force => YCBCR_CONVERSION_CHROMA_RECONSTRUCTION_EXPLICIT_FORCEABLE_BIT
    case disjoint_bit => DISJOINT_BIT
    case cosited_chroma_samples => COSITED_CHROMA_SAMPLES_BIT
    case sampled_image_filter_minmax => SAMPLED_IMAGE_FILTER_MINMAX_BIT
  }

  /** The bits of VkFormatFeatureFlags that no vtek::FormatFeature maps to. */
  const UNKNOWN_BITS: bv32 := 0xFF00_2000

  /** Bit `b` is set in `flags`. */
  predicate HasBit(flags: bv32, b: bv32)
  {
    flags & b != 0
  }

  /** Every bit of `required` is present in `available`. */
  predicate Covers(available: bv32, required: bv32)
  {
    available & required == required
  }

  /**
   * get_format_features: starts from 0 and ORs in the bits of each requested
   * flag, in the source's order. sampled_image is tested twice, so it brings
   * in both the sampled-image and the storage-image bit. The VK_API_VERSION_1_1
   * and 1_2 blocks are taken as compiled in. The tests are evaluated first and
   * the flags assembled from their outcomes by FlagsFromTests.
   */
  function GetFormatFeatures(features: set<FormatFeature>): (flags: bv32)
    ensures features == {} ==> flags == 0
  {
    FlagsFromTests(
      sampled_image in features,
      sampled_image in features,
      storage_image_atomic in features,
      uniform_texel_buffer in features,
      storage_texel_buffer in features,
      storage_texel_buffer_atomic in features,
      vertex_buffer in features,
      color_attachment in features,
      color_attachment_blend in features,
      depth_stencil_attachment in features,
      blit_src in features,
      blit_dst in features,
      sampled_image_filter_linear in features,
      transfer_src in features,
      transfer_dst in features,
      midpoint_chroma_samples in features,
      sampled_image_ycbcr_conv_lin_filter in features,
      sampled_image_ycbcr_conv_sep_rec_filter in features,
      sampled_image_ycbcr_conv_chroma_Rec_ex in features,
      sampled_image_ycbcr_conv_chroma_rec_ex_force in features,
      disjoint_bit in features,
      cosited_chroma_samples in features,
      sampled_image_filter_minmax in features)
  }

  /** The `if (test) flags |= bit;` chain of get_format_features, given the outcome of each test. */
  function FlagsFromTests(
    t0: bool, t1: bool, t2: bool, t3: bool, t4: bool, t5: bool, t6: bool, t7: bool, t8: bool, t9: bool, t10: bool, t11: bool, t12: bool, t13: bool, t14: bool, t15: bool, t16: bool, t17: bool, t18: bool, t19: bool, t20: bool, t21: bool, t22: bool): bv32
  {
    0
    | (if t0 then SAMPLED_IMAGE_BIT else 0)
    | (if t1 then STORAGE_IMAGE_BIT else 0)
    | (if t2 then STORAGE_IMAGE_ATOMIC_BIT else 0)
    | (if t3 then UNIFORM_TEXEL_BUFFER_BIT else 0)
    | (if t4 then STORAGE_TEXEL_BUFFER_BIT else 0)
    | (if t5 then STORAGE_TEXEL_BUFFER_ATOMIC_BIT else 0)
    | (if t6 then VERTEX_BUFFER_BIT else 0)
    | (if t7 then COLOR_ATTACHMENT_BIT else 0)
    | (if t8 then COLOR_ATTACHMENT_BLEND_BIT else 0)
    | (if t9 then DEPTH_STENCIL_ATTACHMENT_BIT else 0)
    | (if t10 then BLIT_SRC_BIT else 0)
    | (if t11 then BLIT_DST_BIT else 0)
    | (if t12 then SAMPLED_IMAGE_FILTER_LINEAR_BIT else 0)
    | (if t13 then TRANSFER_SRC_BIT else 0)
    | (if t14 then TRANSFER_DST_BIT else 0)
    | (if t15 then MIDPOINT_CHROMA_SAMPLES_BIT else 0)
    | (if t16 then YCBCR_CONVERSION_LINEAR_FILTER_BIT else 0)
    | (if t17 then YCBCR_CONVERSION_SEPARATE_RECONSTRUCTION_FILTER_BIT else 0)
    | (if t18 then YCBCR_CONVERSION_CHROMA_RECONSTRUCTION_EXPLICIT_BIT else 0)
    | (if t19 then YCBCR_CONVERSION_CHROMA_RECONSTRUCTION_EXPLICIT_FORCEABLE_BIT else 0)
    | (if t20 then DISJOINT_BIT else 0)
    | (if t21 then COSITED_CHROMA_SAMPLES_BIT else 0)
    | (if t22 then SAMPLED_IMAGE_FILTER_MINMAX_BIT else 0)
  }

  /** Each flag's bits are in the result exactly when the flag is requested. */
  lemma GetFormatFeaturesExact(features: set<FormatFeature>, f: FormatFeature)
    ensures Covers(GetFormatFeatures(features), FeatureBits(f)) <==> f in features
  {
    if f in {sampled_image, storage_image_atomic, uniform_texel_buffer, storage_texel_buffer,
             storage_texel_buffer_atomic, vertex_buffer, color_attachment} {
      ExactFirstGroup(features, f);
    } else if f in {color_attachment_blend, depth_stencil_attachment, blit_src, blit_dst,
                    sampled_image_filter_linear, transfer_src, transfer_dst, midpoint_chroma_samples} {
      ExactSecondGroup(features, f);
    } else {
      ExactThirdGroup(features, f);
    }
  }

  lemma ExactFirstGroup(features: set<FormatFeature>, f: FormatFeature)
    requires f in {sampled_image, storage_image_atomic, uniform_texel_buffer, storage_texel_buffer,
                   storage_texel_buffer_atomic, vertex_buffer, color_attachment}
    ensures Covers(GetFormatFeatures(features), FeatureBits(f)) <==> f in features
  {
  }

  lemma ExactSecondGroup(features: set<FormatFeature>, f: FormatFeature)
    requires f in {color_attachment_blend, depth_stencil_attachment, blit_src, blit_dst,
                   sampled_image_filter_linear, transfer_src, transfer_dst, midpoint_chroma_samples}
    ensures Covers(GetFormatFeatures(features), FeatureBits(f)) <==> f in features
  {
  }

  lemma ExactThirdGroup(features: set<FormatFeature>, f: FormatFeature)
    requires f in {sampled_image_ycbcr_conv_lin_filter, sampled_image_ycbcr_conv_sep_rec_filter,
                   sampled_image_ycbcr_conv_chroma_Rec_ex, sampled_image_ycbcr_conv_chroma_rec_ex_force,
                   disjoint_bit, cosited_chroma_samples, sampled_image_filter_minmax}
    ensures Covers(GetFormatFeatures(features), FeatureBits(f)) <==> f in features
  {
  }

  /** The storage-image bit comes from sampled_image and from nothing else. */
  lemma StorageImageBitFromSampled(features: set<FormatFeature>)
    ensures Covers(GetFormatFeatures(features), STORAGE_IMAGE_BIT) <==> sampled_image in features
  {
  }

  /** No bit outside the translated ones is ever set, whatever the tests give. */
  lemma FlagsFromTestsKnownBits(
    t0: bool, t1: bool, t2: bool, t3: bool, t4: bool, t5: bool, t6: bool, t7: bool, t8: bool, t9: bool, t10: bool, t11: bool, t12: bool, t13: bool, t14: bool, t15: bool, t16: bool, t17: bool, t18: bool, t19: bool, t20: bool, t21: bool, t22: bool)
    ensures FlagsFromTests(t0, t1, t2, t3, t4, t5, t6, t7, t8, t9, t10, t11, t12, t13, t14, t15, t16, t17, t18, t19, t20, t21, t22) & UNKNOWN_BITS == 0
  {
  }

  // ---------------------------------------------------------------------
  // Searching a priority list of candidates.

  /** VkImageTiling. */
  datatype ImageTiling = Optimal | Linear | DrmFormatModifier

  /** The part of VkFormatProperties the search reads. */
  datatype FormatProperties = FormatProperties(linearTilingFeatures: bv32, optimalTilingFeatures: bv32)

  /** The test inside the search loop: the features available for the requested tiling cover the request. */
  predicate Accepts(p: FormatProperties, tiling: ImageTiling, required: bv32)
  {
    (tiling == Linear && Covers(p.linearTilingFeatures, required))
    || (tiling == Optimal && Covers(p.optimalTilingFeatures, required))
  }

  /** The first candidate the device accepts, if any. */
  function FirstSupported(
    properties: Format -> FormatProperties, candidates: seq<Format>,
    tiling: ImageTiling, required: bv32): Option<Format>
  {
    if |candidates| == 0 then None
    else if Accepts(properties(candidates[0]), tiling, required) then Some(candidates[0])
    else FirstSupported(properties, candidates[1..], tiling, required)
  }

  /**
   * FirstSupported finds a candidate exactly when some candidate is accepted,
   * and what it finds is the earliest accepted one.
   */
  lemma {:induction false} FirstSupportedIsFirst(
    properties: Format -> FormatProperties, candidates: seq<Format>,
    tiling: ImageTiling, required: bv32)
    ensures FirstSupported(properties, candidates, tiling, required).None? <==>
      forall i :: 0 <= i < |candidates| ==> !Accepts(properties(candidates[i]), tiling, required)
    ensures FirstSupported(properties, candidates, tiling, required).Some? ==>
      exists i :: 0 <= i < |candidates|
        && candidates[i] == FirstSupported(properties, candidates, tiling, required).value
        && Accepts(properties(candidates[i]), tiling, required)
        && forall j :: 0 <= j < i ==> !Accepts(properties(candidates[j]), tiling, required)
  {
    if |candidates| > 0 && !Accepts(properties(candidates[0]), tiling, required) {
      var rest := candidates[1..];
      FirstSupportedIsFirst(properties, rest, tiling, required);
      if FirstSupported(properties, rest, tiling, required).Some? {
        var i :| 0 <= i < |rest|
          && rest[i] == FirstSupported(properties, rest, tiling, required).value
          && Accepts(properties(rest[i]), tiling, required)
          && forall j :: 0 <= j < i ==> !Accepts(properties(rest[j]), tiling, required);
        assert candidates[i + 1] == rest[i];
        assert forall j :: 0 <= j < i + 1 ==> !Accepts(properties(candidates[j]), tiling, required) by {
          forall j | 0 <= j < i + 1
            ensures !Accepts(properties(candidates[j]), tiling, required)
          {
            if j > 0 { assert candidates[j] == rest[j - 1]; }
          }
        }
      } else {
        forall i | 0 <= i < |candidates|
          ensures !Accepts(properties(candidates[i]), tiling, required)
        {
          if i > 0 { assert candidates[i] == rest[i - 1]; }
        }
      }
    }
  }

  /** Only linear and optimal tiling are ever matched; any other tiling finds nothing. */
  lemma {:induction false} OtherTilingFindsNothing(
    properties: Format -> FormatProperties, candidates: seq<Format>, required: bv32)
    ensures FirstSupported(properties, candidates, DrmFormatModifier, required) == None
  {
    if |candidates| > 0 {
      OtherTilingFindsNothing(properties, candidates[1..], required);
    }
  }

  /**
   * find_supported_image_format: walks the candidates in priority order and
   * stops at the first whose features for the requested tiling cover the
   * translated request. The output is written only on success.
   */
  method FindSupportedImageFormat(
    properties: Format -> FormatProperties, prioritizedCandidates: seq<Format>,
    tiling: ImageTiling, featureFlags: set<FormatFeature>, outFormat: Format)
    returns (found: bool, format: Format)
    ensures var first := FirstSupported(properties, prioritizedCandidates, tiling, GetFormatFeatures(featureFlags));
      found == first.Some? && format == (if found then first.value else outFormat)
  {
    var features := GetFormatFeatures(featureFlags);
    var i := 0;
    while i < |prioritizedCandidates|
      invariant 0 <= i <= |prioritizedCandidates|
      invariant FirstSupported(properties, prioritizedCandidates, tiling, features)
        == FirstSupported(properties, prioritizedCandidates[i..], tiling, features)
    {
      var candidate := prioritizedCandidates[i];
      var props := properties(candidate);
      assert prioritizedCandidates[i..][1..] == prioritizedCandidates[i + 1..];
      if tiling == Linear && Covers(props.linearTilingFeatures, features) {
        return true, candidate;
      } else if tiling == Optimal && Covers(props.optimalTilingFeatures, features) {
        return true, candidate;
      }
      i := i + 1;
    }
    return false, outFormat;
  }

  // ---------------------------------------------------------------------
  // Building the priority list for a colour format request.

  /**
   * The part of vtek::FormatInfo the model reads: the requested layout,
   * the requested features and the tiling FindFormat tests against.
   */
  datatype FormatInfo = FormatInfo(
    channels: nat, channelSize: ChannelSize, storageType: StorageType,
    swizzleBGR: bool, sRGB: bool, compression: Compression,
    features: set<FormatFeature>, linearTiling: bool)

  /** The storage types the 8-bit lists cover. */
  predicate Plain8(t: StorageType)
  {
    t in {unorm, snorm, uscaled, sscaled, uint, sint}
  }

  /** The storage types the 16-bit lists cover. */
  predicate Plain16(t: StorageType)
  {
    Plain8(t) || t == sfloat
  }

  /** The storage types the 32- and 64-bit lists cover. */
  predicate Plain32(t: StorageType)
  {
    t in {uint, sint, sfloat}
  }

  /** The packed 32-bit storage types the 8-bit four-channel list maps to A8B8G8R8 formats. */
  predicate Packed32(t: StorageType)
  {
    t in {unorm_pack32, snorm_pack32, uscaled_pack32, sscaled_pack32, uint_pack32, sint_pack32}
  }

  /** A request with a regular channel size that the channel lists have an entry for. */
  predicate RegularLayout(info: FormatInfo)
  {
    (info.channelSize == channel_8 && Plain8(info.storageType))
    || (info.channelSize == channel_16 && Plain16(info.storageType))
    || (info.channelSize in {channel_32, channel_64} && Plain32(info.storageType))
  }

  /**
   * get_format_color_srgb: the one 8-bit sRGB format with the requested
   * channel count; BGR order when swizzled, the packed ABGR format when
   * swizzled with unorm_pack32 storage.
   */
  function SrgbCandidates(info: FormatInfo): (r: seq<Format>)
    ensures |r| == (if 1 <= info.channels <= 4 then 1 else 0)
  {
    if info.channels == 1 then [r8_srgb]
    else if info.channels == 2 then [r8g8_srgb]
    else if info.channels == 3 then
      if info.swizzleBGR then [b8g8r8_srgb] else [r8g8b8_srgb]
    else if info.channels == 4 then
      if info.swizzleBGR && info.storageType == unorm_pack32 then [a8b8g8r8_srgb_pack32]
      else if info.swizzleBGR then [b8g8r8a8_srgb]
      else [r8g8b8a8_srgb]
    else []
  }

  /**
   * get_format_color_channel_1: one entry per regular size and storage type;
   * for the special size with unorm_pack16 storage the 12-bit and then the
   * 10-bit single-channel formats.
   */
  function Channel1Candidates(info: FormatInfo): (r: seq<Format>)
    ensures info.channelSize != special ==> (|r| == 1 <==> RegularLayout(info)) && |r| <= 1
  {
    if info.channelSize == channel_8 then
      (match info.storageType
        case unorm => [r8_unorm]
        case snorm => [r8_snorm]
        case uscaled => [r8_uscaled]
        case sscaled => [r8_sscaled]
        case uint => [r8_uint]
        case sint => [r8_sint]
        case _ => [])
    else if info.channelSize == channel_16 then
      (match info.storageType
        case unorm => [r16_unorm]
        case snorm => [r16_snorm]
        case uscaled => [r16_uscaled]
        case sscaled => [r16_sscaled]
        case uint => [r16_uint]
        case sint => [r16_sint]
        case sfloat => [r16_sfloat]
        case _ => [])
    else if info.channelSize == channel_32 then
      (match info.storageType
        case uint => [r32_uint]
        case sint => [r32_sint]
        case sfloat => [r32_sfloat]
        case _ => [])
    else if info.channelSize == channel_64 then
      (match info.storageType
        case uint => [r64_uint]
        case sint => [r64_sint]
        case sfloat => [r64_sfloat]
        case _ => [])
    else if info.channelSize == special then
      if info.storageType == unorm_pack16 then [r12x4_unorm_pack16, r10x6_unorm_pack16] else []
    else []
  }

  /**
   * get_format_color_channel_2: as for one channel; the special size offers
   * the 4-bit pair for unorm_pack8 and the 12-bit then 10-bit pairs for
   * unorm_pack16.
   */
  function Channel2Candidates(info: FormatInfo): (r: seq<Format>)
    ensures info.channelSize != special ==> (|r| == 1 <==> RegularLayout(info)) && |r| <= 1
  {
    if info.channelSize == channel_8 then
      (match info.storageType
        case unorm => [r8g8_unorm]
        case snorm => [r8g8_snorm]
        case uscaled => [r8g8_uscaled]
        case sscaled => [r8g8_sscaled]
        case uint => [r8g8_uint]
        case sint => [r8g8_sint]
        case _ => [])
    else if info.channelSize == channel_16 then
      (match info.storageType
        case unorm => [r16g16_unorm]
        case snorm => [r16g16_snorm]
        case uscaled => [r16g16_uscaled]
        case sscaled => [r16g16_sscaled]
        case uint => [r16g16_uint]
        case sint => [r16g16_sint]
        case sfloat => [r16g16_sfloat]
        case _ => [])
    else if info.channelSize == channel_32 then
      (match info.storageType
        case uint => [r32g32_uint]
        case sint => [r32g32_sint]
        case sfloat => [r32g32_sfloat]
        case _ => [])
    else if info.channelSize == channel_64 then
      (match info.storageType
        case uint => [r64g64_uint]
        case sint => [r64g64_sint]
        case sfloat => [r64g64_sfloat]
        case _ => [])
    else if info.channelSize == special then
      if info.storageType == unorm_pack8 then [r4g4_unorm_pack8]
      else if info.storageType == unorm_pack16 then [r12x4g12x4_unorm_2pack16, r10x6g10x6_unorm_2pack16]
      else []
    else []
  }

  /**
   * get_format_color_channel_3: the 8-bit entries follow the swizzle; the
   * wider sizes exist only in RGB order, so a swizzled request for them gets
   * no candidate; the special size offers the packed B10G11R11 float format.
   */
  function Channel3Candidates(info: FormatInfo): (r: seq<Format>)
    ensures info.channelSize != special ==>
      (|r| == 1 <==> RegularLayout(info) && (info.channelSize == channel_8 || !info.swizzleBGR)) && |r| <= 1
  {
    if info.channelSize == channel_8 then
      (match info.storageType
        case unorm => [if info.swizzleBGR then b8g8r8_unorm else r8g8b8_unorm]
        case snorm => [if info.swizzleBGR then b8g8r8_snorm else r8g8b8_snorm]
        case uscaled => [if info.swizzleBGR then b8g8r8_uscaled else r8g8b8_uscaled]
        case sscaled => [if info.swizzleBGR then b8g8r8_sscaled else r8g8b8_sscaled]
        case uint => [if info.swizzleBGR then b8g8r8_uint else r8g8b8_uint]
        case sint => [if info.swizzleBGR then b8g8r8_sint else r8g8b8_sint]
        case _ => [])
    else if info.channelSize == channel_16 && !info.swizzleBGR then
      (match info.storageType
        case unorm => [r16g16b16_unorm]
        case snorm => [r16g16b16_snorm]
        case uscaled => [r16g16b16_uscaled]
        case sscaled => [r16g16b16_sscaled]
        case uint => [r16g16b16_uint]
        case sint => [r16g16b16_sint]
        case sfloat => [r16g16b16_sfloat]
        case _ => [])
    else if info.channelSize == channel_32 && !info.swizzleBGR then
      (match info.storageType
        case uint => [r32g32b32_uint]
        case sint => [r32g32b32_sint]
        case sfloat => [r32g32b32_sfloat]
        case _ => [])
    else if info.channelSize == channel_64 && !info.swizzleBGR then
      (match info.storageType
        case uint => [r64g64b64_uint]
        case sint => [r64g64b64_sint]
        case sfloat => [r64g64b64_sfloat]
        case _ => [])
    else if info.channelSize == special then
      if info.storageType == ufloat_pack32 then [b10g11r11_ufloat_pack32] else []
    else []
  }

  /**
   * get_format_color_channel_4: the 8-bit entries follow the swizzle, and the
   * packed 32-bit storage types give the A8B8G8R8 formats; the special size
   * offers 4-, 5- and 10-bit packed formats in RGB or BGR order. The
   * VK_API_VERSION_1_3 entries are taken as compiled in.
   */
  function Channel4Candidates(info: FormatInfo): (r: seq<Format>)
    ensures info.channelSize != special ==>
      (|r| == 1 <==> (RegularLayout(info) || (info.channelSize == channel_8 && Packed32(info.storageType))))
      && |r| <= 1
  {
    if info.channelSize == channel_8 then
      (match info.storageType
        case unorm => [if info.swizzleBGR then b8g8r8a8_unorm else r8g8b8a8_unorm]
        case snorm => [if info.swizzleBGR then b8g8r8a8_snorm else r8g8b8a8_snorm]
        case uscaled => [if info.swizzleBGR then b8g8r8a8_uscaled else r8g8b8a8_uscaled]
        case sscaled => [if info.swizzleBGR then b8g8r8a8_sscaled else r8g8b8a8_sscaled]
        case uint => [if info.swizzleBGR then b8g8r8a8_uint else r8g8b8a8_uint]
        case sint => [if info.swizzleBGR then b8g8r8a8_sint else r8g8b8a8_sint]
        case unorm_pack32 => [a8b8g8r8_unorm_pack32]
        case snorm_pack32 => [a8b8g8r8_snorm_pack32]
        case uscaled_pack32 => [a8b8g8r8_uscaled_pack32]
        case sscaled_pack32 => [a8b8g8r8_sscaled_pack32]
        case uint_pack32 => [a8b8g8r8_uint_pack32]
        case sint_pack32 => [a8b8g8r8_sint_pack32]
        case _ => [])
    else if info.channelSize == channel_16 then
      (match info.storageType
        case unorm => [r16g16b16a16_unorm]
        case snorm => [r16g16b16a16_snorm]
        case uscaled => [r16g16b16a16_uscaled]
        case sscaled => [r16g16b16a16_sscaled]
        case uint => [r16g16b16a16_uint]
        case sint => [r16g16b16a16_sint]
        case sfloat => [r16g16b16a16_sfloat]
        case _ => [])
    else if info.channelSize == channel_32 then
      (match info.storageType
        case uint => [r32g32b32a32_uint]
        case sint => [r32g32b32a32_sint]
        case sfloat => [r32g32b32a32_sfloat]
        case _ => [])
    else if info.channelSize == channel_64 then
      (match info.storageType
        case uint => [r64g64b64a64_uint]
        case sint => [r64g64b64a64_sint]
        case sfloat => [r64g64b64a64_sfloat]
        case _ => [])
    else if info.channelSize == special && !info.swizzleBGR then
      (match info.storageType
        case unorm_pack16 =>
          [r4g4b4a4_unorm_pack16, a4r4g4b4_unorm_pack16, r5g5b5a1_unorm_pack16, a1r5g5b5_unorm_pack16]
        case unorm_pack32 => [a2r10g10b10_unorm_pack32]
        case snorm_pack32 => [a2r10g10b10_snorm_pack32]
        case uscaled_pack32 => [a2r10g10b10_uscaled_pack32]
        case sscaled_pack32 => [a2r10g10b10_sscaled_pack32]
        case uint_pack32 => [a2r10g10b10_uint_pack32]
        case sint_pack32 => [a2r10g10b10_sint_pack32]
        case _ => [])
    else if info.channelSize == special && info.swizzleBGR then
      (match info.storageType
        case unorm_pack16 => [b4g4r4a4_unorm_pack16, a4b4g4r4_unorm_pack16, b5g5r5a1_unorm_pack16]
        case unorm_pack32 => [a2b10g10r10_unorm_pack32]
        case snorm_pack32 => [a2b10g10r10_snorm_pack32]
        case uscaled_pack32 => [a2b10g10r10_uscaled_pack32]
        case sscaled_pack32 => [a2b10g10r10_sscaled_pack32]
        case uint_pack32 => [a2b10g10r10_uint_pack32]
        case sint_pack32 => [a2b10g10r10_sint_pack32]
        case ufloat_pack32 => [e5b9g9r9_ufloat_pack32]
        case _ => [])
    else []
  }

  /**
   * The list get_format_color builds: nothing for a compressed request (the
   * compressed builders add no entries), the sRGB list for an sRGB request,
   * and otherwise the list for the requested channel count.
   */
  function ColorCandidates(info: FormatInfo): (r: seq<Format>)
    ensures info.compression != none ==> r == []
    ensures info.compression == none && info.sRGB ==> r == SrgbCandidates(info)
    ensures info.compression == none && !info.sRGB && !(1 <= info.channels <= 4) ==> r == []
  {
    if info.compression != none then []
    else if info.sRGB then SrgbCandidates(info)
    else if info.channels == 1 then Channel1Candidates(info)
    else if info.channels == 2 then Channel2Candidates(info)
    else if info.channels == 3 then Channel3Candidates(info)
    else if info.channels == 4 then Channel4Candidates(info)
    else []
  }

  /**
   * get_format_color: builds the priority list and searches it with optimal
   * tiling; VK_FORMAT_UNDEFINED when nothing is supported.
   */
  method GetFormatColor(
    info: FormatInfo, properties: Format -> FormatProperties, featureFlags: set<FormatFeature>)
    returns (format: Format)
    ensures var first := FirstSupported(properties, ColorCandidates(info), Optimal, GetFormatFeatures(featureFlags));
      format == (if first.Some? then first.value else undefined)
    ensures info.compression != none ==> format == undefined
  {
    var priorities := ColorCandidates(info);
    var outFormat := undefined;
    var found;
    found, outFormat := FindSupportedImageFormat(properties, priorities, Optimal, featureFlags, outFormat);
    format := if found then outFormat else undefined;
  }

  // ---------------------------------------------------------------------
  // Depth and stencil classification.

  /** vtek::FormatDepthStencilTest. */
  datatype DepthStencilTest = NoTest | DepthTest | StencilTest | DepthAndStencilTest

  /**
   * get_format_depth_stencil_test: which tests a format supports, read off the
   * three depth-only formats, the stencil-only format and the three combined
   * formats.
   */
  function GetFormatDepthStencilTest(format: Format): (r: DepthStencilTest)
    ensures r != NoTest <==> IsDepthFormat(format) || IsStencilFormat(format)
    ensures r in {DepthTest, DepthAndStencilTest} <==> IsDepthFormat(format)
    ensures r in {StencilTest, DepthAndStencilTest} <==> IsStencilFormat(format)
  {
    if format in {d16_unorm, x8_d24_unorm_pack32, d32_sfloat} then DepthTest
    else if format == s8_uint then StencilTest
    else if format in {d16_unorm_s8_uint, d24_unorm_s8_uint, d32_sfloat_s8_uint} then DepthAndStencilTest
    else NoTest
  }
}
