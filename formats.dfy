// vtek::Format and the per-format detail table of src/vtek_format_support.cpp.
// The enumerators carry the source's own names. Each enumerator corresponds to
// the VkFormat of the same name (get_format, src/vtek_format_support.cpp:13-282),
// so this one datatype stands for both vtek::Format and the VkFormat values the
// rest of the model uses.
module Formats {
  datatype Format =
      undefined | r4g4_unorm_pack8 | r4g4b4a4_unorm_pack16
    | b4g4r4a4_unorm_pack16 | r5g6b5_unorm_pack16 | b5g6r5_unorm_pack16
    | r5g5b5a1_unorm_pack16 | b5g5r5a1_unorm_pack16 | a1r5g5b5_unorm_pack16
    | r8_unorm | r8_snorm | r8_uscaled | r8_sscaled | r8_uint | r8_sint
    | r8_srgb | r8g8_unorm | r8g8_snorm | r8g8_uscaled | r8g8_sscaled
    | r8g8_uint | r8g8_sint | r8g8_srgb | r8g8b8_unorm | r8g8b8_snorm
    | r8g8b8_uscaled | r8g8b8_sscaled | r8g8b8_uint | r8g8b8_sint | r8g8b8_srgb
    | b8g8r8_unorm | b8g8r8_snorm | b8g8r8_uscaled | b8g8r8_sscaled
    | b8g8r8_uint | b8g8r8_sint | b8g8r8_srgb | r8g8b8a8_unorm | r8g8b8a8_snorm
    | r8g8b8a8_uscaled | r8g8b8a8_sscaled | r8g8b8a8_uint | r8g8b8a8_sint
    | r8g8b8a8_srgb | b8g8r8a8_unorm | b8g8r8a8_snorm | b8g8r8a8_uscaled
    | b8g8r8a8_sscaled | b8g8r8a8_uint | b8g8r8a8_sint | b8g8r8a8_srgb
    | a8b8g8r8_unorm_pack32 | a8b8g8r8_snorm_pack32 | a8b8g8r8_uscaled_pack32
    | a8b8g8r8_sscaled_pack32 | a8b8g8r8_uint_pack32 | a8b8g8r8_sint_pack32
    | a8b8g8r8_srgb_pack32 | a2r10g10b10_unorm_pack32
    | a2r10g10b10_snorm_pack32 | a2r10g10b10_uscaled_pack32
    | a2r10g10b10_sscaled_pack32 | a2r10g10b10_uint_pack32
    | a2r10g10b10_sint_pack32 | a2b10g10r10_unorm_pack32
    | a2b10g10r10_snorm_pack32 | a2b10g10r10_uscaled_pack32
    | a2b10g10r10_sscaled_pack32 | a2b10g10r10_uint_pack32
    | a2b10g10r10_sint_pack32 | r16_unorm | r16_snorm | r16_uscaled
    | r16_sscaled | r16_uint | r16_sint | r16_sfloat | r16g16_unorm
    | r16g16_snorm | r16g16_uscaled | r16g16_sscaled | r16g16_uint
    | r16g16_sint | r16g16_sfloat | r16g16b16_unorm | r16g16b16_snorm
    | r16g16b16_uscaled | r16g16b16_sscaled | r16g16b16_uint | r16g16b16_sint
    | r16g16b16_sfloat | r16g16b16a16_unorm | r16g16b16a16_snorm
    | r16g16b16a16_uscaled | r16g16b16a16_sscaled | r16g16b16a16_uint
    | r16g16b16a16_sint | r16g16b16a16_sfloat | r32_uint | r32_sint
    | r32_sfloat | r32g32_uint | r32g32_sint | r32g32_sfloat | r32g32b32_uint
    | r32g32b32_sint | r32g32b32_sfloat | r32g32b32a32_uint | r32g32b32a32_sint
    | r32g32b32a32_sfloat | r64_uint | r64_sint | r64_sfloat | r64g64_uint
    | r64g64_sint | r64g64_sfloat | r64g64b64_uint | r64g64b64_sint
    | r64g64b64_sfloat | r64g64b64a64_uint | r64g64b64a64_sint
    | r64g64b64a64_sfloat | b10g11r11_ufloat_pack32 | e5b9g9r9_ufloat_pack32
    | d16_unorm | x8_d24_unorm_pack32 | d32_sfloat | s8_uint
    | d16_unorm_s8_uint | d24_unorm_s8_uint | d32_sfloat_s8_uint
    | bc1_rgb_unorm_block | bc1_rgb_srgb_block | bc1_rgba_unorm_block
    | bc1_rgba_srgb_block | bc2_unorm_block | bc2_srgb_block | bc3_unorm_block
    | bc3_srgb_block | bc4_unorm_block | bc4_snorm_block | bc5_unorm_block
    | bc5_snorm_block | bc6h_ufloat_block | bc6h_sfloat_block | bc7_unorm_block
    | bc7_srgb_block | etc2_r8g8b8_unorm_block | etc2_r8g8b8_srgb_block
    | etc2_r8g8b8a1_unorm_block | etc2_r8g8b8a1_srgb_block
    | etc2_r8g8b8a8_unorm_block | etc2_r8g8b8a8_srgb_block
    | eac_r11_unorm_block | eac_r11_snorm_block | eac_r11g11_unorm_block
    | eac_r11g11_snorm_block | astc_4x4_unorm_block | astc_4x4_srgb_block
    | astc_5x4_unorm_block | astc_5x4_srgb_block | astc_5x5_unorm_block
    | astc_5x5_srgb_block | astc_6x5_unorm_block | astc_6x5_srgb_block
    | astc_6x6_unorm_block | astc_6x6_srgb_block | astc_8x5_unorm_block
    | astc_8x5_srgb_block | astc_8x6_unorm_block | astc_8x6_srgb_block
    | astc_8x8_unorm_block | astc_8x8_srgb_block | astc_10x5_unorm_block
    | astc_10x5_srgb_block | astc_10x6_unorm_block | astc_10x6_srgb_block
    | astc_10x8_unorm_block | astc_10x8_srgb_block | astc_10x10_unorm_block
    | astc_10x10_srgb_block | astc_12x10_unorm_block | astc_12x10_srgb_block
    | astc_12x12_unorm_block | astc_12x12_srgb_block | g8b8g8r8_422_unorm
    | b8g8r8g8_422_unorm | g8_b8_r8_3plane_420_unorm | g8_b8r8_2plane_420_unorm
    | g8_b8_r8_3plane_422_unorm | g8_b8r8_2plane_422_unorm
    | g8_b8_r8_3plane_444_unorm | r10x6_unorm_pack16 | r10x6g10x6_unorm_2pack16
    | r10x6g10x6b10x6a10x6_unorm_4pack16
    | g10x6b10x6g10x6r10x6_422_unorm_4pack16
    | b10x6g10x6r10x6g10x6_422_unorm_4pack16
    | g10x6_b10x6_r10x6_3plane_420_unorm_3pack16
    | g10x6_b10x6r10x6_2plane_420_unorm_3pack16
    | g10x6_b10x6_r10x6_3plane_422_unorm_3pack16
    | g10x6_b10x6r10x6_2plane_422_unorm_3pack16
    | g10x6_b10x6_r10x6_3plane_444_unorm_3pack16 | r12x4_unorm_pack16
    | r12x4g12x4_unorm_2pack16 | r12x4g12x4b12x4a12x4_unorm_4pack16
    | g12x4b12x4g12x4r12x4_422_unorm_4pack16
    | b12x4g12x4r12x4g12x4_422_unorm_4pack16
    | g12x4_b12x4_r12x4_3plane_420_unorm_3pack16
    | g12x4_b12x4r12x4_2plane_420_unorm_3pack16
    | g12x4_b12x4_r12x4_3plane_422_unorm_3pack16
    | g12x4_b12x4r12x4_2plane_422_unorm_3pack16
    | g12x4_b12x4_r12x4_3plane_444_unorm_3pack16 | g16b16g16r16_422_unorm
    | b16g16r16g16_422_unorm | g16_b16_r16_3plane_420_unorm
    | g16_b16r16_2plane_420_unorm | g16_b16_r16_3plane_422_unorm
    | g16_b16r16_2plane_422_unorm | g16_b16_r16_3plane_444_unorm
    | g8_b8r8_2plane_444_unorm | g10x6_b10x6r10x6_2plane_444_unorm_3pack16
    | g12x4_b12x4r12x4_2plane_444_unorm_3pack16 | g16_b16r16_2plane_444_unorm
    | a4r4g4b4_unorm_pack16 | a4b4g4r4_unorm_pack16 | astc_4x4_sfloat_block
    | astc_5x4_sfloat_block | astc_5x5_sfloat_block | astc_6x5_sfloat_block
    | astc_6x6_sfloat_block | astc_8x5_sfloat_block | astc_8x6_sfloat_block
    | astc_8x8_sfloat_block | astc_10x5_sfloat_block | astc_10x6_sfloat_block
    | astc_10x8_sfloat_block | astc_10x10_sfloat_block
    | astc_12x10_sfloat_block | astc_12x12_sfloat_block

  /** vtek::FormatChannelSize: bits per channel. */
  datatype ChannelSize = channel_4 | channel_8 | channel_16 | channel_32 | channel_64 | special

  /** vtek::FormatCompression: the block-compression family, or none. */
  datatype Compression =
      none | astc_4x4 | astc_5x4 | astc_5x5 | astc_6x5 | astc_6x6 | astc_8x5
    | astc_8x6 | astc_8x8 | astc_10x5 | astc_10x6 | astc_10x8 | astc_10x10
    | astc_12x10 | astc_12x12 | bc1 | bc2 | bc3 | bc4 | bc5 | bc6h | bc7 | eac
    | etc2

  /** vtek::FormatStorageType, restricted to the values the detail table uses. */
  datatype StorageType =
      unorm | rect_422 | sfloat | sfloat32_uint8 | sfloat_block | sint
    | sint_pack32 | snorm | snorm_block | snorm_pack32 | srgb | srgb_block
    | srgb_pack32 | sscaled | sscaled_pack32 | ufloat_block | ufloat_pack32
    | uint | uint_pack32 | unorm10_unused6_pack16 | unorm12_unused4_pack16
    | unorm16_uint8 | unorm24_uint8 | unorm_block | unorm_pack8 | unorm_pack16
    | unorm_pack32 | unused8_unorm24_pack32 | uscaled | uscaled_pack32

  /** A channel count as the detail table stores it. */
  type ChannelCount = c: nat | 1 <= c <= 4 witness 4

  /** The FormatDetails record that get_format_details fills in. */
  datatype Details = Details(
    channels: ChannelCount, channelSize: ChannelSize, alpha: bool, sRGB: bool,
    compression: Compression, blueEndian: bool, alphaFirst: bool,
    depth: bool, stencil: bool, storageType: StorageType, planar: bool)

  /** The member initialisers of FormatDetails. */
  function DefaultDetails(): (d: Details)
    ensures d.channels == 4 && d.channelSize == channel_8 && d.storageType == unorm
    ensures d.compression == none
    ensures !d.alpha && !d.sRGB && !d.blueEndian && !d.alphaFirst
    ensures !d.depth && !d.stencil && !d.planar
  {
    Details(4, channel_8, false, false, none, false, false, false, false, unorm, false)
  }

  /**
   * get_format_details: the defaults, with the fields that the format's case
   * lists overwritten; undefined keeps the defaults.
   */
  function FormatDetails(f: Format): Details
  {
    match f
    case undefined => DefaultDetails()
    case r4g4_unorm_pack8 =>
      DefaultDetails().(channels := 2, channelSize := channel_4, storageType := unorm_pack8)
    case r4g4b4a4_unorm_pack16 =>
      DefaultDetails().(alpha := true, storageType := unorm_pack16, channelSize := channel_4)
    case b4g4r4a4_unorm_pack16 =>
      DefaultDetails().(alpha := true, blueEndian := true, storageType := unorm_pack16, channelSize := channel_4)
    case r5g6b5_unorm_pack16 =>
      DefaultDetails().(channels := 3, storageType := unorm_pack16, channelSize := special)
    case b5g6r5_unorm_pack16 =>
      DefaultDetails().(channels := 3, blueEndian := true, storageType := unorm_pack16, channelSize := special)
    case r5g5b5a1_unorm_pack16 =>
      DefaultDetails().(alpha := true, storageType := unorm_pack16, channelSize := special)
    case b5g5r5a1_unorm_pack16 =>
      DefaultDetails().(alpha := true, blueEndian := true, channelSize := special, storageType := unorm_pack16)
    case a1r5g5b5_unorm_pack16 =>
      DefaultDetails().(alpha := true, alphaFirst := true, storageType := unorm_pack16, channelSize := special)
    case r8_unorm => DefaultDetails().(channels := 1)
    case r8_snorm => DefaultDetails().(channels := 1, storageType := snorm)
    case r8_uscaled => DefaultDetails().(channels := 1, storageType := uscaled)
    case r8_sscaled => DefaultDetails().(channels := 1, storageType := sscaled)
    case r8_uint => DefaultDetails().(channels := 1, storageType := uint)
    case r8_sint => DefaultDetails().(channels := 1, storageType := sint)
    case r8_srgb => DefaultDetails().(channels := 1, sRGB := true, storageType := srgb)
    case r8g8_unorm => DefaultDetails().(channels := 2)
    case r8g8_snorm => DefaultDetails().(channels := 2, storageType := snorm)
    case r8g8_uscaled => DefaultDetails().(channels := 2, storageType := uscaled)
    case r8g8_sscaled => DefaultDetails().(channels := 2, storageType := sscaled)
    case r8g8_uint => DefaultDetails().(channels := 2, storageType := uint)
    case r8g8_sint => DefaultDetails().(channels := 2, storageType := sint)
    case r8g8_srgb => DefaultDetails().(channels := 2, storageType := srgb, sRGB := true)
    case r8g8b8_unorm => DefaultDetails().(channels := 3)
    case r8g8b8_snorm => DefaultDetails().(channels := 3, storageType := snorm)
    case r8g8b8_uscaled => DefaultDetails().(channels := 3, storageType := uscaled)
    case r8g8b8_sscaled => DefaultDetails().(channels := 3, storageType := sscaled)
    case r8g8b8_uint => DefaultDetails().(channels := 3, storageType := uint)
    case r8g8b8_sint => DefaultDetails().(channels := 3, storageType := sint)
    case r8g8b8_srgb => DefaultDetails().(channels := 3, storageType := srgb, sRGB := true)
    case b8g8r8_unorm => DefaultDetails().(channels := 3, blueEndian := true)
    case b8g8r8_snorm => DefaultDetails().(channels := 3, blueEndian := true, storageType := snorm)
    case b8g8r8_uscaled =>
      DefaultDetails().(channels := 3, blueEndian := true, storageType := uscaled)
    case b8g8r8_sscaled =>
      DefaultDetails().(channels := 3, blueEndian := true, storageType := sscaled)
    case b8g8r8_uint => DefaultDetails().(channels := 3, blueEndian := true, storageType := uint)
    case b8g8r8_sint => DefaultDetails().(channels := 3, blueEndian := true, storageType := sint)
    case b8g8r8_srgb =>
      DefaultDetails().(channels := 3, blueEndian := true, storageType := srgb, sRGB := true)
    case r8g8b8a8_unorm => DefaultDetails().(alpha := true)
    case r8g8b8a8_snorm => DefaultDetails().(alpha := true, storageType := snorm)
    case r8g8b8a8_uscaled => DefaultDetails().(alpha := true, storageType := uscaled)
    case r8g8b8a8_sscaled => DefaultDetails().(alpha := true, storageType := sscaled)
    case r8g8b8a8_uint => DefaultDetails().(alpha := true, storageType := uint)
    case r8g8b8a8_sint => DefaultDetails().(alpha := true, storageType := sint)
    case r8g8b8a8_srgb => DefaultDetails().(alpha := true, sRGB := true, storageType := srgb)
    case b8g8r8a8_unorm => DefaultDetails().(alpha := true, blueEndian := true)
    case b8g8r8a8_snorm =>
      DefaultDetails().(alpha := true, blueEndian := true, storageType := snorm)
    case b8g8r8a8_uscaled =>
      DefaultDetails().(alpha := true, blueEndian := true, storageType := uscaled)
    case b8g8r8a8_sscaled =>
      DefaultDetails().(alpha := true, blueEndian := true, storageType := sscaled)
    case b8g8r8a8_uint => DefaultDetails().(alpha := true, blueEndian := true, storageType := uint)
    case b8g8r8a8_sint => DefaultDetails().(alpha := true, blueEndian := true, storageType := sint)
    case b8g8r8a8_srgb =>
      DefaultDetails().(alpha := true, blueEndian := true, sRGB := true, storageType := srgb)
    case a8b8g8r8_unorm_pack32 =>
      DefaultDetails().(alpha := true, alphaFirst := true, blueEndian := true, storageType := unorm_pack32)
    case a8b8g8r8_snorm_pack32 =>
      DefaultDetails().(alpha := true, alphaFirst := true, blueEndian := true, storageType := snorm_pack32)
    case a8b8g8r8_uscaled_pack32 =>
      DefaultDetails().(alpha := true, alphaFirst := true, blueEndian := true, storageType := uscaled_pack32)
    case a8b8g8r8_sscaled_pack32 =>
      DefaultDetails().(alpha := true, alphaFirst := true, blueEndian := true, storageType := sscaled_pack32)
    case a8b8g8r8_uint_pack32 =>
      DefaultDetails().(alpha := true, alphaFirst := true, blueEndian := true, storageType := uint_pack32)
    case a8b8g8r8_sint_pack32 =>
      DefaultDetails().(alpha := true, alphaFirst := true, blueEndian := true, storageType := sint_pack32)
    case a8b8g8r8_srgb_pack32 =>
      DefaultDetails().(alpha := true, alphaFirst := true, blueEndian := true, sRGB := true, storageType := srgb_pack32)
    case a2r10g10b10_unorm_pack32 =>
      DefaultDetails().(alpha := true, alphaFirst := true, storageType := unorm_pack32, channelSize := special)
    case a2r10g10b10_snorm_pack32 =>
      DefaultDetails().(alpha := true, alphaFirst := true, storageType := snorm_pack32, channelSize := special)
    case a2r10g10b10_uscaled_pack32 =>
      DefaultDetails().(alpha := true, alphaFirst := true, storageType := uscaled_pack32, channelSize := special)
    case a2r10g10b10_sscaled_pack32 =>
      DefaultDetails().(alpha := true, alphaFirst := true, storageType := sscaled_pack32, channelSize := special)
    case a2r10g10b10_uint_pack32 =>
      DefaultDetails().(alpha := true, alphaFirst := true, channelSize := special, storageType := uint_pack32)
    case a2r10g10b10_sint_pack32 =>
      DefaultDetails().(alpha := true, alphaFirst := true, storageType := sint_pack32, channelSize := special)
    case a2b10g10r10_unorm_pack32 =>
      DefaultDetails().(alpha := true, alphaFirst := true, blueEndian := true, storageType := unorm_pack32, channelSize := special)
    case a2b10g10r10_snorm_pack32 =>
      DefaultDetails().(alpha := true, alphaFirst := true, blueEndian := true, storageType := snorm_pack32, channelSize := special)
    case a2b10g10r10_uscaled_pack32 =>
      DefaultDetails().(alpha := true, alphaFirst := true, blueEndian := true, storageType := uscaled_pack32, channelSize := special)
    case a2b10g10r10_sscaled_pack32 =>
      DefaultDetails().(alpha := true, alphaFirst := true, blueEndian := true, storageType := sscaled_pack32, channelSize := special)
    case a2b10g10r10_uint_pack32 =>
      DefaultDetails().(alpha := true, alphaFirst := true, blueEndian := true, storageType := uint_pack32, channelSize := special)
    case a2b10g10r10_sint_pack32 =>
      DefaultDetails().(alpha := true, alphaFirst := true, blueEndian := true, storageType := sint_pack32, channelSize := special)
    case r16_unorm => DefaultDetails().(channels := 1, channelSize := channel_16)
    case r16_snorm =>
      DefaultDetails().(channels := 1, storageType := snorm, channelSize := channel_16)
    case r16_uscaled =>
      DefaultDetails().(channels := 1, storageType := uscaled, channelSize := channel_16)
    case r16_sscaled =>
      DefaultDetails().(channels := 1, storageType := sscaled, channelSize := channel_16)
    case r16_uint =>
      DefaultDetails().(channels := 1, storageType := uint, channelSize := channel_16)
    case r16_sint =>
      DefaultDetails().(channels := 1, storageType := sint, channelSize := channel_16)
    case r16_sfloat =>
      DefaultDetails().(channels := 1, storageType := sfloat, channelSize := channel_16)
    case r16g16_unorm => DefaultDetails().(channels := 2, channelSize := channel_16)
    case r16g16_snorm =>
      DefaultDetails().(channels := 2, storageType := snorm, channelSize := channel_16)
    case r16g16_uscaled =>
      DefaultDetails().(channels := 2, storageType := uscaled, channelSize := channel_16)
    case r16g16_sscaled =>
      DefaultDetails().(channels := 2, storageType := sscaled, channelSize := channel_16)
    case r16g16_uint =>
      DefaultDetails().(channels := 2, storageType := uint, channelSize := channel_16)
    case r16g16_sint =>
      DefaultDetails().(channels := 2, storageType := sint, channelSize := channel_16)
    case r16g16_sfloat =>
      DefaultDetails().(channels := 2, storageType := sfloat, channelSize := channel_16)
    case r16g16b16_unorm => DefaultDetails().(channels := 3, channelSize := channel_16)
    case r16g16b16_snorm =>
      DefaultDetails().(channels := 3, storageType := snorm, channelSize := channel_16)
    case r16g16b16_uscaled =>
      DefaultDetails().(channels := 3, storageType := uscaled, channelSize := channel_16)
    case r16g16b16_sscaled =>
      DefaultDetails().(channels := 3, storageType := sscaled, channelSize := channel_16)
    case r16g16b16_uint =>
      DefaultDetails().(channels := 3, storageType := uint, channelSize := channel_16)
    case r16g16b16_sint =>
      DefaultDetails().(channels := 3, storageType := sint, channelSize := channel_16)
    case r16g16b16_sfloat =>
      DefaultDetails().(channels := 3, storageType := sfloat, channelSize := channel_16)
    case r16g16b16a16_unorm => DefaultDetails().(alpha := true, channelSize := channel_16)
    case r16g16b16a16_snorm =>
      DefaultDetails().(alpha := true, storageType := snorm, channelSize := channel_16)
    case r16g16b16a16_uscaled =>
      DefaultDetails().(alpha := true, storageType := uscaled, channelSize := channel_16)
    case r16g16b16a16_sscaled =>
      DefaultDetails().(alpha := true, storageType := sscaled, channelSize := channel_16)
    case r16g16b16a16_uint =>
      DefaultDetails().(alpha := true, storageType := uint, channelSize := channel_16)
    case r16g16b16a16_sint =>
      DefaultDetails().(alpha := true, storageType := sint, channelSize := channel_16)
    case r16g16b16a16_sfloat =>
      DefaultDetails().(alpha := true, storageType := sfloat, channelSize := channel_16)
    case r32_uint =>
      DefaultDetails().(channels := 1, storageType := uint, channelSize := channel_32)
    case r32_sint =>
      DefaultDetails().(channels := 1, storageType := sint, channelSize := channel_32)
    case r32_sfloat =>
      DefaultDetails().(channels := 1, storageType := sfloat, channelSize := channel_32)
    case r32g32_uint =>
      DefaultDetails().(channels := 2, storageType := uint, channelSize := channel_32)
    case r32g32_sint =>
      DefaultDetails().(channels := 2, storageType := sint, channelSize := channel_32)
    case r32g32_sfloat =>
      DefaultDetails().(channels := 2, storageType := sfloat, channelSize := channel_32)
    case r32g32b32_uint =>
      DefaultDetails().(channels := 3, storageType := uint, channelSize := channel_32)
    case r32g32b32_sint =>
      DefaultDetails().(channels := 3, storageType := sint, channelSize := channel_32)
    case r32g32b32_sfloat =>
      DefaultDetails().(channels := 3, storageType := sfloat, channelSize := channel_32)
    case r32g32b32a32_uint =>
      DefaultDetails().(alpha := true, storageType := uint, channelSize := channel_32)
    case r32g32b32a32_sint =>
      DefaultDetails().(alpha := true, storageType := sint, channelSize := channel_32)
    case r32g32b32a32_sfloat =>
      DefaultDetails().(alpha := true, storageType := sfloat, channelSize := channel_32)
    case r64_uint =>
      DefaultDetails().(channels := 1, storageType := uint, channelSize := channel_64)
    case r64_sint =>
      DefaultDetails().(channels := 1, storageType := sint, channelSize := channel_64)
    case r64_sfloat =>
      DefaultDetails().(channels := 1, storageType := sfloat, channelSize := channel_64)
    case r64g64_uint =>
      DefaultDetails().(channels := 2, storageType := uint, channelSize := channel_64)
    case r64g64_sint =>
      DefaultDetails().(channels := 2, storageType := sint, channelSize := channel_64)
    case r64g64_sfloat =>
      DefaultDetails().(channels := 2, storageType := sfloat, channelSize := channel_64)
    case r64g64b64_uint =>
      DefaultDetails().(channels := 3, storageType := uint, channelSize := channel_64)
    case r64g64b64_sint =>
      DefaultDetails().(channels := 3, storageType := sint, channelSize := channel_64)
    case r64g64b64_sfloat =>
      DefaultDetails().(channels := 3, storageType := sfloat, channelSize := channel_64)
    case r64g64b64a64_uint =>
      DefaultDetails().(alpha := true, storageType := uint, channelSize := channel_64)
    case r64g64b64a64_sint =>
      DefaultDetails().(alpha := true, storageType := sint, channelSize := channel_64)
    case r64g64b64a64_sfloat =>
      DefaultDetails().(alpha := true, storageType := sfloat, channelSize := channel_64)
    case b10g11r11_ufloat_pack32 =>
      DefaultDetails().(channels := 3, blueEndian := true, storageType := ufloat_pack32, channelSize := special)
    case e5b9g9r9_ufloat_pack32 =>
      DefaultDetails().(blueEndian := true, storageType := ufloat_pack32, channelSize := special)
    case d16_unorm => DefaultDetails().(channels := 1, depth := true, channelSize := channel_16)
    case x8_d24_unorm_pack32 =>
      DefaultDetails().(channels := 1, storageType := unused8_unorm24_pack32, depth := true, channelSize := special)
    case d32_sfloat =>
      DefaultDetails().(channels := 1, storageType := sfloat, depth := true, channelSize := channel_32)
    case s8_uint =>
      DefaultDetails().(channels := 1, storageType := uint, stencil := true, channelSize := channel_8)
    case d16_unorm_s8_uint =>
      DefaultDetails().(channels := 2, storageType := unorm16_uint8, depth := true, stencil := true, channelSize := special)
    case d24_unorm_s8_uint =>
      DefaultDetails().(channels := 2, storageType := unorm24_uint8, depth := true, stencil := true, channelSize := special)
    case d32_sfloat_s8_uint =>
      DefaultDetails().(channels := 2, storageType := sfloat32_uint8, depth := true, stencil := true, channelSize := special)
    case bc1_rgb_unorm_block => DefaultDetails().(compression := bc1, storageType := unorm_block)
    case bc1_rgb_srgb_block =>
      DefaultDetails().(sRGB := true, storageType := srgb_block, compression := bc1)
    case bc1_rgba_unorm_block =>
      DefaultDetails().(compression := bc1, alpha := true, storageType := unorm_block)
    case bc1_rgba_srgb_block =>
      DefaultDetails().(sRGB := true, storageType := srgb_block, compression := bc1, alpha := true)
    case bc2_unorm_block => DefaultDetails().(compression := bc2, storageType := unorm_block)
    case bc2_srgb_block =>
      DefaultDetails().(sRGB := true, storageType := srgb_block, compression := bc2)
    case bc3_unorm_block => DefaultDetails().(compression := bc3, storageType := unorm_block)
    case bc3_srgb_block =>
      DefaultDetails().(sRGB := true, storageType := srgb_block, compression := bc3)
    case bc4_unorm_block => DefaultDetails().(compression := bc4, storageType := unorm_block)
    case bc4_snorm_block => DefaultDetails().(compression := bc4, storageType := snorm_block)
    case bc5_unorm_block => DefaultDetails().(compression := bc5, storageType := unorm_block)
    case bc5_snorm_block => DefaultDetails().(compression := bc5, storageType := snorm_block)
    case bc6h_ufloat_block => DefaultDetails().(compression := bc6h, storageType := ufloat_block)
    case bc6h_sfloat_block => DefaultDetails().(compression := bc6h, storageType := sfloat_block)
    case bc7_unorm_block => DefaultDetails().(compression := bc7, storageType := unorm_block)
    case bc7_srgb_block =>
      DefaultDetails().(sRGB := true, storageType := srgb_block, compression := bc7)
    case etc2_r8g8b8_unorm_block =>
      DefaultDetails().(compression := etc2, storageType := unorm_block)
    case etc2_r8g8b8_srgb_block =>
      DefaultDetails().(sRGB := true, storageType := srgb_block, compression := etc2)
    case etc2_r8g8b8a1_unorm_block =>
      DefaultDetails().(compression := etc2, alpha := true, storageType := unorm_block)
    case etc2_r8g8b8a1_srgb_block =>
      DefaultDetails().(sRGB := true, storageType := srgb_block, compression := etc2, alpha := true)
    case etc2_r8g8b8a8_unorm_block =>
      DefaultDetails().(compression := etc2, alpha := true, storageType := unorm_block)
    case etc2_r8g8b8a8_srgb_block =>
      DefaultDetails().(sRGB := true, storageType := srgb_block, compression := etc2, alpha := true)
    case eac_r11_unorm_block =>
      DefaultDetails().(compression := eac, storageType := unorm_block, channelSize := special)
    case eac_r11_snorm_block =>
      DefaultDetails().(compression := eac, storageType := snorm_block, channelSize := special)
    case eac_r11g11_unorm_block =>
      DefaultDetails().(compression := eac, storageType := unorm_block, channelSize := special)
    case eac_r11g11_snorm_block =>
      DefaultDetails().(compression := eac, storageType := snorm_block, channelSize := special)
    case astc_4x4_unorm_block =>
      DefaultDetails().(compression := astc_4x4, storageType := unorm_block)
    case astc_4x4_srgb_block =>
      DefaultDetails().(sRGB := true, storageType := srgb_block, compression := astc_4x4)
    case astc_5x4_unorm_block =>
      DefaultDetails().(compression := astc_5x4, storageType := unorm_block)
    case astc_5x4_srgb_block =>
      DefaultDetails().(sRGB := true, storageType := srgb_block, compression := astc_5x4)
    case astc_5x5_unorm_block =>
      DefaultDetails().(compression := astc_5x5, storageType := unorm_block)
    case astc_5x5_srgb_block =>
      DefaultDetails().(sRGB := true, storageType := srgb_block, compression := astc_5x5)
    case astc_6x5_unorm_block =>
      DefaultDetails().(compression := astc_6x5, storageType := unorm_block)
    case astc_6x5_srgb_block =>
      DefaultDetails().(sRGB := true, storageType := srgb_block, compression := astc_6x5)
    case astc_6x6_unorm_block =>
      DefaultDetails().(compression := astc_6x6, storageType := unorm_block)
    case astc_6x6_srgb_block =>
      DefaultDetails().(sRGB := true, storageType := srgb_block, compression := astc_6x6)
    case astc_8x5_unorm_block =>
      DefaultDetails().(compression := astc_8x5, storageType := unorm_block)
    case astc_8x5_srgb_block =>
      DefaultDetails().(sRGB := true, storageType := srgb_block, compression := astc_8x5)
    case astc_8x6_unorm_block =>
      DefaultDetails().(compression := astc_8x6, storageType := unorm_block)
    case astc_8x6_srgb_block =>
      DefaultDetails().(sRGB := true, storageType := srgb_block, compression := astc_8x6)
    case astc_8x8_unorm_block =>
      DefaultDetails().(compression := astc_8x8, storageType := unorm_block)
    case astc_8x8_srgb_block =>
      DefaultDetails().(sRGB := true, storageType := srgb_block, compression := astc_8x8)
    case astc_10x5_unorm_block =>
      DefaultDetails().(compression := astc_10x5, storageType := unorm_block)
    case astc_10x5_srgb_block =>
      DefaultDetails().(sRGB := true, storageType := srgb_block, compression := astc_10x5)
    case astc_10x6_unorm_block =>
      DefaultDetails().(compression := astc_10x6, storageType := unorm_block)
    case astc_10x6_srgb_block =>
      DefaultDetails().(sRGB := true, storageType := srgb_block, compression := astc_10x6)
    case astc_10x8_unorm_block =>
      DefaultDetails().(compression := astc_10x8, storageType := unorm_block)
    case astc_10x8_srgb_block =>
      DefaultDetails().(sRGB := true, storageType := srgb_block, compression := astc_10x8)
    case astc_10x10_unorm_block =>
      DefaultDetails().(compression := astc_10x10, storageType := unorm_block)
    case astc_10x10_srgb_block =>
      DefaultDetails().(sRGB := true, storageType := srgb_block, compression := astc_10x10)
    case astc_12x10_unorm_block =>
      DefaultDetails().(compression := astc_12x10, storageType := unorm_block)
    case astc_12x10_srgb_block =>
      DefaultDetails().(sRGB := true, storageType := srgb_block, compression := astc_12x10)
    case astc_12x12_unorm_block =>
      DefaultDetails().(compression := astc_12x12, storageType := unorm_block)
    case astc_12x12_srgb_block =>
      DefaultDetails().(sRGB := true, storageType := srgb_block, compression := astc_12x12)
    case g8b8g8r8_422_unorm => DefaultDetails().(channels := 3, storageType := rect_422)
    case b8g8r8g8_422_unorm => DefaultDetails().(channels := 3, storageType := rect_422)
    case g8_b8_r8_3plane_420_unorm => DefaultDetails().(planar := true)
    case g8_b8r8_2plane_420_unorm => DefaultDetails().(planar := true)
    case g8_b8_r8_3plane_422_unorm => DefaultDetails().(planar := true)
    case g8_b8r8_2plane_422_unorm => DefaultDetails().(planar := true)
    case g8_b8_r8_3plane_444_unorm => DefaultDetails().(planar := true)
    case r10x6_unorm_pack16 =>
      DefaultDetails().(channels := 1, channelSize := special, storageType := unorm10_unused6_pack16)
    case r10x6g10x6_unorm_2pack16 =>
      DefaultDetails().(channels := 2, channelSize := special, storageType := unorm10_unused6_pack16)
    case r10x6g10x6b10x6a10x6_unorm_4pack16 =>
      DefaultDetails().(alpha := true, channelSize := special, storageType := unorm10_unused6_pack16)
    case g10x6b10x6g10x6r10x6_422_unorm_4pack16 =>
      DefaultDetails().(channels := 3, channelSize := special, storageType := rect_422)
    case b10x6g10x6r10x6g10x6_422_unorm_4pack16 =>
      DefaultDetails().(channels := 3, channelSize := special, storageType := rect_422)
    case g10x6_b10x6_r10x6_3plane_420_unorm_3pack16 =>
      DefaultDetails().(planar := true, channelSize := special)
    case g10x6_b10x6r10x6_2plane_420_unorm_3pack16 =>
      DefaultDetails().(planar := true, channelSize := special)
    case g10x6_b10x6_r10x6_3plane_422_unorm_3pack16 =>
      DefaultDetails().(planar := true, channelSize := special)
    case g10x6_b10x6r10x6_2plane_422_unorm_3pack16 =>
      DefaultDetails().(planar := true, channelSize := special)
    case g10x6_b10x6_r10x6_3plane_444_unorm_3pack16 =>
      DefaultDetails().(planar := true, channelSize := special)
    case r12x4_unorm_pack16 =>
      DefaultDetails().(channels := 1, channelSize := special, storageType := unorm12_unused4_pack16)
    case r12x4g12x4_unorm_2pack16 =>
      DefaultDetails().(channels := 2, channelSize := special, storageType := unorm12_unused4_pack16)
    case r12x4g12x4b12x4a12x4_unorm_4pack16 =>
      DefaultDetails().(channelSize := special, storageType := unorm12_unused4_pack16)
    case g12x4b12x4g12x4r12x4_422_unorm_4pack16 =>
      DefaultDetails().(channels := 3, channelSize := special, storageType := rect_422)
    case b12x4g12x4r12x4g12x4_422_unorm_4pack16 =>
      DefaultDetails().(channels := 3, channelSize := special, storageType := rect_422)
    case g12x4_b12x4_r12x4_3plane_420_unorm_3pack16 =>
      DefaultDetails().(planar := true, channelSize := special)
    case g12x4_b12x4r12x4_2plane_420_unorm_3pack16 =>
      DefaultDetails().(planar := true, channelSize := special)
    case g12x4_b12x4_r12x4_3plane_422_unorm_3pack16 =>
      DefaultDetails().(planar := true, channelSize := special)
    case g12x4_b12x4r12x4_2plane_422_unorm_3pack16 =>
      DefaultDetails().(planar := true, channelSize := special)
    case g12x4_b12x4_r12x4_3plane_444_unorm_3pack16 =>
      DefaultDetails().(planar := true, channelSize := special)
    case g16b16g16r16_422_unorm =>
      DefaultDetails().(channelSize := channel_16, storageType := rect_422)
    case b16g16r16g16_422_unorm =>
      DefaultDetails().(channelSize := channel_16, storageType := rect_422)
    case g16_b16_r16_3plane_420_unorm => DefaultDetails().(planar := true, channelSize := special)
    case g16_b16r16_2plane_420_unorm => DefaultDetails().(planar := true, channelSize := special)
    case g16_b16_r16_3plane_422_unorm => DefaultDetails().(planar := true, channelSize := special)
    case g16_b16r16_2plane_422_unorm => DefaultDetails().(planar := true, channelSize := special)
    case g16_b16_r16_3plane_444_unorm => DefaultDetails().(planar := true, channelSize := special)
    case g8_b8r8_2plane_444_unorm => DefaultDetails().(planar := true, channelSize := special)
    case g10x6_b10x6r10x6_2plane_444_unorm_3pack16 =>
      DefaultDetails().(planar := true, channelSize := special)
    case g12x4_b12x4r12x4_2plane_444_unorm_3pack16 =>
      DefaultDetails().(planar := true, channelSize := special)
    case g16_b16r16_2plane_444_unorm => DefaultDetails().(planar := true, channelSize := special)
    case a4r4g4b4_unorm_pack16 =>
      DefaultDetails().(alpha := true, alphaFirst := true, channelSize := channel_4, storageType := unorm_pack16)
    case a4b4g4r4_unorm_pack16 =>
      DefaultDetails().(alpha := true, alphaFirst := true, channelSize := channel_4, blueEndian := true, storageType := unorm_pack16)
    case astc_4x4_sfloat_block =>
      DefaultDetails().(compression := astc_4x4, storageType := sfloat_block, channelSize := special)
    case astc_5x4_sfloat_block =>
      DefaultDetails().(compression := astc_5x4, storageType := sfloat_block, channelSize := special)
    case astc_5x5_sfloat_block =>
      DefaultDetails().(compression := astc_5x5, storageType := sfloat_block, channelSize := special)
    case astc_6x5_sfloat_block =>
      DefaultDetails().(compression := astc_6x5, storageType := sfloat_block, channelSize := special)
    case astc_6x6_sfloat_block =>
      DefaultDetails().(compression := astc_6x6, storageType := sfloat_block, channelSize := special)
    case astc_8x5_sfloat_block =>
      DefaultDetails().(compression := astc_8x5, storageType := sfloat_block, channelSize := special)
    case astc_8x6_sfloat_block =>
      DefaultDetails().(compression := astc_8x6, storageType := sfloat_block, channelSize := special)
    case astc_8x8_sfloat_block =>
      DefaultDetails().(compression := astc_8x8, storageType := sfloat_block, channelSize := special)
    case astc_10x5_sfloat_block =>
      DefaultDetails().(compression := astc_10x5, storageType := sfloat_block, channelSize := special)
    case astc_10x6_sfloat_block =>
      DefaultDetails().(compression := astc_10x6, storageType := sfloat_block, channelSize := special)
    case astc_10x8_sfloat_block =>
      DefaultDetails().(compression := astc_10x8, storageType := sfloat_block, channelSize := special)
    case astc_10x10_sfloat_block =>
      DefaultDetails().(compression := astc_10x10, storageType := sfloat_block, channelSize := special)
    case astc_12x10_sfloat_block =>
      DefaultDetails().(compression := astc_12x10, storageType := sfloat_block, channelSize := special)
    case astc_12x12_sfloat_block =>
      DefaultDetails().(compression := astc_12x12, storageType := sfloat_block, channelSize := special)
  }

  /** The formats whose case sets the depth flag. */
  predicate IsDepthFormat(f: Format)
  {
    f in {d16_unorm, x8_d24_unorm_pack32, d32_sfloat, d16_unorm_s8_uint, d24_unorm_s8_uint, d32_sfloat_s8_uint}
  }

  /** The formats whose case sets the stencil flag. */
  predicate IsStencilFormat(f: Format)
  {
    f in {s8_uint, d16_unorm_s8_uint, d24_unorm_s8_uint, d32_sfloat_s8_uint}
  }

  /** get_format_string_helper: the enumerator's own name. */
  function FormatName(f: Format): string
  {
    match f
    case undefined => "undefined"
    case r4g4_unorm_pack8 => "r4g4_unorm_pack8"
    case r4g4b4a4_unorm_pack16 => "r4g4b4a4_unorm_pack16"
    case b4g4r4a4_unorm_pack16 => "b4g4r4a4_unorm_pack16"
    case r5g6b5_unorm_pack16 => "r5g6b5_unorm_pack16"
    case b5g6r5_unorm_pack16 => "b5g6r5_unorm_pack16"
    case r5g5b5a1_unorm_pack16 => "r5g5b5a1_unorm_pack16"
    case b5g5r5a1_unorm_pack16 => "b5g5r5a1_unorm_pack16"
    case a1r5g5b5_unorm_pack16 => "a1r5g5b5_unorm_pack16"
    case r8_unorm => "r8_unorm"
    case r8_snorm => "r8_snorm"
    case r8_uscaled => "r8_uscaled"
    case r8_sscaled => "r8_sscaled"
    case r8_uint => "r8_uint"
    case r8_sint => "r8_sint"
    case r8_srgb => "r8_srgb"
    case r8g8_unorm => "r8g8_unorm"
    case r8g8_snorm => "r8g8_snorm"
    case r8g8_uscaled => "r8g8_uscaled"
    case r8g8_sscaled => "r8g8_sscaled"
    case r8g8_uint => "r8g8_uint"
    case r8g8_sint => "r8g8_sint"
    case r8g8_srgb => "r8g8_srgb"
    case r8g8b8_unorm => "r8g8b8_unorm"
    case r8g8b8_snorm => "r8g8b8_snorm"
    case r8g8b8_uscaled => "r8g8b8_uscaled"
    case r8g8b8_sscaled => "r8g8b8_sscaled"
    case r8g8b8_uint => "r8g8b8_uint"
    case r8g8b8_sint => "r8g8b8_sint"
    case r8g8b8_srgb => "r8g8b8_srgb"
    case b8g8r8_unorm => "b8g8r8_unorm"
    case b8g8r8_snorm => "b8g8r8_snorm"
    case b8g8r8_uscaled => "b8g8r8_uscaled"
    case b8g8r8_sscaled => "b8g8r8_sscaled"
    case b8g8r8_uint => "b8g8r8_uint"
    case b8g8r8_sint => "b8g8r8_sint"
    case b8g8r8_srgb => "b8g8r8_srgb"
    case r8g8b8a8_unorm => "r8g8b8a8_unorm"
    case r8g8b8a8_snorm => "r8g8b8a8_snorm"
    case r8g8b8a8_uscaled => "r8g8b8a8_uscaled"
    case r8g8b8a8_sscaled => "r8g8b8a8_sscaled"
    case r8g8b8a8_uint => "r8g8b8a8_uint"
    case r8g8b8a8_sint => "r8g8b8a8_sint"
    case r8g8b8a8_srgb => "r8g8b8a8_srgb"
    case b8g8r8a8_unorm => "b8g8r8a8_unorm"
    case b8g8r8a8_snorm => "b8g8r8a8_snorm"
    case b8g8r8a8_uscaled => "b8g8r8a8_uscaled"
    case b8g8r8a8_sscaled => "b8g8r8a8_sscaled"
    case b8g8r8a8_uint => "b8g8r8a8_uint"
    case b8g8r8a8_sint => "b8g8r8a8_sint"
    case b8g8r8a8_srgb => "b8g8r8a8_srgb"
    case a8b8g8r8_unorm_pack32 => "a8b8g8r8_unorm_pack32"
    case a8b8g8r8_snorm_pack32 => "a8b8g8r8_snorm_pack32"
    case a8b8g8r8_uscaled_pack32 => "a8b8g8r8_uscaled_pack32"
    case a8b8g8r8_sscaled_pack32 => "a8b8g8r8_sscaled_pack32"
    case a8b8g8r8_uint_pack32 => "a8b8g8r8_uint_pack32"
    case a8b8g8r8_sint_pack32 => "a8b8g8r8_sint_pack32"
    case a8b8g8r8_srgb_pack32 => "a8b8g8r8_srgb_pack32"
    case a2r10g10b10_unorm_pack32 => "a2r10g10b10_unorm_pack32"
    case a2r10g10b10_snorm_pack32 => "a2r10g10b10_snorm_pack32"
    case a2r10g10b10_uscaled_pack32 => "a2r10g10b10_uscaled_pack32"
    case a2r10g10b10_sscaled_pack32 => "a2r10g10b10_sscaled_pack32"
    case a2r10g10b10_uint_pack32 => "a2r10g10b10_uint_pack32"
    case a2r10g10b10_sint_pack32 => "a2r10g10b10_sint_pack32"
    case a2b10g10r10_unorm_pack32 => "a2b10g10r10_unorm_pack32"
    case a2b10g10r10_snorm_pack32 => "a2b10g10r10_snorm_pack32"
    case a2b10g10r10_uscaled_pack32 => "a2b10g10r10_uscaled_pack32"
    case a2b10g10r10_sscaled_pack32 => "a2b10g10r10_sscaled_pack32"
    case a2b10g10r10_uint_pack32 => "a2b10g10r10_uint_pack32"
    case a2b10g10r10_sint_pack32 => "a2b10g10r10_sint_pack32"
    case r16_unorm => "r16_unorm"
    case r16_snorm => "r16_snorm"
    case r16_uscaled => "r16_uscaled"
    case r16_sscaled => "r16_sscaled"
    case r16_uint => "r16_uint"
    case r16_sint => "r16_sint"
    case r16_sfloat => "r16_sfloat"
    case r16g16_unorm => "r16g16_unorm"
    case r16g16_snorm => "r16g16_snorm"
    case r16g16_uscaled => "r16g16_uscaled"
    case r16g16_sscaled => "r16g16_sscaled"
    case r16g16_uint => "r16g16_uint"
    case r16g16_sint => "r16g16_sint"
    case r16g16_sfloat => "r16g16_sfloat"
    case r16g16b16_unorm => "r16g16b16_unorm"
    case r16g16b16_snorm => "r16g16b16_snorm"
    case r16g16b16_uscaled => "r16g16b16_uscaled"
    case r16g16b16_sscaled => "r16g16b16_sscaled"
    case r16g16b16_uint => "r16g16b16_uint"
    case r16g16b16_sint => "r16g16b16_sint"
    case r16g16b16_sfloat => "r16g16b16_sfloat"
    case r16g16b16a16_unorm => "r16g16b16a16_unorm"
    case r16g16b16a16_snorm => "r16g16b16a16_snorm"
    case r16g16b16a16_uscaled => "r16g16b16a16_uscaled"
    case r16g16b16a16_sscaled => "r16g16b16a16_sscaled"
    case r16g16b16a16_uint => "r16g16b16a16_uint"
    case r16g16b16a16_sint => "r16g16b16a16_sint"
    case r16g16b16a16_sfloat => "r16g16b16a16_sfloat"
    case r32_uint => "r32_uint"
    case r32_sint => "r32_sint"
    case r32_sfloat => "r32_sfloat"
    case r32g32_uint => "r32g32_uint"
    case r32g32_sint => "r32g32_sint"
    case r32g32_sfloat => "r32g32_sfloat"
    case r32g32b32_uint => "r32g32b32_uint"
    case r32g32b32_sint => "r32g32b32_sint"
    case r32g32b32_sfloat => "r32g32b32_sfloat"
    case r32g32b32a32_uint => "r32g32b32a32_uint"
    case r32g32b32a32_sint => "r32g32b32a32_sint"
    case r32g32b32a32_sfloat => "r32g32b32a32_sfloat"
    case r64_uint => "r64_uint"
    case r64_sint => "r64_sint"
    case r64_sfloat => "r64_sfloat"
    case r64g64_uint => "r64g64_uint"
    case r64g64_sint => "r64g64_sint"
    case r64g64_sfloat => "r64g64_sfloat"
    case r64g64b64_uint => "r64g64b64_uint"
    case r64g64b64_sint => "r64g64b64_sint"
    case r64g64b64_sfloat => "r64g64b64_sfloat"
    case r64g64b64a64_uint => "r64g64b64a64_uint"
    case r64g64b64a64_sint => "r64g64b64a64_sint"
    case r64g64b64a64_sfloat => "r64g64b64a64_sfloat"
    case b10g11r11_ufloat_pack32 => "b10g11r11_ufloat_pack32"
    case e5b9g9r9_ufloat_pack32 => "e5b9g9r9_ufloat_pack32"
    case d16_unorm => "d16_unorm"
    case x8_d24_unorm_pack32 => "x8_d24_unorm_pack32"
    case d32_sfloat => "d32_sfloat"
    case s8_uint => "s8_uint"
    case d16_unorm_s8_uint => "d16_unorm_s8_uint"
    case d24_unorm_s8_uint => "d24_unorm_s8_uint"
    case d32_sfloat_s8_uint => "d32_sfloat_s8_uint"
    case bc1_rgb_unorm_block => "bc1_rgb_unorm_block"
    case bc1_rgb_srgb_block => "bc1_rgb_srgb_block"
    case bc1_rgba_unorm_block => "bc1_rgba_unorm_block"
    case bc1_rgba_srgb_block => "bc1_rgba_srgb_block"
    case bc2_unorm_block => "bc2_unorm_block"
    case bc2_srgb_block => "bc2_srgb_block"
    case bc3_unorm_block => "bc3_unorm_block"
    case bc3_srgb_block => "bc3_srgb_block"
    case bc4_unorm_block => "bc4_unorm_block"
    case bc4_snorm_block => "bc4_snorm_block"
    case bc5_unorm_block => "bc5_unorm_block"
    case bc5_snorm_block => "bc5_snorm_block"
    case bc6h_ufloat_block => "bc6h_ufloat_block"
    case bc6h_sfloat_block => "bc6h_sfloat_block"
    case bc7_unorm_block => "bc7_unorm_block"
    case bc7_srgb_block => "bc7_srgb_block"
    case etc2_r8g8b8_unorm_block => "etc2_r8g8b8_unorm_block"
    case etc2_r8g8b8_srgb_block => "etc2_r8g8b8_srgb_block"
    case etc2_r8g8b8a1_unorm_block => "etc2_r8g8b8a1_unorm_block"
    case etc2_r8g8b8a1_srgb_block => "etc2_r8g8b8a1_srgb_block"
    case etc2_r8g8b8a8_unorm_block => "etc2_r8g8b8a8_unorm_block"
    case etc2_r8g8b8a8_srgb_block => "etc2_r8g8b8a8_srgb_block"
    case eac_r11_unorm_block => "eac_r11_unorm_block"
    case eac_r11_snorm_block => "eac_r11_snorm_block"
    case eac_r11g11_unorm_block => "eac_r11g11_unorm_block"
    case eac_r11g11_snorm_block => "eac_r11g11_snorm_block"
    case astc_4x4_unorm_block => "astc_4x4_unorm_block"
    case astc_4x4_srgb_block => "astc_4x4_srgb_block"
    case astc_5x4_unorm_block => "astc_5x4_unorm_block"
    case astc_5x4_srgb_block => "astc_5x4_srgb_block"
    case astc_5x5_unorm_block => "astc_5x5_unorm_block"
    case astc_5x5_srgb_block => "astc_5x5_srgb_block"
    case astc_6x5_unorm_block => "astc_6x5_unorm_block"
    case astc_6x5_srgb_block => "astc_6x5_srgb_block"
    case astc_6x6_unorm_block => "astc_6x6_unorm_block"
    case astc_6x6_srgb_block => "astc_6x6_srgb_block"
    case astc_8x5_unorm_block => "astc_8x5_unorm_block"
    case astc_8x5_srgb_block => "astc_8x5_srgb_block"
    case astc_8x6_unorm_block => "astc_8x6_unorm_block"
    case astc_8x6_srgb_block => "astc_8x6_srgb_block"
    case astc_8x8_unorm_block => "astc_8x8_unorm_block"
    case astc_8x8_srgb_block => "astc_8x8_srgb_block"
    case astc_10x5_unorm_block => "astc_10x5_unorm_block"
    case astc_10x5_srgb_block => "astc_10x5_srgb_block"
    case astc_10x6_unorm_block => "astc_10x6_unorm_block"
    case astc_10x6_srgb_block => "astc_10x6_srgb_block"
    case astc_10x8_unorm_block => "astc_10x8_unorm_block"
    case astc_10x8_srgb_block => "astc_10x8_srgb_block"
    case astc_10x10_unorm_block => "astc_10x10_unorm_block"
    case astc_10x10_srgb_block => "astc_10x10_srgb_block"
    case astc_12x10_unorm_block => "astc_12x10_unorm_block"
    case astc_12x10_srgb_block => "astc_12x10_srgb_block"
    case astc_12x12_unorm_block => "astc_12x12_unorm_block"
    case astc_12x12_srgb_block => "astc_12x12_srgb_block"
    case g8b8g8r8_422_unorm => "g8b8g8r8_422_unorm"
    case b8g8r8g8_422_unorm => "b8g8r8g8_422_unorm"
    case g8_b8_r8_3plane_420_unorm => "g8_b8_r8_3plane_420_unorm"
    case g8_b8r8_2plane_420_unorm => "g8_b8r8_2plane_420_unorm"
    case g8_b8_r8_3plane_422_unorm => "g8_b8_r8_3plane_422_unorm"
    case g8_b8r8_2plane_422_unorm => "g8_b8r8_2plane_422_unorm"
    case g8_b8_r8_3plane_444_unorm => "g8_b8_r8_3plane_444_unorm"
    case r10x6_unorm_pack16 => "r10x6_unorm_pack16"
    case r10x6g10x6_unorm_2pack16 => "r10x6g10x6_unorm_2pack16"
    case r10x6g10x6b10x6a10x6_unorm_4pack16 => "r10x6g10x6b10x6a10x6_unorm_4pack16"
    case g10x6b10x6g10x6r10x6_422_unorm_4pack16 => "g10x6b10x6g10x6r10x6_422_unorm_4pack16"
    case b10x6g10x6r10x6g10x6_422_unorm_4pack16 => "b10x6g10x6r10x6g10x6_422_unorm_4pack16"
    case g10x6_b10x6_r10x6_3plane_420_unorm_3pack16 => "g10x6_b10x6_r10x6_3plane_420_unorm_3pack16"
    case g10x6_b10x6r10x6_2plane_420_unorm_3pack16 => "g10x6_b10x6r10x6_2plane_420_unorm_3pack16"
    case g10x6_b10x6_r10x6_3plane_422_unorm_3pack16 => "g10x6_b10x6_r10x6_3plane_422_unorm_3pack16"
    case g10x6_b10x6r10x6_2plane_422_unorm_3pack16 => "g10x6_b10x6r10x6_2plane_422_unorm_3pack16"
    case g10x6_b10x6_r10x6_3plane_444_unorm_3pack16 => "g10x6_b10x6_r10x6_3plane_444_unorm_3pack16"
    case r12x4_unorm_pack16 => "r12x4_unorm_pack16"
    case r12x4g12x4_unorm_2pack16 => "r12x4g12x4_unorm_2pack16"
    case r12x4g12x4b12x4a12x4_unorm_4pack16 => "r12x4g12x4b12x4a12x4_unorm_4pack16"
    case g12x4b12x4g12x4r12x4_422_unorm_4pack16 => "g12x4b12x4g12x4r12x4_422_unorm_4pack16"
    case b12x4g12x4r12x4g12x4_422_unorm_4pack16 => "b12x4g12x4r12x4g12x4_422_unorm_4pack16"
    case g12x4_b12x4_r12x4_3plane_420_unorm_3pack16 => "g12x4_b12x4_r12x4_3plane_420_unorm_3pack16"
    case g12x4_b12x4r12x4_2plane_420_unorm_3pack16 => "g12x4_b12x4r12x4_2plane_420_unorm_3pack16"
    case g12x4_b12x4_r12x4_3plane_422_unorm_3pack16 => "g12x4_b12x4_r12x4_3plane_422_unorm_3pack16"
    case g12x4_b12x4r12x4_2plane_422_unorm_3pack16 => "g12x4_b12x4r12x4_2plane_422_unorm_3pack16"
    case g12x4_b12x4_r12x4_3plane_444_unorm_3pack16 => "g12x4_b12x4_r12x4_3plane_444_unorm_3pack16"
    case g16b16g16r16_422_unorm => "g16b16g16r16_422_unorm"
    case b16g16r16g16_422_unorm => "b16g16r16g16_422_unorm"
    case g16_b16_r16_3plane_420_unorm => "g16_b16_r16_3plane_420_unorm"
    case g16_b16r16_2plane_420_unorm => "g16_b16r16_2plane_420_unorm"
    case g16_b16_r16_3plane_422_unorm => "g16_b16_r16_3plane_422_unorm"
    case g16_b16r16_2plane_422_unorm => "g16_b16r16_2plane_422_unorm"
    case g16_b16_r16_3plane_444_unorm => "g16_b16_r16_3plane_444_unorm"
    case g8_b8r8_2plane_444_unorm => "g8_b8r8_2plane_444_unorm"
    case g10x6_b10x6r10x6_2plane_444_unorm_3pack16 => "g10x6_b10x6r10x6_2plane_444_unorm_3pack16"
    case g12x4_b12x4r12x4_2plane_444_unorm_3pack16 => "g12x4_b12x4r12x4_2plane_444_unorm_3pack16"
    case g16_b16r16_2plane_444_unorm => "g16_b16r16_2plane_444_unorm"
    case a4r4g4b4_unorm_pack16 => "a4r4g4b4_unorm_pack16"
    case a4b4g4r4_unorm_pack16 => "a4b4g4r4_unorm_pack16"
    case astc_4x4_sfloat_block => "astc_4x4_sfloat_block"
    case astc_5x4_sfloat_block => "astc_5x4_sfloat_block"
    case astc_5x5_sfloat_block => "astc_5x5_sfloat_block"
    case astc_6x5_sfloat_block => "astc_6x5_sfloat_block"
    case astc_6x6_sfloat_block => "astc_6x6_sfloat_block"
    case astc_8x5_sfloat_block => "astc_8x5_sfloat_block"
    case astc_8x6_sfloat_block => "astc_8x6_sfloat_block"
    case astc_8x8_sfloat_block => "astc_8x8_sfloat_block"
    case astc_10x5_sfloat_block => "astc_10x5_sfloat_block"
    case astc_10x6_sfloat_block => "astc_10x6_sfloat_block"
    case astc_10x8_sfloat_block => "astc_10x8_sfloat_block"
    case astc_10x10_sfloat_block => "astc_10x10_sfloat_block"
    case astc_12x10_sfloat_block => "astc_12x10_sfloat_block"
    case astc_12x12_sfloat_block => "astc_12x12_sfloat_block"
  }
}
