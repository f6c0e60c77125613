// vtek::SupportedFormat (src/vtek_format_support.cpp:2336-2573): a format the
// device supports, with the format's details packed into a 32-bit property
// mask by the constructor and read back by the getters, and the FindFormat
// searches that build one. vkGetPhysicalDeviceFormatProperties is an oracle.
module FormatSupport {
  import opened Wrappers
  import opened Formats
  import opened ImageFormats

  // The property mask layout.
  const CHANNEL_BITS: bv32 := 0x0003
  const ALPHA_BIT: bv32 := 0x0004
  const SRGB_BIT: bv32 := 0x0008
  const COMPRESSED_BIT: bv32 := 0x0010
  const LINEAR_TILING_BIT: bv32 := 0x0020
  const BLUE_ENDIAN_BIT: bv32 := 0x0040
  const ALPHA_FIRST_BIT: bv32 := 0x0080
  const DEPTH_BIT: bv32 := 0x0100
  const STENCIL_BIT: bv32 := 0x0200
  const DEPTH_STENCIL_BITS: bv32 := DEPTH_BIT | STENCIL_BIT
  const PLANAR_BIT: bv32 := 0x0400

  /**
   * The state of a vtek::SupportedFormat: the vtek format, the VkFormat it
   * stands for, the packed properties, the storage type and the compression
   * scheme.
   */
  datatype SupportedFormat = SupportedFormat(
    format: Format, fmt: Format, propertyMask: bv32,
    storage: StorageType, compression: Compression)

  /** `bit` when `flag` holds, nothing otherwise: one `mask |= flag ? bit : 0U;` step. */
  function BitIf(flag: bool, bit: bv32): bv32
  {
    if flag then bit else 0
  }

  /** The channel count minus one, in the two channel bits. */
  function ChannelBits(channels: ChannelCount): bv32
  {
    (channels as int - 1) as bv32 & CHANNEL_BITS
  }

  /**
   * The mask the constructor assembles: channels - 1 in the two low bits,
   * then one bit per detail flag and one for the tiling.
   */
  function PackBits(
    channels: ChannelCount, alpha: bool, alphaFirst: bool, sRGB: bool, compressed: bool,
    linearTiling: bool, blueEndian: bool, depth: bool, stencil: bool, planar: bool): bv32
  {
    ChannelBits(channels)
    | BitIf(alpha, ALPHA_BIT)
    | BitIf(alphaFirst, ALPHA_FIRST_BIT)
    | BitIf(sRGB, SRGB_BIT)
    | BitIf(compressed, COMPRESSED_BIT)
    | BitIf(linearTiling, LINEAR_TILING_BIT)
    | BitIf(blueEndian, BLUE_ENDIAN_BIT)
    | BitIf(depth, DEPTH_BIT)
    | BitIf(stencil, STENCIL_BIT)
    | BitIf(planar, PLANAR_BIT)
  }

  /** The mask packed for a format with details `d` and the given tiling. */
  function PropertyMask(d: Details, linearTiling: bool): bv32
  {
    PackBits(d.channels, d.alpha, d.alphaFirst, d.sRGB, d.compression != none,
             linearTiling, d.blueEndian, d.depth, d.stencil, d.planar)
  }

  // The getters.

  /** get_num_channels: the two channel bits plus one. */
  function NumChannels(sf: SupportedFormat): (n: nat)
    ensures 1 <= n <= 4
  {
    (sf.propertyMask & CHANNEL_BITS) as nat + 1
  }

  predicate HasAlpha(sf: SupportedFormat) { sf.propertyMask & ALPHA_BIT != 0 }
  predicate IsSrgb(sf: SupportedFormat) { sf.propertyMask & SRGB_BIT != 0 }
  predicate IsCompressed(sf: SupportedFormat) { sf.propertyMask & COMPRESSED_BIT != 0 }
  predicate IsLinearTilingSupported(sf: SupportedFormat) { sf.propertyMask & LINEAR_TILING_BIT != 0 }
  predicate IsBlueEndian(sf: SupportedFormat) { sf.propertyMask & BLUE_ENDIAN_BIT != 0 }
  predicate IsAlphaFirst(sf: SupportedFormat) { sf.propertyMask & ALPHA_FIRST_BIT != 0 }
  predicate IsDepthStencil(sf: SupportedFormat) { sf.propertyMask & DEPTH_STENCIL_BITS != 0 }
  predicate HasDepth(sf: SupportedFormat) { sf.propertyMask & DEPTH_BIT != 0 }
  predicate HasStencil(sf: SupportedFormat) { sf.propertyMask & STENCIL_BIT != 0 }
  predicate IsPlanar(sf: SupportedFormat) { sf.propertyMask & PLANAR_BIT != 0 }

  /** get_compression_scheme. */
  function CompressionScheme(sf: SupportedFormat): Compression { sf.compression }

  /** get_storage_type. */
  function StorageTypeOf(sf: SupportedFormat): StorageType { sf.storage }

  /** get: the VkFormat. */
  function Get(sf: SupportedFormat): Format { sf.fmt }

  /** get_format_string: the name of the vtek format. */
  function FormatString(sf: SupportedFormat): string { FormatName(sf.format) }

  /** operator== against a vtek::Format compares the stored vtek format. */
  predicate EqualsFormat(sf: SupportedFormat, f: Format) { sf.format == f }

  /** Every getter reads back what the constructor packed for these details. */
  predicate DecodesTo(sf: SupportedFormat, d: Details, linearTiling: bool)
  {
    NumChannels(sf) == d.channels
    && (HasAlpha(sf) <==> d.alpha)
    && (IsSrgb(sf) <==> d.sRGB)
    && (IsCompressed(sf) <==> d.compression != none)
    && (IsLinearTilingSupported(sf) <==> linearTiling)
    && (IsBlueEndian(sf) <==> d.blueEndian)
    && (IsAlphaFirst(sf) <==> d.alphaFirst)
    && (HasDepth(sf) <==> d.depth)
    && (HasStencil(sf) <==> d.stencil)
    && (IsPlanar(sf) <==> d.planar)
    && (IsDepthStencil(sf) <==> d.depth || d.stencil)
  }

  /**
   * Every getter of a SupportedFormat whose mask the constructor packed from
   * `d` and `linearTiling` reads back the packed detail.
   */
  lemma PackedMaskDecodes(sf: SupportedFormat, d: Details, linearTiling: bool)
    requires sf.propertyMask == PropertyMask(d, linearTiling)
    ensures DecodesTo(sf, d, linearTiling)
  {
    ChannelAndColourBitsDecode(sf, d, linearTiling);
    LayoutBitsDecode(sf, d, linearTiling);
    DepthStencilBitsDecode(sf, d, linearTiling);
  }

  lemma ChannelAndColourBitsDecode(sf: SupportedFormat, d: Details, linearTiling: bool)
    requires sf.propertyMask == PropertyMask(d, linearTiling)
    ensures NumChannels(sf) == d.channels
    ensures HasAlpha(sf) <==> d.alpha
    ensures IsAlphaFirst(sf) <==> d.alphaFirst
    ensures IsSrgb(sf) <==> d.sRGB
  {
  }

  lemma LayoutBitsDecode(sf: SupportedFormat, d: Details, linearTiling: bool)
    requires sf.propertyMask == PropertyMask(d, linearTiling)
    ensures IsCompressed(sf) <==> d.compression != none
    ensures IsLinearTilingSupported(sf) <==> linearTiling
    ensures IsBlueEndian(sf) <==> d.blueEndian
    ensures IsPlanar(sf) <==> d.planar
  {
  }

  lemma DepthStencilBitsDecode(sf: SupportedFormat, d: Details, linearTiling: bool)
    requires sf.propertyMask == PropertyMask(d, linearTiling)
    ensures HasDepth(sf) <==> d.depth
    ensures HasStencil(sf) <==> d.stencil
    ensures IsDepthStencil(sf) <==> d.depth || d.stencil
  {
  }

  /** is_depth_stencil holds exactly when has_depth or has_stencil does. */
  lemma DepthStencilIsEither(sf: SupportedFormat)
    ensures IsDepthStencil(sf) <==> HasDepth(sf) || HasStencil(sf)
  {
  }

  // ---------------------------------------------------------------------
  // Construction.

  /**
   * The private constructor for a format whose details are `details`, with
   * the compression scheme taken from the details: every getter reads back
   * the details, and the scheme is none exactly when is_compressed is false.
   */
  method BuildSupportedFormat(format: Format, fmt: Format, details: Details, linearTiling: bool)
    returns (sf: SupportedFormat)
    ensures sf.format == format && sf.fmt == fmt
    ensures sf.propertyMask == PropertyMask(details, linearTiling)
    ensures sf.storage == details.storageType
    ensures sf.compression == details.compression
    ensures DecodesTo(sf, details, linearTiling)
    ensures IsCompressed(sf) <==> CompressionScheme(sf) != none
  {
    var mask := PropertyMask(details, linearTiling);
    var compression := none;
    if details.compression != none {
      compression := details.compression;
    }
    sf := SupportedFormat(format, fmt, mask, details.storageType, compression);
    PackedMaskDecodes(sf, details, linearTiling);
  }

  /**
   * The private constructor as the source writes it: the compression branch
   * assigns the member to itself, so the scheme keeps its initial value,
   * taken here as none, and a compressed format reports no scheme.
   */
  method BuildSupportedFormatAsWritten(format: Format, fmt: Format, details: Details, linearTiling: bool)
    returns (sf: SupportedFormat)
    ensures sf.format == format && sf.fmt == fmt
    ensures sf.propertyMask == PropertyMask(details, linearTiling)
    ensures sf.storage == details.storageType
    ensures DecodesTo(sf, details, linearTiling)
    ensures CompressionScheme(sf) == none
    ensures details.compression != none ==>
      IsCompressed(sf) && CompressionScheme(sf) != details.compression
  {
    var mask := PropertyMask(details, linearTiling);
    var compression := none;
    if details.compression != none {
      compression := compression;
    }
    sf := SupportedFormat(format, fmt, mask, details.storageType, compression);
    PackedMaskDecodes(sf, details, linearTiling);
  }

  /**
   * The SupportedFormat the constructor, as written, builds for `format`, its
   * VkFormat `fmt` and a tiling: the details are packed into the mask, and
   * the compression scheme keeps its initial value, none.
   */
  function SupportedFormatFor(format: Format, fmt: Format, linearTiling: bool): SupportedFormat
  {
    var details := FormatDetails(format);
    SupportedFormat(format, fmt, PropertyMask(details, linearTiling), details.storageType, none)
  }

  /**
   * What the constructor builds reads back the format's details through
   * every getter except get_compression_scheme, which reports none even for
   * a compressed format.
   */
  lemma SupportedFormatForDecodes(format: Format, fmt: Format, linearTiling: bool)
    ensures DecodesTo(SupportedFormatFor(format, fmt, linearTiling), FormatDetails(format), linearTiling)
    ensures CompressionScheme(SupportedFormatFor(format, fmt, linearTiling)) == none
  {
    PackedMaskDecodes(SupportedFormatFor(format, fmt, linearTiling), FormatDetails(format), linearTiling);
  }

  /**
   * SupportedFormat(_format, _fmt, linearTiling): looks the details up, then
   * packs them, with the compression branch as written.
   */
  method NewSupportedFormat(format: Format, fmt: Format, linearTiling: bool)
    returns (sf: SupportedFormat)
    ensures sf == SupportedFormatFor(format, fmt, linearTiling)
  {
    sf := BuildSupportedFormatAsWritten(format, fmt, FormatDetails(format), linearTiling);
  }

  // ---------------------------------------------------------------------
  // FindFormat.

  /** The tiling test of FindFormat: the features of the requested tiling cover `flags`. */
  predicate TilingCovers(props: FormatProperties, linear: bool, flags: bv32)
  {
    if linear then Covers(props.linearTilingFeatures, flags) else Covers(props.optimalTilingFeatures, flags)
  }

  /** The device supports the request for this format, in the requested tiling. */
  predicate RequestSupported(info: FormatInfo, format: Format, properties: Format -> FormatProperties)
  {
    TilingCovers(properties(format), info.linearTiling, GetFormatFeatures(info.features))
  }

  /** The test of the single-format FindFormat: a real format, a request, and support for it. */
  predicate Supports(info: Option<FormatInfo>, format: Format, properties: Format -> FormatProperties)
  {
    !format.undefined? && info.Some? && RequestSupported(info.value, format, properties)
  }

  /**
   * FindFormat for one format: false for undefined or a missing request;
   * otherwise it succeeds exactly when the device supports the request, and
   * `out` then holds what the constructor builds for the format and the
   * requested tiling (whose getters read back the format's details, and
   * whose compression scheme is none, by SupportedFormatForDecodes); on
   * failure `out` is left alone.
   */
  method FindFormat(
    info: Option<FormatInfo>, format: Format, properties: Format -> FormatProperties,
    out: SupportedFormat)
    returns (found: bool, result: SupportedFormat)
    ensures found <==> Supports(info, format, properties)
    ensures found ==> result == SupportedFormatFor(format, format, info.value.linearTiling)
    ensures !found ==> result == out
  {
    if format.undefined? || info.None? {
      assert !Supports(info, format, properties);
      return false, out;
    }
    assert Supports(info, format, properties) <==> RequestSupported(info.value, format, properties);
    found, result := FindForRequest(info.value, format, properties, out);
  }

  /** FindFormat past its null checks: the request is translated to feature flags. */
  method FindForRequest(info: FormatInfo, format: Format, properties: Format -> FormatProperties, out: SupportedFormat)
    returns (found: bool, result: SupportedFormat)
    ensures found <==> RequestSupported(info, format, properties)
    ensures found ==> result == SupportedFormatFor(format, format, info.linearTiling)
    ensures !found ==> result == out
  {
    var fflags := GetFormatFeatures(info.features);
    found, result := FindWithFlags(format, info.linearTiling, properties(format), fflags, out);
  }

  /** The tiling branches of FindFormat, once the request is translated to `fflags`. */
  method FindWithFlags(format: Format, linear: bool, props: FormatProperties, fflags: bv32, out: SupportedFormat)
    returns (found: bool, result: SupportedFormat)
    ensures found <==> TilingCovers(props, linear, fflags)
    ensures !found ==> result == out
    ensures found ==> result == SupportedFormatFor(format, format, linear)
  {
    var fmt := format;
    if linear && Covers(props.linearTilingFeatures, fflags) {
      result := NewSupportedFormat(format, fmt, linear);
      return true, result;
    } else if !linear && Covers(props.optimalTilingFeatures, fflags) {
      result := NewSupportedFormat(format, fmt, linear);
      return true, result;
    } else {
      return false, out;
    }
  }

  /** The first format of the list that FindFormat accepts, if any. */
  function FirstSupportedFormat(
    info: Option<FormatInfo>, formats: seq<Format>, properties: Format -> FormatProperties): Option<Format>
  {
    if |formats| == 0 then None
    else if Supports(info, formats[0], properties) then Some(formats[0])
    else FirstSupportedFormat(info, formats[1..], properties)
  }

  /**
   * FirstSupportedFormat finds a format exactly when some format of the list
   * is supported, and what it finds is the earliest supported one.
   */
  lemma {:induction false} FirstSupportedFormatIsFirst(
    info: Option<FormatInfo>, formats: seq<Format>, properties: Format -> FormatProperties)
    ensures FirstSupportedFormat(info, formats, properties).None? <==>
      forall i :: 0 <= i < |formats| ==> !Supports(info, formats[i], properties)
    ensures FirstSupportedFormat(info, formats, properties).Some? ==>
      exists i :: 0 <= i < |formats|
        && formats[i] == FirstSupportedFormat(info, formats, properties).value
        && Supports(info, formats[i], properties)
        && forall j :: 0 <= j < i ==> !Supports(info, formats[j], properties)
  {
    if |formats| > 0 && !Supports(info, formats[0], properties) {
      var rest := formats[1..];
      FirstSupportedFormatIsFirst(info, rest, properties);
      if FirstSupportedFormat(info, rest, properties).Some? {
        var i :| 0 <= i < |rest|
          && rest[i] == FirstSupportedFormat(info, rest, properties).value
          && Supports(info, rest[i], properties)
          && forall j :: 0 <= j < i ==> !Supports(info, rest[j], properties);
        assert formats[i + 1] == rest[i];
        forall j | 0 <= j < i + 1
          ensures !Supports(info, formats[j], properties)
        {
          if j > 0 { assert formats[j] == rest[j - 1]; }
        }
      } else {
        forall i | 0 <= i < |formats|
          ensures !Supports(info, formats[i], properties)
        {
          if i > 0 { assert formats[i] == rest[i - 1]; }
        }
      }
    }
  }

  /** A missing request finds nothing, whatever the list. */
  lemma {:induction false} NoRequestFindsNothing(formats: seq<Format>, properties: Format -> FormatProperties)
    ensures FirstSupportedFormat(None, formats, properties) == None
  {
    if |formats| > 0 {
      NoRequestFindsNothing(formats[1..], properties);
    }
  }

  /**
   * FindFormat over a list: tries each format in order and stops at the
   * first success; `out` is left as it was when none succeeds.
   */
  method FindFormatInList(
    info: Option<FormatInfo>, formats: seq<Format>, properties: Format -> FormatProperties,
    out: SupportedFormat)
    returns (found: bool, result: SupportedFormat)
    ensures found == FirstSupportedFormat(info, formats, properties).Some?
    ensures !found ==> result == out
    ensures found ==> info.Some? && var first := FirstSupportedFormat(info, formats, properties).value;
      result == SupportedFormatFor(first, first, info.value.linearTiling)
  {
    var i := 0;
    while i < |formats|
      invariant 0 <= i <= |formats|
      invariant FirstSupportedFormat(info, formats, properties) == FirstSupportedFormat(info, formats[i..], properties)
    {
      assert formats[i..][1..] == formats[i + 1..];
      var ok, candidate := FindFormat(info, formats[i], properties, out);
      if ok {
        return true, candidate;
      }
      i := i + 1;
    }
    return false, out;
  }

}
