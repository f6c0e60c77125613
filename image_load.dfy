// Image file loading. get_image_type is the same in
// src/imgutils/vtek_image_load.cpp and src/imgload/vtek_image_load.cpp and is
// modelled once (ImageFiles); the two copies of image_load and
// image_load_data_get_size differ and are modelled apart (ImgUtils, ImgLoad).
// The stb_image calls are inputs: whether a file could be opened or decoded,
// and the width, height and channel count the decoder reports.
module ImageFiles {

  /** vtek::ImageFileType. */
  datatype ImageFileType = Empty | Unsupported | Jpg | Png | Tga | Bmp | Hdr

  /** std::tolower in the "C" locale: only 'A'..'Z' change. */
  function ToLower(c: char): (r: char)
    ensures 'A' <= c <= 'Z' ==> r == (c as int + 32) as char
    ensures !('A' <= c <= 'Z') ==> r == c
  {
    if 'A' <= c <= 'Z' then (c as int + 32) as char else c
  }

  /** std::toupper in the "C" locale, the inverse direction. */
  function ToUpper(c: char): char
  {
    if 'a' <= c <= 'z' then (c as int - 32) as char else c
  }

  /** A string with every character lower-cased. */
  function Lowercase(s: string): (r: string)
    ensures |r| == |s|
  {
    seq(|s|, i requires 0 <= i < |s| => ToLower(s[i]))
  }

  /** A string with every character upper-cased. */
  function Uppercase(s: string): (r: string)
    ensures |r| == |s|
  {
    seq(|s|, i requires 0 <= i < |s| => ToUpper(s[i]))
  }

  /** The extensions get_image_type recognises, all in lower case. */
  predicate Recognised(ext: string)
  {
    ext == "jpg" || ext == "jpeg" || ext == "png" || ext == "tga" || ext == "bmp" || ext == "hdr"
  }

  /**
   * The comparisons of get_image_type on a lower-cased extension: jpg and
   * jpeg are jpg, png, tga, bmp and hdr are themselves, and anything else is
   * unsupported; the result is never `Empty`.
   */
  function ClassifyExtension(ext: string): (r: ImageFileType)
    ensures r.Jpg? <==> ext == "jpg" || ext == "jpeg"
    ensures r.Png? <==> ext == "png"
    ensures r.Tga? <==> ext == "tga"
    ensures r.Bmp? <==> ext == "bmp"
    ensures r.Hdr? <==> ext == "hdr"
    ensures r.Unsupported? <==> !Recognised(ext)
    ensures !r.Empty?
  {
    if ext == "jpg" || ext == "jpeg" then Jpg
    else if ext == "png" then Png
    else if ext == "tga" then Tga
    else if ext == "bmp" then Bmp
    else if ext == "hdr" then Hdr
    else Unsupported
  }

  /** The type get_image_type gives a file whose extension is `extension`. */
  function ImageTypeOf(extension: string): ImageFileType
  {
    if extension == [] then Empty else ClassifyExtension(Lowercase(extension))
  }

  /**
   * get_image_type, given the extension filename_get_extension extracts (that
   * function is not part of this model): an empty extension is `Empty`;
   * otherwise a copy is lower-cased in place and classified.
   */
  method GetImageType(extension: string) returns (t: ImageFileType)
    ensures t == ImageTypeOf(extension)
    ensures t.Empty? <==> extension == []
  {
    if extension == [] {
      return Empty;
    }
    var ext := extension;
    var i := 0;
    while i < |ext|
      invariant 0 <= i <= |ext| == |extension|
      invariant forall k :: 0 <= k < i ==> ext[k] == ToLower(extension[k])
      invariant forall k :: i <= k < |ext| ==> ext[k] == extension[k]
    {
      ext := ext[i := ToLower(ext[i])];
      i := i + 1;
    }
    assert ext == Lowercase(extension);
    t := ClassifyExtension(ext);
  }

  /** Lower-casing an upper-cased character gives the lower-cased character. */
  lemma ToLowerIgnoresCase(c: char)
    ensures ToLower(ToUpper(c)) == ToLower(c)
  {
  }

  /**
   * The classification does not depend on case: an extension and its
   * upper-cased form are of the same type, so "JPEG", "Png" and "png" are
   * recognised like their lower-case spellings.
   */
  lemma ImageTypeIgnoresCase(extension: string)
    ensures ImageTypeOf(Uppercase(extension)) == ImageTypeOf(extension)
  {
    var u := Uppercase(extension);
    forall k | 0 <= k < |extension|
      ensures Lowercase(u)[k] == Lowercase(extension)[k]
    {
      ToLowerIgnoresCase(extension[k]);
    }
    assert Lowercase(u) == Lowercase(extension);
  }

  /** The types image_load accepts: every listed type except empty and unsupported. */
  predicate Loadable(t: ImageFileType)
  {
    !t.Empty? && !t.Unsupported?
  }

  /** A file can be loaded exactly when its lower-cased extension is recognised. */
  lemma LoadableIffRecognised(extension: string)
    ensures Loadable(ImageTypeOf(extension)) <==> extension != [] && Recognised(Lowercase(extension))
  {
  }
}

// src/imgutils/vtek_image_load.cpp: the loader with 8-bit, 16-bit and float
// buffers.
module ImgUtils {
  import opened Wrappers
  import opened ImageFiles

  /** STBI_rgb_alpha. */
  const STBI_RGB_ALPHA: int := 4

  /**
   * vtek::ImageLoadData of this loader; each buffer is present or null.
   */
  datatype ImageLoadData = ImageLoadData(
    data: bool, data16: bool, fdata: bool, width: nat, height: nat, channels: nat)

  /** The zero-initialised value image_load_data_destroy leaves. */
  const EMPTY_DATA := ImageLoadData(false, false, false, 0, 0, 0)

  /**
   * image_load succeeds: the file exists, its type is loadable, it opens, it
   * is not a 16-bit image (unless it is HDR, which is tested first), the
   * decoder returns data, and the reported dimensions are all positive.
   */
  predicate LoadSucceeds(fileExists: bool, extension: string, opens: bool, isHdr: bool,
                         is16Bit: bool, decoded: bool, width: int, height: int, channels: int)
  {
    fileExists && Loadable(ImageTypeOf(extension)) && opens && (isHdr || !is16Bit) &&
    decoded && width > 0 && height > 0 && channels > 0
  }

  /**
   * image_load, given what the filesystem and stb_image report: whether the
   * file exists and can be opened, whether it is HDR or 16-bit, whether
   * decoding produced data, and the dimensions the decoder reports.
   * `requested` is the channel count handed to the 8-bit decoder and
   * `reachedOpen` whether the file was opened at all. An empty or
   * unsupported extension fails before the file is opened; png asks for four
   * channels and every other type for the file's own; an HDR file is decoded
   * into the float buffer and any other into the 8-bit buffer; on a
   * non-positive dimension the data is cleared.
   */
  method ImageLoad(fileExists: bool, extension: string, opens: bool, isHdr: bool, is16Bit: bool,
                   decoded: bool, width: int, height: int, channels: int, outData: ImageLoadData)
    returns (ok: bool, requested: int, reachedOpen: bool, result: ImageLoadData)
    ensures ok <==> LoadSucceeds(fileExists, extension, opens, isHdr, is16Bit, decoded,
                                 width, height, channels)
    ensures reachedOpen <==> fileExists && Loadable(ImageTypeOf(extension))
    ensures reachedOpen ==> requested == (if ImageTypeOf(extension).Png? then STBI_RGB_ALPHA else 0)
    ensures !reachedOpen ==> result == outData
    ensures ok && isHdr ==> result == outData.(fdata := true, width := U32(width),
                                               height := U32(height), channels := U32(channels))
    ensures ok && !isHdr ==> result == outData.(data := true, width := U32(width),
                                                height := U32(height), channels := U32(channels))
    ensures reachedOpen && opens && (isHdr || !is16Bit) && decoded && !ok ==> result == EMPTY_DATA
  {
    ok, requested, reachedOpen, result := false, 0, false, outData;
    if !fileExists {
      return;
    }
    var filetype := GetImageType(extension);
    match filetype {
      case Empty => return;
      case Unsupported => return;
      case Png => requested := STBI_RGB_ALPHA;
      case _ =>
    }
    reachedOpen := true;
    if !opens {
      return;
    }
    if isHdr {
      result := result.(fdata := decoded);
    } else if is16Bit {
      return;
    } else {
      result := result.(data := decoded);
    }
    if !decoded {
      return;
    }
    if width <= 0 || height <= 0 || channels <= 0 {
      result := EMPTY_DATA;
      return;
    }
    result := result.(width := U32(width), height := U32(height), channels := U32(channels));
    ok := true;
  }

  /**
   * The bytes per channel image_load_data_get_size assumes: 1 for 8-bit
   * data, 2 for 16-bit data, 32 for float data (the first buffer present
   * decides), 0 with no data.
   */
  function ChannelSize(d: ImageLoadData): (r: nat)
    ensures r == 0 <==> !d.data && !d.data16 && !d.fdata
    ensures d.data ==> r == 1
    ensures !d.data && d.data16 ==> r == 2
    ensures !d.data && !d.data16 && d.fdata ==> r == 32
  {
    if d.data then 1 else if d.data16 then 2 else if d.fdata then 32 else 0
  }

  /**
   * image_load_data_get_size: the product of the channel size, the channel
   * count, the width and the height, each multiplication done in uint32_t.
   */
  function DataSize(d: ImageLoadData): (r: nat)
    ensures r < 0x1_0000_0000
    ensures ChannelSize(d) == 0 || d.channels == 0 || d.width == 0 || d.height == 0 ==> r == 0
  {
    U32(U32(U32(ChannelSize(d) * d.channels) * d.width) * d.height)
  }

  /**
   * The size is the full product reduced modulo 2^32: it equals the product
   * when that fits in 32 bits, and is 0 without data.
   */
  lemma DataSizeWraps(d: ImageLoadData)
    ensures DataSize(d) == U32(ChannelSize(d) * d.channels * d.width * d.height)
    ensures ChannelSize(d) * d.channels * d.width * d.height < TWO_32 ==>
      DataSize(d) == ChannelSize(d) * d.channels * d.width * d.height
    ensures !d.data && !d.data16 && !d.fdata ==> DataSize(d) == 0
  {
    var a := ChannelSize(d) * d.channels;
    U32MulWrap(a, d.width);
    U32MulWrap(a * d.width, d.height);
    U32MulWrap(U32(a) * d.width, d.height);
  }
}

// src/imgload/vtek_image_load.cpp: the loader image2d_load uses, with an
// 8-bit buffer only.
module ImgLoad {
  import opened Wrappers
  import opened ImageFiles

  /** vtek::ImageLoadData of this loader; `channels` and `bitsPerChannel` are uint8_t. */
  datatype ImageLoadData = ImageLoadData(
    data: bool, width: nat, height: nat, channels: nat, bitsPerChannel: nat)

  /** vtek::ImageLoadInfo. */
  datatype ImageLoadInfo = ImageLoadInfo(desiredChannels: int)

  /** The zero-initialised value image_load_data_destroy leaves. */
  const EMPTY_DATA := ImageLoadData(false, 0, 0, 0, 0)

  /**
   * image_load succeeds: the file exists, its type is loadable, the caller
   * asked for a nonzero channel count, the decoder returns data, and no
   * reported dimension is negative.
   */
  predicate LoadSucceeds(fileExists: bool, extension: string, info: ImageLoadInfo, decoded: bool,
                         width: int, height: int, channels: int)
  {
    fileExists && Loadable(ImageTypeOf(extension)) && info.desiredChannels != 0 &&
    decoded && width >= 0 && height >= 0 && channels >= 0
  }

  /**
   * image_load, given what the filesystem and stb_image report. The checks
   * come in the order of the source: existence, extension, the requested
   * channel count, decoding, then the signs of the dimensions. The channel
   * count is stored in a uint8_t and so kept modulo 256; bitsPerChannel is
   * never written.
   */
  method ImageLoad(fileExists: bool, extension: string, info: ImageLoadInfo, decoded: bool,
                   width: int, height: int, channels: int, outData: ImageLoadData)
    returns (ok: bool, decoderCalled: bool, result: ImageLoadData)
    ensures ok <==> LoadSucceeds(fileExists, extension, info, decoded, width, height, channels)
    ensures decoderCalled <==>
      fileExists && Loadable(ImageTypeOf(extension)) && info.desiredChannels != 0
    ensures !decoderCalled ==> result == outData
    ensures decoderCalled && !decoded ==> result == outData.(data := false)
    ensures ok ==> result == outData.(data := true, width := U32(width), height := U32(height),
                                      channels := channels % 256)
    ensures decoderCalled && decoded && !ok ==> result == EMPTY_DATA
  {
    ok, decoderCalled, result := false, false, outData;
    if !fileExists {
      return;
    }
    var filetype := GetImageType(extension);
    if filetype.Empty? || filetype.Unsupported? {
      return;
    }
    if info.desiredChannels == 0 {
      return;
    }
    decoderCalled := true;
    result := result.(data := decoded);
    if !decoded {
      return;
    }
    if width < 0 || height < 0 || channels < 0 {
      result := EMPTY_DATA;
      return;
    }
    result := result.(width := U32(width), height := U32(height), channels := channels % 256);
    ok := true;
  }

  /**
   * image_load_data_get_size: bitsPerChannel × channels × width × height;
   * the first product is an int, the next two are uint32_t and wrap.
   */
  function DataSize(d: ImageLoadData): (r: nat)
    ensures r < 0x1_0000_0000
    ensures d.bitsPerChannel == 0 || d.channels == 0 || d.width == 0 || d.height == 0 ==> r == 0
  {
    U32(U32(U32(d.bitsPerChannel * d.channels) * d.width) * d.height)
  }

  /**
   * The size is the full product modulo 2^32, equal to the product when that
   * fits in 32 bits, and 0 whenever bitsPerChannel is 0.
   */
  lemma DataSizeWraps(d: ImageLoadData)
    ensures DataSize(d) == U32(d.bitsPerChannel * d.channels * d.width * d.height)
    ensures d.bitsPerChannel * d.channels * d.width * d.height < TWO_32 ==>
      DataSize(d) == d.bitsPerChannel * d.channels * d.width * d.height
    ensures d.bitsPerChannel == 0 ==> DataSize(d) == 0
  {
    var a := d.bitsPerChannel * d.channels;
    U32MulWrap(a, d.width);
    U32MulWrap(a * d.width, d.height);
    U32MulWrap(U32(a) * d.width, d.height);
  }

  /**
   * The load info image2d_load passes (src/vtek_image.cpp:215): a
   * value-initialised ImageLoadInfo, whose desiredChannels is 0.
   */
  function Image2dLoadInfoAsWritten(): (info: ImageLoadInfo)
    ensures info.desiredChannels == 0
  {
    ImageLoadInfo(0)
  }

  /**
   * With that load info image_load fails for every file, so image2d_load
   * can never load an image.
   */
  lemma Image2dLoadAlwaysFails(fileExists: bool, extension: string, decoded: bool,
                               width: int, height: int, channels: int)
    ensures !LoadSucceeds(fileExists, extension, Image2dLoadInfoAsWritten(), decoded,
                          width, height, channels)
  {
  }

  /**
   * The load info image2d_load evidently means to pass: the four channels
   * (STBI_rgb_alpha) image_load asks the decoder for in any case.
   */
  function Image2dLoadInfo(): (info: ImageLoadInfo)
    ensures info.desiredChannels == 4
  {
    ImageLoadInfo(4)
  }

  /**
   * With it, image_load fails only for the reasons the file itself gives: a
   * missing file, an unrecognised extension, a failed decode or a negative
   * dimension.
   */
  lemma Image2dLoadSucceedsOnGoodFiles(fileExists: bool, extension: string, decoded: bool,
                                       width: int, height: int, channels: int)
    ensures LoadSucceeds(fileExists, extension, Image2dLoadInfo(), decoded, width, height, channels)
      <==> fileExists && Loadable(ImageTypeOf(extension)) && decoded &&
           width >= 0 && height >= 0 && channels >= 0
  {
  }
}
