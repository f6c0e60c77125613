// vtek::Framebuffer (src/vtek_framebuffer.cpp): the validation of a
// framebuffer description, the image settings shared by its attachments
// (sample count and sharing mode), and the framebuffer object built from the
// attachments. Image creation and vkCreateFramebuffer are inputs.
module Framebuffers {
  import opened Wrappers
  import opened Vk
  import opened Queues
  import opened Formats
  import opened FormatSupport
  import opened VulkanTypes
  import opened Images
  import Devices

  /**
   * vtek::FramebufferAttachmentInfo: the format the attachment is created
   * with, and what SupportedFormat::is_valid says of it (is_valid is not part
   * of this model). Clear values are left out.
   */
  datatype AttachmentInfo = AttachmentInfo(format: SupportedFormat, formatValid: bool)

  /** vtek::FramebufferInfo; a null render pass is `hasRenderPass == false`. */
  datatype FramebufferInfo = FramebufferInfo(
    colorAttachments: seq<AttachmentInfo>,
    useDepthStencil: bool,
    depthStencilAttachment: AttachmentInfo,
    resolutionX: nat, resolutionY: nat,
    hasRenderPass: bool,
    useDynamicRendering: bool,
    multisampling: MultisampleType,
    sharingQueues: seq<Queue>)

  /**
   * validate_framebuffer_info: the checks in the order the source makes
   * them, the first failing one rejecting the description.
   */
  predicate ValidateFramebufferInfo(info: FramebufferInfo)
    ensures ValidateFramebufferInfo(info) <==>
      && (|info.colorAttachments| > 0 || info.useDepthStencil)
      && info.resolutionX != 0 && info.resolutionY != 0
      && (forall i :: 0 <= i < |info.colorAttachments| ==> info.colorAttachments[i].formatValid)
      && (info.useDepthStencil ==> info.depthStencilAttachment.formatValid)
      && (info.hasRenderPass || info.useDynamicRendering)
  {
    if |info.colorAttachments| == 0 && !info.useDepthStencil then false
    else if info.resolutionX == 0 || info.resolutionY == 0 then false
    else if !AllFormatsValid(info.colorAttachments) then false
    else if info.useDepthStencil && !info.depthStencilAttachment.formatValid then false
    else if !info.hasRenderPass && !info.useDynamicRendering then false
    else true
  }

  /** The loop over the color attachments: every format is valid. */
  predicate AllFormatsValid(atts: seq<AttachmentInfo>)
    ensures AllFormatsValid(atts) <==> forall i :: 0 <= i < |atts| ==> atts[i].formatValid
  {
    if |atts| == 0 then true
    else atts[0].formatValid && AllFormatsValid(atts[1..])
  }

  // ---------------------------------------------------------------------
  // Multisampling.

  /**
   * The query framebuffer_create makes to the device: color when there are
   * color attachments, depth and stencil as the depth/stencil format has them.
   */
  function MsaaQuery(info: FramebufferInfo): (q: Devices.SampleCountQuery)
    ensures q.color <==> |info.colorAttachments| > 0
    ensures q.depth <==> info.useDepthStencil && HasDepth(info.depthStencilAttachment.format)
    ensures q.stencil <==> info.useDepthStencil && HasStencil(info.depthStencilAttachment.format)
  {
    Devices.SampleCountQuery(
      |info.colorAttachments| > 0,
      info.useDepthStencil && HasDepth(info.depthStencilAttachment.format),
      info.useDepthStencil && HasStencil(info.depthStencilAttachment.format))
  }

  /**
   * The requested sample count, clamped down to what the device supports:
   * kept when it does not exceed the limit, the limit otherwise.
   */
  function ClampSampleCount(requested: nat, supported: nat): (r: nat)
    ensures r <= requested && r <= supported
    ensures r == requested || r == supported
    ensures requested in SAMPLE_COUNTS && supported in SAMPLE_COUNTS ==> r in SAMPLE_COUNTS
  {
    if requested > supported then supported else requested
  }

  /**
   * The sample count of every attachment image: never more than was
   * requested, and never more than the device's limit for any kind of
   * attachment the framebuffer has.
   */
  function AttachmentSamples(info: FramebufferInfo, device: Devices.Device): (r: nat)
    reads device
    ensures r <= GetMultisampleCount(info.multisampling)
    ensures |info.colorAttachments| > 0 ==> r <= device.msaaColorLimit
    ensures info.useDepthStencil && HasDepth(info.depthStencilAttachment.format) ==>
      r <= device.msaaDepthLimit
    ensures info.useDepthStencil && HasStencil(info.depthStencilAttachment.format) ==>
      r <= device.msaaStencilLimit
    ensures r == GetMultisampleCount(info.multisampling) || r == device.MaxSampleCount(MsaaQuery(info))
  {
    ClampSampleCount(GetMultisampleCount(info.multisampling), device.MaxSampleCount(MsaaQuery(info)))
  }

  /**
   * When the device limits are themselves sample counts, so is the sample
   * count of the attachments.
   */
  lemma AttachmentSamplesIsSampleCount(info: FramebufferInfo, device: Devices.Device)
    requires device.msaaColorLimit in SAMPLE_COUNTS
    requires device.msaaDepthLimit in SAMPLE_COUNTS
    requires device.msaaStencilLimit in SAMPLE_COUNTS
    ensures AttachmentSamples(info, device) in SAMPLE_COUNTS
  {
    var q := MsaaQuery(info);
    var m := device.MaxSampleCount(q);
    assert 64 == SAMPLE_COUNTS[6];
    assert m in SAMPLE_COUNTS;
  }

  // ---------------------------------------------------------------------
  // Sharing mode.

  /** Two of the queues come from different queue families. */
  predicate MixedFamilies(qs: seq<Queue>)
  {
    exists i, j :: 0 <= i < |qs| && 0 <= j < |qs| && qs[i].familyIndex != qs[j].familyIndex
  }

  /** Appending a queue mixes the families exactly when they were mixed or it differs from one. */
  lemma MixedFamiliesSnoc(qs: seq<Queue>, q: Queue)
    ensures MixedFamilies(qs + [q]) <==>
      MixedFamilies(qs) || exists k :: 0 <= k < |qs| && qs[k].familyIndex != q.familyIndex
  {
    var s := qs + [q];
    if MixedFamilies(s) {
      var i, j :| 0 <= i < |s| && 0 <= j < |s| && s[i].familyIndex != s[j].familyIndex;
      if i < |qs| && j < |qs| {
        assert qs[i] == s[i] && qs[j] == s[j];
      } else if i < |qs| {
        assert qs[i] == s[i] && s[j] == q;
      } else {
        assert qs[j] == s[j] && s[i] == q;
      }
    }
    if MixedFamilies(qs) {
      var i, j :| 0 <= i < |qs| && 0 <= j < |qs| && qs[i].familyIndex != qs[j].familyIndex;
      assert s[i] == qs[i] && s[j] == qs[j];
    }
    if exists k :: 0 <= k < |qs| && qs[k].familyIndex != q.familyIndex {
      var k :| 0 <= k < |qs| && qs[k].familyIndex != q.familyIndex;
      assert s[k] == qs[k] && s[|qs|] == q;
    }
  }

  /**
   * The sharing part of framebuffer_create: with no sharing queues the
   * graphics queue is used alone, exclusively, and without one creation
   * fails; otherwise every sharing queue is listed, and the mode is
   * concurrent exactly when two of them come from different families.
   */
  method ChooseSharingMode(sharingQueues: seq<Queue>, graphicsQueue: Option<Queue>)
    returns (r: Option<ImageSharing>)
    ensures |sharingQueues| == 0 ==> (r.None? <==> graphicsQueue.None?)
    ensures |sharingQueues| == 0 && graphicsQueue.Some? ==>
      r == Some(ImageSharing(Exclusive, [graphicsQueue.value]))
    ensures |sharingQueues| > 0 ==> r.Some? && r.value.queues == sharingQueues
    ensures r.Some? ==> (r.value.mode == Concurrent <==> MixedFamilies(sharingQueues))
  {
    var mode := Exclusive;
    var queues: seq<Queue> := [];
    if |sharingQueues| == 0 {
      if graphicsQueue.None? {
        return None;
      }
      queues := queues + [graphicsQueue.value];
      assert queues == [graphicsQueue.value];
    } else {
      var i := 0;
      while i < |sharingQueues|
        invariant 0 <= i <= |sharingQueues|
        invariant queues == sharingQueues[..i]
        invariant mode == Concurrent <==> MixedFamilies(queues)
      {
        var prev := queues;
        queues := queues + [sharingQueues[i]];
        var index := sharingQueues[i].familyIndex;
        // check if index was already encountered
        var j := 0;
        while j < |queues|
          invariant 0 <= j <= |queues|
          invariant mode == Concurrent <==>
            MixedFamilies(prev) || exists k :: 0 <= k < j && queues[k].familyIndex != index
        {
          if queues[j].familyIndex != index {
            mode := Concurrent;
          }
          j := j + 1;
        }
        MixedFamiliesSnoc(prev, sharingQueues[i]);
        assert forall k :: 0 <= k < |prev| ==> queues[k] == prev[k];
        assert queues[|prev|].familyIndex == index;
        i := i + 1;
      }
      assert queues == sharingQueues;
    }
    return Some(ImageSharing(mode, queues));
  }

  /**
   * The view aspects of the depth/stencil attachment: depth when the format
   * has depth, stencil when it has stencil.
   */
  function DepthStencilAspects(format: SupportedFormat): (req: AspectRequest)
    ensures req.depth <==> HasDepth(format)
    ensures req.stencil <==> HasStencil(format)
    ensures !req.color && !req.metadata && !req.plane0 && !req.plane1 && !req.plane2
  {
    AspectRequest(false, HasDepth(format), HasStencil(format), false, false, false, false)
  }

  /** The depth/stencil view carries exactly the aspects its format has. */
  lemma DepthStencilViewAspects(format: SupportedFormat)
    ensures DepthAspect in AspectFlags(DepthStencilAspects(format)) <==> HasDepth(format)
    ensures StencilAspect in AspectFlags(DepthStencilAspects(format)) <==> HasStencil(format)
    ensures AspectFlags(DepthStencilAspects(format)) <= {DepthAspect, StencilAspect}
    ensures IsDepthStencil(format) ==> AspectFlags(DepthStencilAspects(format)) != {}
  {
    AspectFlagsMeaning(DepthStencilAspects(format));
    DepthStencilIsEither(format);
  }

  // ---------------------------------------------------------------------
  // The framebuffer object.

  /** A created attachment: its image and the format it was created with. */
  datatype Attachment = Attachment(image: Image2D, format: SupportedFormat)

  /** The settings every attachment image of a framebuffer is created with. */
  datatype AttachmentImageInfo = AttachmentImageInfo(samples: nat, sharing: ImageSharing)

  /** No Vulkan framebuffer object is made: there is no render pass, and dynamic rendering is used. */
  predicate DynamicRenderingOnly(info: FramebufferInfo)
  {
    !info.hasRenderPass && info.useDynamicRendering
  }

  /**
   * framebuffer_create gets as far as creating the attachment images: the
   * description is valid, a depth/stencil format is one, and there is a
   * queue to share the images with.
   */
  predicate Prepared(info: FramebufferInfo, device: Devices.Device)
    reads device
  {
    && ValidateFramebufferInfo(info)
    && (info.useDepthStencil ==> IsDepthStencil(info.depthStencilAttachment.format))
    && (|info.sharingQueues| > 0 || device.graphicsQueue.vulkanHandle != 0)
  }

  /**
   * framebuffer_create succeeds: it is prepared, every attachment image is
   * created, and the Vulkan framebuffer object is created unless only
   * dynamic rendering is used.
   */
  predicate CreateSucceeds(info: FramebufferInfo, device: Devices.Device,
                           colorImages: seq<Option<Image2D>>, depthImage: Option<Image2D>,
                           handle: Option<nat>)
    reads device
  {
    && Prepared(info, device)
    && (forall i :: 0 <= i < |colorImages| ==> colorImages[i].Some?)
    && (info.useDepthStencil ==> depthImage.Some?)
    && (!DynamicRenderingOnly(info) ==> handle.Some?)
  }

  class Framebuffer {
    var handle: nat
    var colorAttachments: seq<Attachment>
    var depthStencilAttachment: Option<Attachment>
    var resolutionX: nat
    var resolutionY: nat
    var graphicsQueueFamilyIndex: nat
    var dynamicRenderingOnly: bool

    /** The member initialisers: no handle, no attachments, resolution 1 by 1. */
    constructor()
      ensures handle == 0 && colorAttachments == [] && depthStencilAttachment.None?
      ensures resolutionX == 1 && resolutionY == 1
      ensures graphicsQueueFamilyIndex == 0 && !dynamicRenderingOnly
    {
      handle := 0;
      colorAttachments := [];
      depthStencilAttachment := None;
      resolutionX, resolutionY := 1, 1;
      graphicsQueueFamilyIndex := 0;
      dynamicRenderingOnly := false;
    }

    /**
     * framebuffer_destroy: the attachments are dropped and the handle is
     * reset; resolution, family index and the dynamic-rendering flag stay.
     */
    method Destroy()
      modifies this
      ensures colorAttachments == [] && depthStencilAttachment.None? && handle == 0
      ensures resolutionX == old(resolutionX) && resolutionY == old(resolutionY)
      ensures graphicsQueueFamilyIndex == old(graphicsQueueFamilyIndex)
      ensures dynamicRenderingOnly == old(dynamicRenderingOnly)
    {
      colorAttachments := [];
      if depthStencilAttachment.Some? {
        depthStencilAttachment := None;
      }
      if handle != 0 {
        handle := 0;
      }
    }

    /**
     * The color-attachment loop of framebuffer_create, on a fresh
     * framebuffer: each created image is attached with its format, in
     * order; at the first image that was not created the framebuffer is
     * destroyed and the loop gives up.
     */
    method AttachColorImages(infos: seq<AttachmentInfo>, images: seq<Option<Image2D>>) returns (ok: bool)
      requires |images| == |infos|
      requires colorAttachments == [] && depthStencilAttachment.None?
      requires handle == 0 && !dynamicRenderingOnly
      modifies this
      ensures ok <==> forall i :: 0 <= i < |images| ==> images[i].Some?
      ensures ok ==> |colorAttachments| == |infos|
      ensures ok ==> forall i :: 0 <= i < |infos| ==>
        colorAttachments[i] == Attachment(images[i].value, infos[i].format)
      ensures !ok ==> colorAttachments == []
      ensures depthStencilAttachment.None? && handle == 0 && !dynamicRenderingOnly
      ensures resolutionX == old(resolutionX) && resolutionY == old(resolutionY)
      ensures graphicsQueueFamilyIndex == old(graphicsQueueFamilyIndex)
    {
      var i := 0;
      while i < |infos|
        invariant 0 <= i <= |infos|
        invariant forall k :: 0 <= k < i ==> images[k].Some?
        invariant |colorAttachments| == i
        invariant forall k :: 0 <= k < i ==> colorAttachments[k] == Attachment(images[k].value, infos[k].format)
        invariant depthStencilAttachment.None? && handle == 0 && !dynamicRenderingOnly
        invariant resolutionX == old(resolutionX) && resolutionY == old(resolutionY)
        invariant graphicsQueueFamilyIndex == old(graphicsQueueFamilyIndex)
      {
        if images[i].None? {
          Destroy();
          return false;
        }
        colorAttachments := colorAttachments + [Attachment(images[i].value, infos[i].format)];
        i := i + 1;
      }
      ok := true;
    }

    /**
     * The second half of framebuffer_create, once the color images are
     * attached: the depth/stencil image is attached when one is used, the
     * resolution and the graphics queue's family are recorded, and the
     * Vulkan framebuffer object is kept unless only dynamic rendering is
     * used. A missing depth/stencil image or framebuffer object destroys the
     * framebuffer.
     */
    method Complete(info: FramebufferInfo, familyIndex: nat, depthImage: Option<Image2D>,
                    vkHandle: Option<nat>) returns (ok: bool)
      requires depthStencilAttachment.None? && handle == 0 && !dynamicRenderingOnly
      modifies this
      ensures ok <==>
        (info.useDepthStencil ==> depthImage.Some?) && (!DynamicRenderingOnly(info) ==> vkHandle.Some?)
      ensures ok ==> colorAttachments == old(colorAttachments)
      ensures ok ==> (depthStencilAttachment.Some? <==> info.useDepthStencil)
      ensures ok && info.useDepthStencil ==>
        depthStencilAttachment.value == Attachment(depthImage.value, info.depthStencilAttachment.format)
      ensures ok ==> resolutionX == info.resolutionX && resolutionY == info.resolutionY
      ensures ok ==> graphicsQueueFamilyIndex == familyIndex
      ensures ok ==> (dynamicRenderingOnly <==> DynamicRenderingOnly(info))
      ensures ok && DynamicRenderingOnly(info) ==> handle == 0
      ensures ok && !DynamicRenderingOnly(info) ==> handle == vkHandle.value
    {
      if info.useDepthStencil {
        if depthImage.None? {
          Destroy();
          return false;
        }
        depthStencilAttachment := Some(Attachment(depthImage.value, info.depthStencilAttachment.format));
      }
      resolutionX, resolutionY := info.resolutionX, info.resolutionY;
      graphicsQueueFamilyIndex := familyIndex;
      if DynamicRenderingOnly(info) {
        dynamicRenderingOnly := true;
        return true;
      }
      if vkHandle.None? {
        Destroy();
        return false;
      }
      handle := vkHandle.value;
      ok := true;
    }

    /** framebuffer_dynamic_rendering_only. */
    function IsDynamicRenderingOnly(): (r: bool)
      reads this
      ensures r == dynamicRenderingOnly
    {
      dynamicRenderingOnly
    }

    /**
     * framebuffer_get_color_formats: the format of every color attachment,
     * in attachment order.
     */
    method ColorFormats() returns (formats: seq<Format>)
      ensures |formats| == |colorAttachments|
      ensures forall i :: 0 <= i < |formats| ==> formats[i] == colorAttachments[i].format.format
    {
      formats := [];
      var i := 0;
      while i < |colorAttachments|
        invariant 0 <= i <= |colorAttachments|
        invariant |formats| == i
        invariant forall k :: 0 <= k < i ==> formats[k] == colorAttachments[k].format.format
      {
        formats := formats + [colorAttachments[i].format.format];
        i := i + 1;
      }
    }

    /**
     * framebuffer_get_depth_stencil_format: undefined without a depth/stencil
     * image, its format otherwise.
     */
    function DepthStencilFormat(): (r: Format)
      reads this
      ensures depthStencilAttachment.None? ==> r == undefined
      ensures depthStencilAttachment.Some? ==> r == depthStencilAttachment.value.format.format
    {
      if depthStencilAttachment.None? then undefined else depthStencilAttachment.value.format.format
    }
  }

  /**
   * The first half of framebuffer_create: the description is checked, and
   * the sample count and sharing mode every attachment image is asked for
   * are chosen. None when the description is refused or there is no queue
   * to share the images with.
   */
  method AttachmentImageSetting(info: FramebufferInfo, device: Devices.Device)
    returns (imageInfo: Option<AttachmentImageInfo>)
    ensures imageInfo.Some? <==> Prepared(info, device)
    ensures imageInfo.Some? ==> imageInfo.value.samples == AttachmentSamples(info, device)
    ensures imageInfo.Some? ==>
      (imageInfo.value.sharing.mode == Concurrent <==> MixedFamilies(info.sharingQueues))
    ensures imageInfo.Some? && |info.sharingQueues| > 0 ==>
      imageInfo.value.sharing.queues == info.sharingQueues
    ensures imageInfo.Some? && |info.sharingQueues| == 0 ==>
      imageInfo.value.sharing.queues == [device.graphicsQueue]
  {
    imageInfo := None;
    if !ValidateFramebufferInfo(info) {
      return;
    }
    if info.useDepthStencil && !IsDepthStencil(info.depthStencilAttachment.format) {
      return;
    }
    var samples := AttachmentSamples(info, device);
    var sharing := ChooseSharingMode(info.sharingQueues, device.GraphicsQueue());
    if sharing.None? {
      return;
    }
    imageInfo := Some(AttachmentImageInfo(samples, sharing.value));
  }

  /**
   * framebuffer_create. `colorImages[i]` and `depthImage` are what
   * image2d_create returns for each attachment (None for null), `handle`
   * what vkCreateFramebuffer produces (None for failure). `imageInfo` is
   * the setting every attachment image is asked for, once the description
   * has been checked. The graphics queue's family is read without a check,
   * so a device without one is only allowed when the attachments are
   * shared with no queue at all.
   */
  method CreateFramebuffer(info: FramebufferInfo, device: Devices.Device,
                           colorImages: seq<Option<Image2D>>, depthImage: Option<Image2D>,
                           handle: Option<nat>)
    returns (fb: Framebuffer?, imageInfo: Option<AttachmentImageInfo>)
    requires |colorImages| == |info.colorAttachments|
    requires |info.sharingQueues| > 0 ==> device.graphicsQueue.vulkanHandle != 0
    ensures imageInfo.Some? <==> Prepared(info, device)
    ensures imageInfo.Some? ==> imageInfo.value.samples == AttachmentSamples(info, device)
    ensures imageInfo.Some? ==>
      (imageInfo.value.sharing.mode == Concurrent <==> MixedFamilies(info.sharingQueues))
    ensures imageInfo.Some? && |info.sharingQueues| > 0 ==>
      imageInfo.value.sharing.queues == info.sharingQueues
    ensures imageInfo.Some? && |info.sharingQueues| == 0 ==>
      imageInfo.value.sharing.queues == [device.graphicsQueue]
    ensures fb != null <==> CreateSucceeds(info, device, colorImages, depthImage, handle)
    ensures fb != null ==> fresh(fb)
    ensures fb != null ==> |fb.colorAttachments| == |info.colorAttachments|
    ensures fb != null ==> forall i :: 0 <= i < |fb.colorAttachments| ==>
      fb.colorAttachments[i] == Attachment(colorImages[i].value, info.colorAttachments[i].format)
    ensures fb != null ==> (fb.depthStencilAttachment.Some? <==> info.useDepthStencil)
    ensures fb != null && info.useDepthStencil ==>
      fb.depthStencilAttachment.value == Attachment(depthImage.value, info.depthStencilAttachment.format)
    ensures fb != null ==> fb.resolutionX == info.resolutionX && fb.resolutionY == info.resolutionY
    ensures fb != null ==> fb.graphicsQueueFamilyIndex == device.graphicsQueue.familyIndex
    ensures fb != null ==> (fb.dynamicRenderingOnly <==> DynamicRenderingOnly(info))
    ensures fb != null && DynamicRenderingOnly(info) ==> fb.handle == 0
    ensures fb != null && !DynamicRenderingOnly(info) ==> fb.handle == handle.value
  {
    fb := null;
    imageInfo := AttachmentImageSetting(info, device);
    if imageInfo.None? {
      return;
    }
    var framebuffer := new Framebuffer();
    var attached := framebuffer.AttachColorImages(info.colorAttachments, colorImages);
    if !attached {
      return;
    }

    var completed := framebuffer.Complete(info, device.graphicsQueue.familyIndex, depthImage, handle);
    if completed {
      fb := framebuffer;
    }
  }
}
