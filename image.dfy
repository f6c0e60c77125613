// vtek::Image2D (src/vtek_image.cpp): the image aspect flags a view is
// created with, the sharing mode image2d_load chooses, and the ways
// image2d_create can fail. Memory allocation and view creation are inputs.
module Images {
  import opened Wrappers
  import opened Vk
  import Queues

  /**
   * The VkImageAspectFlagBits a view can carry. A VkImageAspectFlags mask is
   * modelled as the set of its bits.
   */
  datatype Aspect = ColorAspect | DepthAspect | StencilAspect | MetadataAspect
                  | Plane0Aspect | Plane1Aspect | Plane2Aspect

  /** vtek::ImageAspectFlag as a mask: which of its flags are set. */
  datatype AspectRequest = AspectRequest(
    color: bool, depth: bool, stencil: bool, metadata: bool,
    plane0: bool, plane1: bool, plane2: bool)

  predicate IsEmpty(req: AspectRequest)
  {
    !req.color && !req.depth && !req.stencil && !req.metadata &&
    !req.plane0 && !req.plane1 && !req.plane2
  }

  /**
   * The aspects a request stands for: each of color, depth, stencil and
   * metadata adds its own bit; of the planes only the first one requested
   * counts, and none at all together with color.
   */
  function AspectFlags(req: AspectRequest): (r: set<Aspect>)
  {
    (if req.color then {ColorAspect} else {}) +
    (if req.depth then {DepthAspect} else {}) +
    (if req.stencil then {StencilAspect} else {}) +
    (if req.metadata then {MetadataAspect} else {}) +
    (if req.color then {}
     else if req.plane0 then {Plane0Aspect}
     else if req.plane1 then {Plane1Aspect}
     else if req.plane2 then {Plane2Aspect}
     else {})
  }

  /**
   * What AspectFlags promises bit by bit: the plain aspects are copied, at
   * most one plane is chosen with priority plane 0, 1, 2, a plane never comes
   * with color, and the empty request gives no aspect.
   */
  lemma AspectFlagsMeaning(req: AspectRequest)
    ensures var r := AspectFlags(req);
      && (ColorAspect in r <==> req.color)
      && (DepthAspect in r <==> req.depth)
      && (StencilAspect in r <==> req.stencil)
      && (MetadataAspect in r <==> req.metadata)
      && (Plane0Aspect in r <==> req.plane0 && !req.color)
      && (Plane1Aspect in r <==> req.plane1 && !req.plane0 && !req.color)
      && (Plane2Aspect in r <==> req.plane2 && !req.plane1 && !req.plane0 && !req.color)
      && (IsEmpty(req) ==> r == {})
  {
  }

  /** Two different planes never both appear. */
  lemma AtMostOnePlane(req: AspectRequest)
    ensures var r := AspectFlags(req);
      !(Plane0Aspect in r && Plane1Aspect in r) && !(Plane0Aspect in r && Plane2Aspect in r) &&
      !(Plane1Aspect in r && Plane2Aspect in r)
  {
  }

  /**
   * get_image_aspect_flags: the flags are built up bit by bit; a plane flag
   * that meets color makes the function return early without it.
   */
  method GetImageAspectFlags(req: AspectRequest) returns (flags: set<Aspect>)
    ensures flags == AspectFlags(req)
  {
    flags := {};
    if IsEmpty(req) {
      return;
    }
    if req.color { flags := flags + {ColorAspect}; }
    if req.depth { flags := flags + {DepthAspect}; }
    if req.stencil { flags := flags + {StencilAspect}; }
    if req.metadata { flags := flags + {MetadataAspect}; }

    if req.plane0 {
      if ColorAspect in flags {
        return;
      }
      flags := flags + {Plane0Aspect};
    } else if req.plane1 {
      if ColorAspect in flags {
        return;
      }
      flags := flags + {Plane1Aspect};
    } else if req.plane2 {
      if ColorAspect in flags {
        return;
      }
      flags := flags + {Plane2Aspect};
    }
  }

  /** The sharing part of an image create info. */
  datatype ImageSharing = ImageSharing(mode: SharingMode, queues: seq<Queues.Queue>)

  /**
   * The sharing image2d_load asks for: exclusive when the first transfer queue
   * and the graphics queue come from one family, otherwise concurrent between
   * exactly those two queues.
   */
  function LoadSharing(transferQueue: Queues.Queue, graphicsQueue: Queues.Queue): (r: ImageSharing)
    ensures r.mode == Exclusive <==> Queues.IsSameFamily(transferQueue, graphicsQueue)
    ensures r.mode == Exclusive ==> r.queues == []
    ensures r.mode == Concurrent ==> r.queues == [transferQueue, graphicsQueue]
  {
    if transferQueue.familyIndex == graphicsQueue.familyIndex then ImageSharing(Exclusive, [])
    else ImageSharing(Concurrent, [transferQueue, graphicsQueue])
  }

  /** The handles of a created image; 0 is VK_NULL_HANDLE. */
  datatype Image2D = Image2D(vulkanHandle: nat, viewHandle: nat)

  /**
   * image2d_create: it fails without a device allocator, when the allocator
   * cannot create the image, and when a requested view cannot be created;
   * otherwise the image carries the view exactly when one was requested.
   * `allocResult` is what the allocator produced, `view` what view creation
   * returned (0 for failure).
   */
  function Image2DCreate(hasAllocator: bool, allocResult: Option<nat>, createImageView: bool,
                         view: nat): (r: Option<Image2D>)
    ensures r.None? <==>
      !hasAllocator || allocResult.None? || (createImageView && view == 0)
    ensures r.Some? ==> r.value.vulkanHandle == allocResult.value
    ensures r.Some? ==> (r.value.viewHandle != 0 <==> createImageView)
  {
    if !hasAllocator then None
    else if allocResult.None? then None
    else if createImageView then
      (if view == 0 then None else Some(Image2D(allocResult.value, view)))
    else Some(Image2D(allocResult.value, 0))
  }

  /**
   * The request for the color aspect alone, which image2d_load and the color
   * attachments of a framebuffer ask for.
   */
  const COLOR_ONLY := AspectRequest(true, false, false, false, false, false, false)

  lemma ColorOnlyAspects()
    ensures AspectFlags(COLOR_ONLY) == {ColorAspect}
  {
  }
}
