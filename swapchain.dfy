/**
 * Swapchain negotiation in src/VulkanRenderer.cpp: surface format, presentation mode,
 * extent, requested image count and image sharing mode.
 */
module Swapchain {
  import opened Vulkan
  import opened Wrappers
  import opened Utils

  /** The format chosen when the surface imposes none. */
  const PREFERRED_SURFACE_FORMAT: SurfaceFormat := SurfaceFormat(FORMAT_R8G8B8A8_UNORM, COLOR_SPACE_SRGB_NONLINEAR)

  /** 8-bit RGBA or BGRA storage in the non-linear sRGB colour space. */
  predicate IsPreferredFormat(f: SurfaceFormat) {
    (f.format == FORMAT_R8G8B8A8_UNORM || f.format == FORMAT_B8G8R8A8_UNORM)
    && f.colorSpace == COLOR_SPACE_SRGB_NONLINEAR
  }

  /** The surface leaves the format open: it reports one entry whose format is UNDEFINED. */
  predicate AnyFormatAllowed(formats: seq<SurfaceFormat>) {
    |formats| == 1 && formats[0].format == FORMAT_UNDEFINED
  }

  /** The first preferred entry at or after `from`. */
  function FirstPreferredFormat(formats: seq<SurfaceFormat>, from: nat): (r: Option<nat>)
    requires from <= |formats|
    ensures r.Some? ==> from <= r.value < |formats| && IsPreferredFormat(formats[r.value])
                        && forall j :: from <= j < r.value ==> !IsPreferredFormat(formats[j])
    ensures r.None? ==> forall j :: from <= j < |formats| ==> !IsPreferredFormat(formats[j])
    decreases |formats| - from
  {
    if from == |formats| then None
    else if IsPreferredFormat(formats[from]) then Some(from)
    else FirstPreferredFormat(formats, from + 1)
  }

  /** The surface format ChooseBestSurfaceFormat settles on. */
  function BestSurfaceFormat(formats: seq<SurfaceFormat>): SurfaceFormat
    requires |formats| > 0
  {
    if AnyFormatAllowed(formats) then PREFERRED_SURFACE_FORMAT
    else match FirstPreferredFormat(formats, 0)
      case Some(i) => formats[i]
      case None => formats[0]
  }

  /**
   * A lone UNDEFINED entry yields RGBA8/sRGB; otherwise the first preferred entry; otherwise
   * the first entry (so the list must not be empty).
   */
  method ChooseBestSurfaceFormat(formats: seq<SurfaceFormat>) returns (r: SurfaceFormat)
    requires |formats| > 0
    ensures r == BestSurfaceFormat(formats)
    ensures AnyFormatAllowed(formats) ==> r == PREFERRED_SURFACE_FORMAT
    ensures !AnyFormatAllowed(formats) && (exists i :: 0 <= i < |formats| && IsPreferredFormat(formats[i]))
            ==> IsPreferredFormat(r)
                && exists i :: 0 <= i < |formats| && formats[i] == r
                               && forall j :: 0 <= j < i ==> !IsPreferredFormat(formats[j])
    ensures !AnyFormatAllowed(formats) && (forall i :: 0 <= i < |formats| ==> !IsPreferredFormat(formats[i]))
            ==> r == formats[0]
  {
    if |formats| == 1 && formats[0].format == FORMAT_UNDEFINED {
      return SurfaceFormat(FORMAT_R8G8B8A8_UNORM, COLOR_SPACE_SRGB_NONLINEAR);
    }
    var i := 0;
    while i < |formats|
      invariant i <= |formats|
      invariant FirstPreferredFormat(formats, 0) == FirstPreferredFormat(formats, i)
    {
      var format := formats[i];
      if (format.format == FORMAT_R8G8B8A8_UNORM || format.format == FORMAT_B8G8R8A8_UNORM)
         && format.colorSpace == COLOR_SPACE_SRGB_NONLINEAR
      {
        return format;
      }
      i := i + 1;
    }
    return formats[0];
  }

  /** Returns MAILBOX when the list offers it and FIFO in every other case, listed or not. */
  method ChooseBestPresentationMode(presentationModes: seq<PresentMode>) returns (r: PresentMode)
    ensures r == PRESENT_MODE_MAILBOX <==> PRESENT_MODE_MAILBOX in presentationModes
    ensures r != PRESENT_MODE_MAILBOX ==> r == PRESENT_MODE_FIFO
  {
    for i := 0 to |presentationModes|
      invariant PRESENT_MODE_MAILBOX !in presentationModes[..i]
    {
      if presentationModes[i] == PRESENT_MODE_MAILBOX {
        return presentationModes[i];
      }
    }
    return PRESENT_MODE_FIFO;
  }

  function Min(a: uint32, b: uint32): uint32 { if a < b then a else b }
  function Max(a: uint32, b: uint32): uint32 { if a < b then b else a }

  /**
   * `v` is `requested` clamped into [lo, hi]: at least lo, at most hi when lo <= hi,
   * and equal to `requested` when that already lies in the range.
   */
  predicate ClampedInto(v: uint32, lo: uint32, hi: uint32, requested: uint32) {
    && lo <= v
    && (lo <= hi ==> v <= hi)
    && (lo <= requested <= hi ==> v == requested)
    && (lo <= hi < requested ==> v == hi)
    && (requested < lo ==> v == lo)
    && (hi < lo ==> v == lo)
  }

  /**
   * The current extent verbatim unless its WIDTH is the 0xFFFFFFFF "match the framebuffer"
   * value; then the framebuffer size (converted to uint32_t) clamped per axis into
   * [minImageExtent, maxImageExtent].
   */
  function ChooseSwapExtent(surfaceCapabilities: SurfaceCapabilities, framebufferWidth: int, framebufferHeight: int): (r: Extent2D)
    ensures surfaceCapabilities.currentExtent.width != UINT32_MAX ==> r == surfaceCapabilities.currentExtent
    ensures surfaceCapabilities.currentExtent.width == UINT32_MAX ==>
      && ClampedInto(r.width, surfaceCapabilities.minImageExtent.width, surfaceCapabilities.maxImageExtent.width, ToUint32(framebufferWidth))
      && ClampedInto(r.height, surfaceCapabilities.minImageExtent.height, surfaceCapabilities.maxImageExtent.height, ToUint32(framebufferHeight))
  {
    if surfaceCapabilities.currentExtent.width != UINT32_MAX then
      surfaceCapabilities.currentExtent
    else
      var newExtent := Extent2D(ToUint32(framebufferWidth), ToUint32(framebufferHeight));
      Extent2D(
        Max(surfaceCapabilities.minImageExtent.width, Min(surfaceCapabilities.maxImageExtent.width, newExtent.width)),
        Max(surfaceCapabilities.minImageExtent.height, Min(surfaceCapabilities.maxImageExtent.height, newExtent.height)))
  }

  /** Only the width is compared with the sentinel: a 0xFFFFFFFF height is passed through. */
  lemma ExtentHeightSentinelIgnored()
    ensures var caps := SurfaceCapabilities(2, 8, Extent2D(640, UINT32_MAX), Extent2D(1, 1), Extent2D(4096, 4096));
            ChooseSwapExtent(caps, 800, 600) == Extent2D(640, UINT32_MAX)
  {
  }

  /** A framebuffer size inside the bounds is kept; one outside them is clamped to the maximum. */
  lemma ExtentExamples()
    ensures var caps := SurfaceCapabilities(2, 8, Extent2D(UINT32_MAX, UINT32_MAX), Extent2D(1, 1), Extent2D(4096, 4096));
            && ChooseSwapExtent(caps, 800, 600) == Extent2D(800, 600)
            && ChooseSwapExtent(caps, 10000, 10000) == Extent2D(4096, 4096)
  {
  }

  /**
   * minImageCount + 1 in uint32_t arithmetic, lowered to maxImageCount when that is
   * non-zero and smaller.
   */
  function SwapchainImageCount(surfaceCapabilities: SurfaceCapabilities): (count: uint32)
    ensures surfaceCapabilities.minImageCount < UINT32_MAX
            && (surfaceCapabilities.maxImageCount == 0 || surfaceCapabilities.maxImageCount > surfaceCapabilities.minImageCount)
            ==> count as int == surfaceCapabilities.minImageCount as int + 1
    ensures surfaceCapabilities.minImageCount < UINT32_MAX
            && 0 < surfaceCapabilities.maxImageCount <= surfaceCapabilities.minImageCount
            ==> count == surfaceCapabilities.maxImageCount
    ensures surfaceCapabilities.minImageCount == UINT32_MAX ==> count == 0
  {
    var imageCount := ToUint32(surfaceCapabilities.minImageCount as int + 1);
    if surfaceCapabilities.maxImageCount > 0 && surfaceCapabilities.maxImageCount < imageCount then
      surfaceCapabilities.maxImageCount
    else
      imageCount
  }

  /**
   * For capabilities Vulkan may report (maxImageCount 0 or at least minImageCount), the
   * requested count lies in [minImageCount, maxImageCount] and exceeds minImageCount
   * whenever the maximum leaves room.
   */
  lemma {:induction false} SwapchainImageCountInRange(surfaceCapabilities: SurfaceCapabilities)
    requires surfaceCapabilities.minImageCount < UINT32_MAX
    requires surfaceCapabilities.maxImageCount == 0 || surfaceCapabilities.minImageCount <= surfaceCapabilities.maxImageCount
    ensures surfaceCapabilities.minImageCount <= SwapchainImageCount(surfaceCapabilities)
    ensures surfaceCapabilities.maxImageCount > 0 ==> SwapchainImageCount(surfaceCapabilities) <= surfaceCapabilities.maxImageCount
    ensures (surfaceCapabilities.maxImageCount == 0 || surfaceCapabilities.minImageCount < surfaceCapabilities.maxImageCount)
            ==> surfaceCapabilities.minImageCount < SwapchainImageCount(surfaceCapabilities)
  {
  }

  /** How the swapchain images are shared between the graphics and presentation families. */
  datatype ImageSharing = ImageSharing(mode: SharingMode, queueFamilyIndices: seq<uint32>)

  /**
   * CONCURRENT over both families when they differ, EXCLUSIVE with no family list when they
   * coincide.
   */
  function SwapchainSharing(indices: QueueFamilyIndices): (r: ImageSharing)
    ensures r.mode == Concurrent <==> indices.graphicsFamily != indices.presentationFamily
    ensures r.mode == Concurrent ==> r.queueFamilyIndices == [ToUint32(indices.graphicsFamily), ToUint32(indices.presentationFamily)]
    ensures r.mode == Exclusive ==> r.queueFamilyIndices == []
  {
    if indices.graphicsFamily != indices.presentationFamily then
      ImageSharing(Concurrent, [ToUint32(indices.graphicsFamily), ToUint32(indices.presentationFamily)])
    else
      ImageSharing(Exclusive, [])
  }

  /**
   * A lone UNDEFINED entry gives RGBA8/sRGB; a list opening with BGRA8/sRGB gives that
   * entry.
   */
  lemma SurfaceFormatExamples()
    ensures BestSurfaceFormat([SurfaceFormat(FORMAT_UNDEFINED, COLOR_SPACE_EXTENDED_SRGB_LINEAR)]) == PREFERRED_SURFACE_FORMAT
    ensures BestSurfaceFormat([SurfaceFormat(FORMAT_B8G8R8A8_UNORM, COLOR_SPACE_SRGB_NONLINEAR),
                               SurfaceFormat(FORMAT_R16_SFLOAT, COLOR_SPACE_EXTENDED_SRGB_LINEAR)])
            == SurfaceFormat(FORMAT_B8G8R8A8_UNORM, COLOR_SPACE_SRGB_NONLINEAR)
  {
    var two := [SurfaceFormat(FORMAT_B8G8R8A8_UNORM, COLOR_SPACE_SRGB_NONLINEAR),
                SurfaceFormat(FORMAT_R16_SFLOAT, COLOR_SPACE_EXTENDED_SRGB_LINEAR)];
    assert FirstPreferredFormat(two, 0) == Some(0);
  }
}
