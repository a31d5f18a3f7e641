// The selection rules of src/main.cpp: which queue family, memory type,
// physical device, swapchain format and depth format the renderer picks,
// how many swapchain images it asks for, and which frame slot a frame uses.
//
// The Vulkan queries these rules read from are inputs here: each device's
// queue families, presentation support and extension names, the memory
// types' property flags, the surface formats, the per-format properties,
// and the surface capabilities. Enum and flag values are those of the
// Vulkan headers.

module Selection {

  import opened NumTypes
  import opened Wrappers
  import MathLib

  const MAX_FRAMES_IN_FLIGHT: s64 := 2

  // ---------------------------------------------------------------------
  // Queue family (get_gfx_family_index)

  const QUEUE_GRAPHICS_BIT: bv32 := 0x1
  const QUEUE_COMPUTE_BIT: bv32 := 0x2
  const QUEUE_FAMILY_IGNORED: u32 := 0xFFFF_FFFF

  /**
   * A queue family's flags, and whether the family can present to the
   * window's surface (asked of the platform once the family is chosen).
   */
  datatype QueueFamily = QueueFamily(queueFlags: bv32, presentSupported: bool)

  predicate ServesGraphics(f: QueueFamily)
  {
    f.queueFlags & (QUEUE_GRAPHICS_BIT | QUEUE_COMPUTE_BIT) != 0
  }

  /** The first family with the graphics or the compute bit, if any. */
  function FirstGraphicsFamily(families: seq<QueueFamily>): (r: Option<nat>)
    ensures r.Some? ==> r.value < |families| && ServesGraphics(families[r.value])
                        && forall j :: 0 <= j < r.value ==> !ServesGraphics(families[j])
    ensures r.None? ==> forall j :: 0 <= j < |families| ==> !ServesGraphics(families[j])
    decreases |families|
  {
    if families == [] then None
    else if ServesGraphics(families[0]) then Some(0)
    else match FirstGraphicsFamily(families[1..])
         case None => None
         case Some(i) => Some(i + 1)
  }

  /** `get_gfx_family_index`: a linear scan with an early return. */
  method GfxFamilyIndex(families: seq<QueueFamily>) returns (idx: u32)
    requires |families| <= QUEUE_FAMILY_IGNORED
    ensures idx == QUEUE_FAMILY_IGNORED <==> FirstGraphicsFamily(families).None?
    ensures idx != QUEUE_FAMILY_IGNORED ==> FirstGraphicsFamily(families) == Some(idx as nat)
  {
    var i: u32 := 0;
    while i < |families| as u32
      invariant i <= |families|
      invariant forall j :: 0 <= j < i ==> !ServesGraphics(families[j])
    {
      if ServesGraphics(families[i]) {
        return i;
      }
      i := i + 1;
    }
    return QUEUE_FAMILY_IGNORED;
  }

  // ---------------------------------------------------------------------
  // Memory type (find_mem_idx)

  const MAX_MEMORY_TYPES: nat := 32

  /** Memory type `i` is allowed by the requirements and has every requested property. */
  predicate MemoryTypeMatches(memoryTypeBits: bv32, i: nat, propertyFlags: bv32, flags: bv32)
    requires i < MAX_MEMORY_TYPES
  {
    memoryTypeBits & (1 << i) != 0 && propertyFlags & flags == flags
  }

  /**
   * `find_mem_idx`. `propertyFlags[i]` are the property flags of memory type
   * `i`; their number is the device's `memoryTypeCount`.
   */
  method FindMemIdx(memoryTypeBits: bv32, propertyFlags: seq<bv32>, flags: bv32) returns (idx: Option<u32>)
    requires |propertyFlags| <= MAX_MEMORY_TYPES
    ensures idx.Some? ==> idx.value < |propertyFlags|
                          && MemoryTypeMatches(memoryTypeBits, idx.value, propertyFlags[idx.value], flags)
                          && forall j :: 0 <= j < idx.value ==>
                               !MemoryTypeMatches(memoryTypeBits, j, propertyFlags[j], flags)
    ensures idx.None? ==> forall j :: 0 <= j < |propertyFlags| ==>
                            !MemoryTypeMatches(memoryTypeBits, j, propertyFlags[j], flags)
  {
    idx := None;
    var i: u32 := 0;
    while i < |propertyFlags| as u32
      invariant i <= |propertyFlags|
      invariant idx.None?
      invariant forall j :: 0 <= j < i ==> !MemoryTypeMatches(memoryTypeBits, j, propertyFlags[j], flags)
    {
      var matchesMemType := memoryTypeBits & (1 << i) != 0;
      var matchesMemProps := propertyFlags[i] & flags == flags;
      if matchesMemType && matchesMemProps {
        idx := Some(i);
        break;
      }
      i := i + 1;
    }
  }

  // ---------------------------------------------------------------------
  // Physical device (the device loop of create_vk_physical_device)

  const PHYSICAL_DEVICE_TYPE_DISCRETE_GPU: int := 2

  /** What the device loop learns of one physical device. */
  datatype PhysicalDevice = PhysicalDevice(deviceType: int, families: seq<QueueFamily>,
                                           extensionNames: seq<string>)

  function ToLowerAscii(c: char): char
  {
    if 'A' <= c <= 'Z' then (c as int + 32) as char else c
  }

  /** `are_strings_same_nocase`: equal up to ASCII letter case. */
  predicate SameNoCase(a: string, b: string)
    ensures a == b ==> SameNoCase(a, b)
    ensures SameNoCase(a, b) ==> |a| == |b|
  {
    |a| == |b| && forall i :: 0 <= i < |a| ==> ToLowerAscii(a[i]) == ToLowerAscii(b[i])
  }

  /** Case-insensitive comparison is symmetric and transitive. */
  lemma SameNoCaseIsEquivalence(a: string, b: string, c: string)
    ensures SameNoCase(a, b) ==> SameNoCase(b, a)
    ensures SameNoCase(a, b) && SameNoCase(b, c) ==> SameNoCase(a, c)
  {
  }

  /** Letters compare equal to their upper-case forms, other characters only to themselves. */
  lemma SameNoCaseIgnoresLetterCase(a: string, b: string)
    requires |a| == |b|
    requires forall i :: 0 <= i < |a| ==> a[i] == b[i] || ('a' <= a[i] <= 'z' && b[i] == (a[i] as int - 32) as char)
    ensures SameNoCase(a, b)
  {
  }

  predicate HasExtension(available: seq<string>, name: string)
  {
    exists k :: 0 <= k < |available| && SameNoCase(name, available[k])
  }

  predicate HasAllExtensions(available: seq<string>, desired: seq<string>)
  {
    forall e :: 0 <= e < |desired| ==> HasExtension(available, desired[e])
  }

  /**
   * A device is considered when it has a graphics or compute family, that
   * family can present, and every desired extension is among its
   * extensions, compared case-insensitively.
   */
  predicate Eligible(d: PhysicalDevice, desired: seq<string>)
  {
    match FirstGraphicsFamily(d.families)
    case None => false
    case Some(f) => d.families[f].presentSupported && HasAllExtensions(d.extensionNames, desired)
  }

  predicate IsDiscrete(d: PhysicalDevice)
  {
    d.deviceType == PHYSICAL_DEVICE_TYPE_DISCRETE_GPU
  }

  /** An eligible device, and a discrete one when `discreteOnly`. */
  predicate Wanted(d: PhysicalDevice, desired: seq<string>, discreteOnly: bool)
  {
    Eligible(d, desired) && (discreteOnly ==> IsDiscrete(d))
  }

  /** Device `k` is the first wanted one. */
  predicate IsFirstWanted(devices: seq<PhysicalDevice>, desired: seq<string>, discreteOnly: bool, k: nat)
  {
    k < |devices| && Wanted(devices[k], desired, discreteOnly)
    && forall j :: 0 <= j < k ==> !Wanted(devices[j], desired, discreteOnly)
  }

  /** The extension loops: whether every desired extension is available. */
  method HasAllExts(available: seq<string>, desired: seq<string>) returns (hasAllExts: bool)
    ensures hasAllExts <==> HasAllExtensions(available, desired)
  {
    hasAllExts := true;
    for e := 0 to |desired|
      invariant hasAllExts
      invariant forall k :: 0 <= k < e ==> HasExtension(available, desired[k])
    {
      var foundExt := false;
      for a := 0 to |available|
        invariant !foundExt
        invariant forall k :: 0 <= k < a ==> !SameNoCase(desired[e], available[k])
      {
        if SameNoCase(desired[e], available[a]) {
          foundExt := true;
          break;
        }
      }
      if !foundExt {
        hasAllExts := false;
        break;
      }
    }
  }

  /**
   * The device loop of `create_vk_physical_device`: the first eligible
   * discrete GPU when there is one, else the first eligible device, else
   * none (a null handle).
   */
  method ChoosePhysicalDevice(devices: seq<PhysicalDevice>, desired: seq<string>) returns (chosen: Option<nat>)
    requires |devices| < U32_LIMIT
    requires forall i :: 0 <= i < |devices| ==> |devices[i].families| <= QUEUE_FAMILY_IGNORED
    ensures chosen.Some? ==> chosen.value < |devices| && Eligible(devices[chosen.value], desired)
    ensures chosen.None? <==> forall j :: 0 <= j < |devices| ==> !Eligible(devices[j], desired)
    ensures (exists j :: 0 <= j < |devices| && Wanted(devices[j], desired, true)) ==>
              chosen.Some? && IsFirstWanted(devices, desired, true, chosen.value)
    ensures (forall j :: 0 <= j < |devices| ==> !Wanted(devices[j], desired, true)) && chosen.Some? ==>
              IsFirstWanted(devices, desired, false, chosen.value)
  {
    var discreteGpu: Option<nat> := None;
    var fallbackGpu: Option<nat> := None;
    for i := 0 to |devices|
      invariant discreteGpu.Some? ==> IsFirstWanted(devices, desired, true, discreteGpu.value)
      invariant discreteGpu.None? ==> forall j :: 0 <= j < i ==> !Wanted(devices[j], desired, true)
      invariant fallbackGpu.Some? ==> IsFirstWanted(devices, desired, false, fallbackGpu.value)
      invariant fallbackGpu.None? ==> forall j :: 0 <= j < i ==> !Wanted(devices[j], desired, false)
      invariant discreteGpu.Some? ==> fallbackGpu.Some?
    {
      var props := devices[i];
      var gfxFamilyIdx := GfxFamilyIndex(props.families);
      if gfxFamilyIdx == QUEUE_FAMILY_IGNORED {
        continue;
      }
      if !props.families[gfxFamilyIdx].presentSupported {
        continue;
      }
      var hasAllExts := HasAllExts(props.extensionNames, desired);
      if !hasAllExts {
        continue;
      }
      if discreteGpu.None? {
        if props.deviceType == PHYSICAL_DEVICE_TYPE_DISCRETE_GPU {
          discreteGpu := Some(i);
        }
      }
      if fallbackGpu.None? {
        fallbackGpu := Some(i);
      }
    }
    chosen := if discreteGpu.Some? then discreteGpu else fallbackGpu;
  }

  // ---------------------------------------------------------------------
  // Swapchain format (get_swapchain_fmt)

  const FORMAT_UNDEFINED: int := 0
  const FORMAT_R8G8B8A8_UNORM: int := 37
  const FORMAT_B8G8R8A8_UNORM: int := 44
  const COLOR_SPACE_SRGB_NONLINEAR: int := 0

  datatype SurfaceFormat = SurfaceFormat(format: int, colorSpace: int)

  /** An 8-bit RGBA or BGRA format in the sRGB non-linear colour space. */
  predicate IsPreferredFormat(f: SurfaceFormat)
  {
    (f.format == FORMAT_R8G8B8A8_UNORM || f.format == FORMAT_B8G8R8A8_UNORM)
    && f.colorSpace == COLOR_SPACE_SRGB_NONLINEAR
  }

  /** Entry `k` is the last preferred entry of `fmts`. */
  predicate IsLastPreferred(fmts: seq<SurfaceFormat>, k: nat)
  {
    k < |fmts| && IsPreferredFormat(fmts[k])
    && forall j :: k < j < |fmts| ==> !IsPreferredFormat(fmts[j])
  }

  predicate OnlyUndefined(fmts: seq<SurfaceFormat>)
  {
    |fmts| == 1 && fmts[0].format == FORMAT_UNDEFINED
  }

  /**
   * `get_swapchain_fmt`: RGBA8 when the surface reports only UNDEFINED;
   * otherwise the format of the last preferred entry; otherwise the first
   * entry's format. The list must not be empty: the source reads `fmts[0]`.
   */
  method SwapchainFormat(fmts: seq<SurfaceFormat>) returns (fmt: int)
    requires |fmts| > 0
    ensures OnlyUndefined(fmts) ==> fmt == FORMAT_R8G8B8A8_UNORM
    ensures !OnlyUndefined(fmts) && (exists k :: 0 <= k < |fmts| && IsPreferredFormat(fmts[k])) ==>
              exists k: nat :: IsLastPreferred(fmts, k) && fmt == fmts[k].format
    ensures !OnlyUndefined(fmts) && (forall k :: 0 <= k < |fmts| ==> !IsPreferredFormat(fmts[k])) ==>
              fmt == fmts[0].format
  {
    fmt := FORMAT_UNDEFINED;
    if OnlyUndefined(fmts) {
      fmt := FORMAT_R8G8B8A8_UNORM;
    } else {
      ghost var last: Option<nat> := None;
      for k := 0 to |fmts|
        invariant last.None? ==> fmt == FORMAT_UNDEFINED && forall j :: 0 <= j < k ==> !IsPreferredFormat(fmts[j])
        invariant last.Some? ==> last.value < k && IsPreferredFormat(fmts[last.value])
                                 && fmt == fmts[last.value].format
                                 && forall j :: last.value < j < k ==> !IsPreferredFormat(fmts[j])
      {
        var hasRgba8 := fmts[k].format == FORMAT_R8G8B8A8_UNORM || fmts[k].format == FORMAT_B8G8R8A8_UNORM;
        var hasSrgb := fmts[k].colorSpace == COLOR_SPACE_SRGB_NONLINEAR;
        if hasRgba8 && hasSrgb {
          fmt := fmts[k].format;
          last := Some(k);
        }
      }
      if last.Some? {
        assert IsLastPreferred(fmts, last.value);
      }
    }
    if fmt == FORMAT_UNDEFINED {
      fmt := fmts[0].format;
    }
  }

  // ---------------------------------------------------------------------
  // Depth format (the format loop of create_depth_buffer)

  const FORMAT_D32_SFLOAT: int := 126
  const FORMAT_D24_UNORM_S8_UINT: int := 129
  const FORMAT_D32_SFLOAT_S8_UINT: int := 130

  /** The candidates, in the order they are tried. */
  const DESIRED_DEPTH_FORMATS: seq<int> := [FORMAT_D24_UNORM_S8_UINT, FORMAT_D32_SFLOAT_S8_UINT, FORMAT_D32_SFLOAT]

  const FORMAT_FEATURE_DEPTH_STENCIL_ATTACHMENT_BIT: bv32 := 0x200

  datatype ImageTiling = TilingOptimal | TilingLinear

  const DESIRED_TILING: ImageTiling := TilingOptimal

  datatype FormatProperties = FormatProperties(linearTilingFeatures: bv32, optimalTilingFeatures: bv32,
                                               bufferFeatures: bv32)

  /** The features for the tiling the depth buffer uses. */
  function TilingFeatures(props: FormatProperties, tiling: ImageTiling): bv32
  {
    if tiling == TilingLinear then props.linearTilingFeatures else props.optimalTilingFeatures
  }

  predicate DepthUsable(props: FormatProperties)
  {
    TilingFeatures(props, DESIRED_TILING) & FORMAT_FEATURE_DEPTH_STENCIL_ATTACHMENT_BIT != 0
  }

  /**
   * The format loop of `create_depth_buffer`. `query` answers
   * `vkGetPhysicalDeviceFormatProperties` for a format. The result stays
   * UNDEFINED, the default of `Depth_Buffer::fmt`, when no candidate works.
   */
  method DepthFormat(query: int -> FormatProperties) returns (fmt: int)
    ensures fmt == FORMAT_UNDEFINED <==>
              forall k :: 0 <= k < |DESIRED_DEPTH_FORMATS| ==> !DepthUsable(query(DESIRED_DEPTH_FORMATS[k]))
    ensures fmt != FORMAT_UNDEFINED ==>
              exists k :: 0 <= k < |DESIRED_DEPTH_FORMATS| && fmt == DESIRED_DEPTH_FORMATS[k]
                          && DepthUsable(query(DESIRED_DEPTH_FORMATS[k]))
                          && forall j :: 0 <= j < k ==> !DepthUsable(query(DESIRED_DEPTH_FORMATS[j]))
  {
    fmt := FORMAT_UNDEFINED;
    for k := 0 to |DESIRED_DEPTH_FORMATS|
      invariant fmt == FORMAT_UNDEFINED
      invariant forall j :: 0 <= j < k ==> !DepthUsable(query(DESIRED_DEPTH_FORMATS[j]))
    {
      var candidate := DESIRED_DEPTH_FORMATS[k];
      var props := query(candidate);
      var flags := if DESIRED_TILING == TilingLinear then props.linearTilingFeatures else props.optimalTilingFeatures;
      if flags & FORMAT_FEATURE_DEPTH_STENCIL_ATTACHMENT_BIT != 0 {
        fmt := candidate;
        break;
      }
    }
  }

  // ---------------------------------------------------------------------
  // Swapchain image count (surface_count in main)

  datatype SurfaceCapabilities = SurfaceCapabilities(minImageCount: u32, maxImageCount: u32)

  /**
   * `surface_count`: MAX_FRAMES_IN_FLIGHT more than the minimum, stored in a
   * u32, then clamped between `maxImageCount` and `maxImageCount`. Whatever
   * the minimum, the result is the maximum.
   */
  function SurfaceCount(caps: SurfaceCapabilities): (count: u32)
    ensures count == caps.maxImageCount
  {
    var requested := TruncU32(MAX_FRAMES_IN_FLIGHT + caps.minImageCount);
    MathLib.Clamp(requested, caps.maxImageCount, caps.maxImageCount)
  }

  /**
   * A surface whose `maxImageCount` is 0 (no upper limit, in Vulkan's
   * terms) gets 0 images, fewer than its minimum of 2.
   */
  lemma SurfaceCountUnlimitedIsZero()
    ensures SurfaceCount(SurfaceCapabilities(2, 0)) == 0
    ensures SurfaceCount(SurfaceCapabilities(2, 0)) < 2
  {
  }

  /**
   * The count the code evidently means: MAX_FRAMES_IN_FLIGHT more than the
   * minimum, kept within [minImageCount, maxImageCount], with a maximum of 0
   * meaning no upper limit.
   */
  function IntendedSurfaceCount(caps: SurfaceCapabilities): (count: int)
    requires caps.maxImageCount == 0 || caps.minImageCount <= caps.maxImageCount
  {
    var requested := MAX_FRAMES_IN_FLIGHT + caps.minImageCount;
    if caps.maxImageCount == 0 then requested
    else MathLib.Clamp(requested, caps.minImageCount, caps.maxImageCount)
  }

  lemma IntendedSurfaceCountInRange(caps: SurfaceCapabilities)
    requires caps.maxImageCount == 0 || caps.minImageCount <= caps.maxImageCount
    ensures IntendedSurfaceCount(caps) >= caps.minImageCount
    ensures caps.maxImageCount != 0 ==> IntendedSurfaceCount(caps) <= caps.maxImageCount
    ensures caps.maxImageCount == 0 || caps.minImageCount + MAX_FRAMES_IN_FLIGHT <= caps.maxImageCount ==>
              IntendedSurfaceCount(caps) == caps.minImageCount + MAX_FRAMES_IN_FLIGHT
  {
  }

  // ---------------------------------------------------------------------
  // Frame slot (frame_idx in the main loop)

  /** C's `%` on signed integers: the quotient truncates toward zero. */
  function CRem(a: int, b: int): (r: int)
    requires b != 0
    ensures a >= 0 && b > 0 ==> 0 <= r < b
    ensures a < 0 && b > 0 ==> -b < r <= 0
    ensures a >= 0 && b > 0 ==> r == a % b
  {
    var q := (if a < 0 then -a else a) % (if b < 0 then -b else b);
    if a < 0 then -q else q
  }

  /** `frame_idx = frame_count % MAX_FRAMES_IN_FLIGHT`. */
  function FrameIdx(frameCount: s64): (idx: s64)
    ensures frameCount >= 0 ==> 0 <= idx < MAX_FRAMES_IN_FLIGHT
  {
    CRem(frameCount, MAX_FRAMES_IN_FLIGHT)
  }

  /** Successive frames alternate between the two slots. */
  lemma FrameIdxAlternates(frameCount: s64)
    requires 0 <= frameCount < S64_MAX
    ensures FrameIdx(frameCount + 1) == 1 - FrameIdx(frameCount)
  {
  }

  /**
   * The main loop's frame counter: starts at 0 and is incremented once per
   * frame; `frames` is how many frames run before the window closes. The
   * slots used are 0, 1, 0, 1, ...
   */
  method FrameSlots(frames: nat) returns (slots: seq<s64>)
    requires frames <= S64_MAX
    ensures |slots| == frames
    ensures forall k :: 0 <= k < frames ==> slots[k] == if k % 2 == 0 then 0 else 1
  {
    var frameCount: s64 := 0;
    slots := [];
    while frameCount < frames
      invariant 0 <= frameCount <= frames
      invariant |slots| == frameCount
      invariant forall k :: 0 <= k < frameCount ==> slots[k] == if k % 2 == 0 then 0 else 1
    {
      var frameIdx := FrameIdx(frameCount);
      slots := slots + [frameIdx];
      frameCount := frameCount + 1;
    }
  }
}
