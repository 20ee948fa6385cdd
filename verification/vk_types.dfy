/**
 * The Vulkan interoperability descriptors of skia-safe's `gpu::vk` module:
 * `Alloc`, `YcbcrConversionInfo`, `ImageInfo` and `DrawableInfo`, their
 * `Default` values and the constructors the bindings implement themselves.
 *
 * The numeric values of Vulkan's enumerations come from generated bindings
 * and are not part of this model: every enumeration is a datatype whose
 * constructors are distinct, and `Format` and `ImageLayout` name only
 * `Undefined` (Vulkan's value 0) and keep every other value as its nonzero
 * code.
 */
module VkTypes {
  import opened Wrappers

  newtype u32 = x: int | 0 <= x < 0x1_0000_0000
  newtype u64 = x: int | 0 <= x < 0x1_0000_0000_0000_0000

  /** `vk::DeviceSize`, a byte count or offset on the device. */
  type DeviceSize = u64
  /** `vk::Bool32`. */
  type Bool32 = u32
  /** `vk::FormatFeatureFlags`, a bit mask. */
  type FormatFeatureFlags = u32
  /** `GrVkBackendMemory`, an opaque pointer-sized token of the backend allocator. */
  type BackendMemory = int

  /** A dispatchable or non-dispatchable Vulkan handle; raw value 0 is `VK_NULL_HANDLE`. */
  datatype Handle = Handle(raw: u64) {
    predicate IsNull() { raw == 0 }
  }

  const NULL_HANDLE: Handle := Handle(0)

  /** `VK_QUEUE_FAMILY_IGNORED`, which the Vulkan specification defines as `~0U`. */
  const QUEUE_FAMILY_IGNORED: u32 := 0xFFFF_FFFF

  /** A nonzero enumeration value; 0 is the `UNDEFINED` member of the enumerations that use it. */
  type NonzeroCode = c: nat | c != 0 witness 1

  datatype Format = Undefined | Defined(code: NonzeroCode)
  datatype ImageLayout = Undefined | Defined(code: NonzeroCode)
  datatype ImageTiling = Optimal | Linear | DrmFormatModifier
  datatype SamplerYcbcrModelConversion = RgbIdentity | YcbcrIdentity | Ycbcr709 | Ycbcr601 | Ycbcr2020
  datatype SamplerYcbcrRange = ItuFull | ItuNarrow
  datatype ChromaLocation = CositedEven | Midpoint
  datatype Filter = Nearest | Linear | Cubic

  /** `gpu::Protected`. */
  datatype Protected = No | Yes

  /** The two flags of the `AllocFlag` bit set; a value of the bit set is a set of them. */
  datatype AllocFlag = Noncoherent | Mappable
  type AllocFlags = set<AllocFlag>

  /** A raw `*mut vk::Rect2D`: null, or some address the descriptor does not own. */
  datatype RectPointer = Null | Address(addr: NonzeroAddress)
  type NonzeroAddress = a: u64 | a != 0 witness 1

  /** `GrVkAlloc`: a region of device memory and its properties. */
  datatype Alloc = Alloc(
    memory: Handle,
    offset: DeviceSize,
    size: DeviceSize,
    flags: AllocFlags,
    backendMemory: BackendMemory,
    usesSystemHeap: bool)
  {
    /** `Alloc::default()`: the inert allocation. */
    static function Default(): (a: Alloc)
      ensures a.memory.IsNull() && a.offset == 0 && a.size == 0
      ensures a.flags == {}
      ensures a.backendMemory == 0 && !a.usesSystemHeap
    {
      Alloc(NULL_HANDLE, 0, 0, {}, 0, false)
    }
  }

  /** `GrVkYcbcrConversionInfo`: the parameters of a sampler YCbCr conversion. */
  datatype YcbcrConversionInfo = YcbcrConversionInfo(
    format: Format,
    externalFormat: u64,
    ycrbcrModel: SamplerYcbcrModelConversion,
    ycbcrRange: SamplerYcbcrRange,
    xChromaOffset: ChromaLocation,
    yChromaOffset: ChromaLocation,
    chromaFilter: Filter,
    forceExplicitReconstruction: Bool32,
    formatFeatures: FormatFeatureFlags)
  {
    /** `is_valid()`: the descriptor names a real conversion, not the identity model. */
    predicate IsValid(): (valid: bool)
      ensures valid <==> ycrbcrModel in {YcbcrIdentity, Ycbcr709, Ycbcr601, Ycbcr2020}
    {
      ycrbcrModel != RgbIdentity
    }

    /** Exactly one of "a format is given" and "an external format is given". */
    predicate HasExclusiveFormat(): (exclusive: bool)
      ensures exclusive <==> (format.Defined? && externalFormat == 0) || (format.Undefined? && externalFormat != 0)
    {
      (format != Format.Undefined) != (externalFormat != 0)
    }

    /** `YcbcrConversionInfo::default()`: no format, no external format, identity model. */
    static function Default(): (y: YcbcrConversionInfo)
      ensures y.format == Format.Undefined && y.externalFormat == 0
      ensures y.ycrbcrModel == RgbIdentity && y.ycbcrRange == ItuFull
      ensures y.xChromaOffset == CositedEven && y.yChromaOffset == CositedEven
      ensures y.chromaFilter == Nearest
      ensures y.forceExplicitReconstruction == 0 && y.formatFeatures == 0
      ensures !y.IsValid() && !y.HasExclusiveFormat()
    {
      YcbcrConversionInfo(Format.Undefined, 0, RgbIdentity, ItuFull, CositedEven, CositedEven, Nearest, 0, 0)
    }

    /**
     * `new_with_format`: the two debug assertions of the constructor are its
     * preconditions; every argument lands unchanged in the field of the same name.
     */
    static function NewWithFormat(
      format: Format,
      externalFormat: u64,
      ycrbcrModel: SamplerYcbcrModelConversion,
      ycbcrRange: SamplerYcbcrRange,
      xChromaOffset: ChromaLocation,
      yChromaOffset: ChromaLocation,
      chromaFilter: Filter,
      forceExplicitReconstruction: Bool32,
      formatFeatures: FormatFeatureFlags): (y: YcbcrConversionInfo)
      requires ycrbcrModel != RgbIdentity
      requires (format != Format.Undefined) != (externalFormat != 0)
      ensures y.format == format && y.externalFormat == externalFormat
      ensures y.ycrbcrModel == ycrbcrModel && y.ycbcrRange == ycbcrRange
      ensures y.xChromaOffset == xChromaOffset && y.yChromaOffset == yChromaOffset
      ensures y.chromaFilter == chromaFilter
      ensures y.forceExplicitReconstruction == forceExplicitReconstruction
      ensures y.formatFeatures == formatFeatures
      ensures y.IsValid() && y.HasExclusiveFormat()
      ensures y != Default()
    {
      YcbcrConversionInfo(format, externalFormat, ycrbcrModel, ycbcrRange, xChromaOffset, yChromaOffset,
                          chromaFilter, forceExplicitReconstruction, formatFeatures)
    }

    /**
     * `new`: the external-format variant. It passes `Format.Undefined` to
     * `new_with_format`, so the exclusivity assertion demands a nonzero
     * external format. The external format and its features come last in
     * the argument list.
     */
    static function New(
      ycrbcrModel: SamplerYcbcrModelConversion,
      ycbcrRange: SamplerYcbcrRange,
      xChromaOffset: ChromaLocation,
      yChromaOffset: ChromaLocation,
      chromaFilter: Filter,
      forceExplicitReconstruction: Bool32,
      externalFormat: u64,
      externalFormatFeatures: FormatFeatureFlags): (y: YcbcrConversionInfo)
      requires ycrbcrModel != RgbIdentity
      requires externalFormat != 0
      ensures y == NewWithFormat(Format.Undefined, externalFormat, ycrbcrModel, ycbcrRange, xChromaOffset,
                                 yChromaOffset, chromaFilter, forceExplicitReconstruction, externalFormatFeatures)
      ensures y.format == Format.Undefined && y.externalFormat == externalFormat
      ensures y.formatFeatures == externalFormatFeatures
      ensures y.IsValid()
    {
      NewWithFormat(Format.Undefined, externalFormat, ycrbcrModel, ycbcrRange, xChromaOffset, yChromaOffset,
                    chromaFilter, forceExplicitReconstruction, externalFormatFeatures)
    }
  }

  /**
   * The descriptors `new_with_format` builds are exactly the valid ones with
   * exclusive formats: each such descriptor is rebuilt from its own fields.
   */
  lemma NewWithFormatReachesEveryWellFormed(y: YcbcrConversionInfo)
    requires y.IsValid() && y.HasExclusiveFormat()
    ensures YcbcrConversionInfo.NewWithFormat(y.format, y.externalFormat, y.ycrbcrModel, y.ycbcrRange,
                                              y.xChromaOffset, y.yChromaOffset, y.chromaFilter,
                                              y.forceExplicitReconstruction, y.formatFeatures) == y
  {
  }

  /** The descriptors `new` builds are exactly the valid ones with an external format and no format. */
  lemma NewReachesEveryExternal(y: YcbcrConversionInfo)
    requires y.IsValid() && y.format == Format.Undefined && y.externalFormat != 0
    ensures YcbcrConversionInfo.New(y.ycrbcrModel, y.ycbcrRange, y.xChromaOffset, y.yChromaOffset,
                                    y.chromaFilter, y.forceExplicitReconstruction, y.externalFormat,
                                    y.formatFeatures) == y
  {
  }

  /**
   * `is_valid` looks at the colour model only: it accepts descriptors that
   * give both a format and an external format, and descriptors that give
   * neither, both of which the constructors' assertion forbids.
   */
  lemma IsValidIgnoresFormatExclusivity()
    ensures exists y: YcbcrConversionInfo :: y.IsValid() && y.format.Defined? && y.externalFormat != 0
    ensures exists y: YcbcrConversionInfo :: y.IsValid() && y.format.Undefined? && y.externalFormat == 0
  {
    var both := YcbcrConversionInfo(Format.Defined(1), 1, Ycbcr709, ItuFull, CositedEven, CositedEven,
                                    Nearest, 0, 0);
    assert both.IsValid() && both.format.Defined? && both.externalFormat != 0;
    var neither := YcbcrConversionInfo(Format.Undefined, 0, Ycbcr709, ItuFull, CositedEven, CositedEven,
                                       Nearest, 0, 0);
    assert neither.IsValid() && neither.format.Undefined? && neither.externalFormat == 0;
  }

  /** `GrVkImageInfo`: a Vulkan image together with its allocation and state. */
  datatype ImageInfo = ImageInfo(
    image: Handle,
    alloc: Alloc,
    tiling: ImageTiling,
    layout: ImageLayout,
    format: Format,
    levelCount: u32,
    currentQueueFamily: u32,
    protected: Protected,
    ycbcrConversionInfo: YcbcrConversionInfo)
  {
    /** `ImageInfo::default()`: a null image with the inert allocation. */
    static function Default(): (i: ImageInfo)
      ensures i.image.IsNull() && i.alloc == Alloc.Default()
      ensures i.tiling == Optimal && i.layout == ImageLayout.Undefined && i.format == Format.Undefined
      ensures i.levelCount == 0 && i.currentQueueFamily == QUEUE_FAMILY_IGNORED
      ensures i.protected == No && i.ycbcrConversionInfo == YcbcrConversionInfo.Default()
    {
      ImageInfo(NULL_HANDLE, Alloc.Default(), Optimal, ImageLayout.Undefined, Format.Undefined, 0,
                QUEUE_FAMILY_IGNORED, No, YcbcrConversionInfo.Default())
    }

    /**
     * `ImageInfo::new`: the six required arguments are stored as given; an
     * omitted queue family becomes `QUEUE_FAMILY_IGNORED`, an omitted YCbCr
     * descriptor its default and an omitted protection flag `No`.
     */
    static function New(
      image: Handle,
      alloc: Alloc,
      tiling: ImageTiling,
      layout: ImageLayout,
      format: Format,
      levelCount: u32,
      currentQueueFamily: Option<u32>,
      ycbcrConversionInfo: Option<YcbcrConversionInfo>,
      protected: Option<Protected>): (i: ImageInfo)
      ensures i.image == image && i.alloc == alloc && i.tiling == tiling
      ensures i.layout == layout && i.format == format && i.levelCount == levelCount
      ensures currentQueueFamily.None? ==> i.currentQueueFamily == QUEUE_FAMILY_IGNORED
      ensures currentQueueFamily.Some? ==> i.currentQueueFamily == currentQueueFamily.value
      ensures ycbcrConversionInfo.None? ==> i.ycbcrConversionInfo == YcbcrConversionInfo.Default()
      ensures ycbcrConversionInfo.Some? ==> i.ycbcrConversionInfo == ycbcrConversionInfo.value
      ensures protected.None? ==> i.protected == No
      ensures protected.Some? ==> i.protected == protected.value
    {
      var currentQueueFamily := currentQueueFamily.UnwrapOr(QUEUE_FAMILY_IGNORED);
      var ycbcrConversionInfo := ycbcrConversionInfo.UnwrapOr(YcbcrConversionInfo.Default());
      var protected := protected.UnwrapOr(No);
      ImageInfo(image, alloc, tiling, layout, format, levelCount, currentQueueFamily, protected,
                ycbcrConversionInfo)
    }

    /** `ImageInfo::from_image`, the deprecated name of `new`. */
    static function FromImage(
      image: Handle,
      alloc: Alloc,
      tiling: ImageTiling,
      layout: ImageLayout,
      format: Format,
      levelCount: u32,
      currentQueueFamily: Option<u32>,
      ycbcrConversionInfo: Option<YcbcrConversionInfo>,
      protected: Option<Protected>): (i: ImageInfo)
      ensures i == New(image, alloc, tiling, layout, format, levelCount, currentQueueFamily,
                       ycbcrConversionInfo, protected)
    {
      New(image, alloc, tiling, layout, format, levelCount, currentQueueFamily, ycbcrConversionInfo, protected)
    }

    /** `ImageInfo::from_info`: a copy of `info` with only the layout replaced. */
    static function FromInfo(info: ImageInfo, layout: ImageLayout): (i: ImageInfo)
      ensures i == info.(layout := layout)
    {
      New(info.image, info.alloc, info.tiling, layout, info.format, info.levelCount,
          Some(info.currentQueueFamily), Some(info.ycbcrConversionInfo), Some(info.protected))
    }
  }

  /** The default image descriptor is what `new` gives for a null image with every optional argument omitted. */
  lemma DefaultImageInfoIsNewWithDefaults()
    ensures ImageInfo.Default() == ImageInfo.New(NULL_HANDLE, Alloc.Default(), Optimal, ImageLayout.Undefined,
                                                 Format.Undefined, 0, None, None, None)
  {
  }

  /** Changing the layout with `from_info` and changing it back gives the original descriptor. */
  lemma FromInfoRestoresLayout(info: ImageInfo, layout: ImageLayout)
    ensures ImageInfo.FromInfo(ImageInfo.FromInfo(info, layout), info.layout) == info
  {
  }

  /** `GrVkDrawableInfo`: what a Vulkan drawable is given to record into. */
  datatype DrawableInfo = DrawableInfo(
    secondaryCommandBuffer: Handle,
    colorAttachmentIndex: u32,
    compatibleRenderPass: Handle,
    format: Format,
    drawBounds: RectPointer,
    image: Handle)
  {
    /** `DrawableInfo::default()`: null handles, attachment 0, no bounds. */
    static function Default(): (d: DrawableInfo)
      ensures d.secondaryCommandBuffer.IsNull() && d.compatibleRenderPass.IsNull() && d.image.IsNull()
      ensures d.colorAttachmentIndex == 0 && d.format == Format.Undefined && d.drawBounds == Null
    {
      DrawableInfo(NULL_HANDLE, 0, NULL_HANDLE, Format.Undefined, Null, NULL_HANDLE)
    }
  }
}
