/**
 * The WebGPU vocabulary the validation oracles speak about: texture formats (as the
 * aspects and capabilities a format has), usage bit masks, texture and view descriptors,
 * render-pass attachments, query sets, and the valid-usage rules of the WebGPU
 * specification that the oracles restate for one concrete test case each.
 */
module Gpu {
  import opened Wrappers

  // ---------------------------------------------------------------------------
  // Formats
  // ---------------------------------------------------------------------------

  /** What the format table records about one texture format. */
  datatype FormatInfo = FormatInfo(
    depth: bool,
    stencil: bool,
    color: bool,
    renderable: bool,
    multisample: bool,
    resolve: bool)

  // ---------------------------------------------------------------------------
  // GPUTextureUsage flags (a 32-bit mask, combined with `|` and tested with `&`)
  // ---------------------------------------------------------------------------

  type TextureUsageFlags = bv32

  const CopySrc: TextureUsageFlags := 0x01
  const CopyDst: TextureUsageFlags := 0x02
  const TextureBinding: TextureUsageFlags := 0x04
  const StorageBinding: TextureUsageFlags := 0x08
  /** The deprecated name `STORAGE`, an alias of STORAGE_BINDING. */
  const Storage: TextureUsageFlags := 0x08
  const RenderAttachment: TextureUsageFlags := 0x10

  predicate HasUsage(usage: TextureUsageFlags, bit: TextureUsageFlags) {
    usage & bit != 0
  }

  // ---------------------------------------------------------------------------
  // Textures and views
  // ---------------------------------------------------------------------------

  datatype TextureDescriptor = TextureDescriptor(
    format: string,
    width: nat,
    height: nat,
    depthOrArrayLayers: nat,
    mipLevelCount: nat,
    sampleCount: nat,
    usage: TextureUsageFlags)

  /** A view of `texture` covering `mipLevelCount` levels and `arrayLayerCount` layers. */
  datatype TextureView = TextureView(
    texture: TextureDescriptor,
    baseMipLevel: nat,
    mipLevelCount: nat,
    baseArrayLayer: nat,
    arrayLayerCount: nat)

  /**
   * The subresource range of a GPUTextureViewDescriptor; an omitted count is None. The
   * view's dimension and format are not modelled.
   */
  datatype TextureViewDescriptor = TextureViewDescriptor(
    baseMipLevel: nat,
    mipLevelCount: Option<nat>,
    baseArrayLayer: nat,
    arrayLayerCount: Option<nat>)

  /** The descriptor with every member omitted. */
  const NoViewDescriptor := TextureViewDescriptor(0, None, 0, None)

  /** The levels (or layers) from `base` to the end of `total`; none when `base` is past the end. */
  function Remaining(total: nat, base: nat): nat {
    if base <= total then total - base else 0
  }

  /**
   * `texture.createView(desc)`: an omitted count covers the rest of the texture from the
   * base. A base past the end leaves an empty range, which no attachment accepts.
   */
  function CreateView(texture: TextureDescriptor, desc: TextureViewDescriptor): (v: TextureView)
    ensures v.texture == texture
    ensures v.baseMipLevel == desc.baseMipLevel && v.baseArrayLayer == desc.baseArrayLayer
    ensures desc.mipLevelCount.Some? ==> v.mipLevelCount == desc.mipLevelCount.value
    ensures desc.arrayLayerCount.Some? ==> v.arrayLayerCount == desc.arrayLayerCount.value
    ensures desc.mipLevelCount.None? && desc.baseMipLevel <= texture.mipLevelCount ==>
      v.baseMipLevel + v.mipLevelCount == texture.mipLevelCount
    ensures desc.arrayLayerCount.None? && desc.baseArrayLayer <= texture.depthOrArrayLayers ==>
      v.baseArrayLayer + v.arrayLayerCount == texture.depthOrArrayLayers
  {
    TextureView(
      texture,
      desc.baseMipLevel,
      desc.mipLevelCount.GetOr(Remaining(texture.mipLevelCount, desc.baseMipLevel)),
      desc.baseArrayLayer,
      desc.arrayLayerCount.GetOr(Remaining(texture.depthOrArrayLayers, desc.baseArrayLayer)))
  }

  /** `texture.createView()` with no descriptor: every level and every layer. */
  function WholeView(texture: TextureDescriptor): (v: TextureView)
    ensures v.texture == texture && v.baseMipLevel == 0 && v.baseArrayLayer == 0
    ensures v.mipLevelCount == texture.mipLevelCount
    ensures v.arrayLayerCount == texture.depthOrArrayLayers
  {
    CreateView(texture, NoViewDescriptor)
  }

  /** The width (or height) of mip level `level`: halved per level, rounding down, never below 1. */
  function MipLevelSize(size: nat, level: nat): nat {
    if level == 0 then size
    else
      var half := MipLevelSize(size, level - 1) / 2;
      if half == 0 then 1 else half
  }

  /**
   * A render-pass attachment view must name exactly one subresource of its texture:
   * one mip level and one array layer, both inside the texture.
   */
  predicate AttachmentViewValid(v: TextureView) {
    && v.mipLevelCount == 1
    && v.arrayLayerCount == 1
    && v.baseMipLevel < v.texture.mipLevelCount
    && v.baseArrayLayer < v.texture.depthOrArrayLayers
  }

  // ---------------------------------------------------------------------------
  // Render-pass attachments
  // ---------------------------------------------------------------------------

  datatype LoadOp = Load | Clear
  datatype StoreOp = Store | Discard

  datatype Color = Color(r: real, g: real, b: real, a: real)

  datatype ColorAttachment = ColorAttachment(
    view: TextureView,
    resolveTarget: Option<TextureView>,
    clearValue: Color,
    loadOp: LoadOp,
    storeOp: StoreOp)

  /**
   * GPURenderPassDepthStencilAttachment. Absent optional members are `None`;
   * `depthReadOnly` and `stencilReadOnly` default to false.
   */
  datatype DepthStencilAttachment = DepthStencilAttachment(
    view: TextureView,
    depthClearValue: Option<real>,
    depthLoadOp: Option<LoadOp>,
    depthStoreOp: Option<StoreOp>,
    depthReadOnly: bool,
    stencilClearValue: Option<nat>,
    stencilLoadOp: Option<LoadOp>,
    stencilStoreOp: Option<StoreOp>,
    stencilReadOnly: bool)

  /** The depth-stencil attachment with only its view set. */
  function BareDepthStencilAttachment(view: TextureView): (a: DepthStencilAttachment)
    ensures a.view == view && !a.depthReadOnly && !a.stencilReadOnly
    ensures a.depthClearValue.None? && a.depthLoadOp.None? && a.depthStoreOp.None?
    ensures a.stencilClearValue.None? && a.stencilLoadOp.None? && a.stencilStoreOp.None?
  {
    DepthStencilAttachment(view, None, None, None, false, None, None, None, false)
  }

  /** A provided depth clear value must lie in [0, 1] when the depth aspect is cleared. */
  predicate DepthClearValueValid(a: DepthStencilAttachment) {
    a.depthLoadOp == Some(Clear) && a.depthClearValue.Some? ==>
      0.0 <= a.depthClearValue.value <= 1.0
  }

  /**
   * The valid-usage rule for a depth-stencil attachment whose view has a format with the
   * aspects in `info`:
   *  - a combined depth-stencil format needs depthReadOnly == stencilReadOnly;
   *  - depth load/store ops are given iff the format has depth and depth is not read-only;
   *  - stencil load/store ops are given iff the format has stencil and stencil is not read-only;
   *  - the depth clear value is in range when the depth aspect is cleared.
   */
  predicate DepthStencilAttachmentValid(info: FormatInfo, a: DepthStencilAttachment) {
    && (info.depth && info.stencil ==> a.depthReadOnly == a.stencilReadOnly)
    && (a.depthLoadOp.Some? <==> info.depth && !a.depthReadOnly)
    && (a.depthStoreOp.Some? <==> info.depth && !a.depthReadOnly)
    && (a.stencilLoadOp.Some? <==> info.stencil && !a.stencilReadOnly)
    && (a.stencilStoreOp.Some? <==> info.stencil && !a.stencilReadOnly)
    && DepthClearValueValid(a)
  }

  /** A render pass needs at least one attachment: a non-null colour entry or a depth-stencil one. */
  predicate RenderPassHasAttachment<T>(colorAttachments: seq<Option<T>>, hasDepthStencil: bool) {
    hasDepthStencil || exists i :: 0 <= i < |colorAttachments| && colorAttachments[i].Some?
  }

  /** A render pass may hold at most `maxColorAttachments` colour attachments. */
  predicate ColorAttachmentCountValid(count: nat, maxColorAttachments: nat) {
    count <= maxColorAttachments
  }

  /** A resolve target must have been created with the RENDER_ATTACHMENT usage. */
  predicate ResolveTargetUsageValid(usage: TextureUsageFlags) {
    HasUsage(usage, RenderAttachment)
  }

  /**
   * The resolve-target rule for a colour attachment on `view`: the attachment is
   * multisampled, and the target is a single-sample, single-subresource view of a
   * RENDER_ATTACHMENT texture with the same format and, at the viewed levels, the same size.
   */
  predicate ResolveTargetValid(view: TextureView, target: TextureView) {
    && view.texture.sampleCount > 1
    && target.texture.sampleCount == 1
    && AttachmentViewValid(target)
    && ResolveTargetUsageValid(target.texture.usage)
    && target.texture.format == view.texture.format
    && MipLevelSize(target.texture.width, target.baseMipLevel) == MipLevelSize(view.texture.width, view.baseMipLevel)
    && MipLevelSize(target.texture.height, target.baseMipLevel) == MipLevelSize(view.texture.height, view.baseMipLevel)
  }

  /**
   * The per-attachment rule for a colour attachment: a single-subresource view of a
   * RENDER_ATTACHMENT texture, and a valid resolve target when one is given. Whether the
   * format is colour-renderable or resolvable is a property of the format table, which
   * this rule does not consult.
   */
  predicate ColorAttachmentValid(a: ColorAttachment) {
    && AttachmentViewValid(a.view)
    && HasUsage(a.view.texture.usage, RenderAttachment)
    && (a.resolveTarget.Some? ==> ResolveTargetValid(a.view, a.resolveTarget.value))
  }

  // ---------------------------------------------------------------------------
  // Pipeline depth-stencil state (what a render pipeline writes)
  // ---------------------------------------------------------------------------

  datatype StencilOperation =
    Keep | Zero | Replace | Invert | IncrementClamp | DecrementClamp | IncrementWrap | DecrementWrap

  datatype StencilFaceState = StencilFaceState(
    failOp: StencilOperation,
    depthFailOp: StencilOperation,
    passOp: StencilOperation)

  datatype CullMode = CullNone | CullFront | CullBack

  /** A face whose operations are not all 'keep' may change the stencil buffer. */
  predicate FaceMayWrite(face: StencilFaceState) {
    face.passOp != Keep || face.depthFailOp != Keep || face.failOp != Keep
  }

  // ---------------------------------------------------------------------------
  // Query sets and timestamp writes
  // ---------------------------------------------------------------------------

  datatype QueryType = Occlusion | Timestamp

  /** A query set; `id` tells apart two query sets created by two separate calls. */
  datatype QuerySet = QuerySet(id: nat, queryType: QueryType, count: nat)

  datatype TimestampLocation = Beginning | End

  datatype TimestampWrite = TimestampWrite(
    querySet: QuerySet,
    queryIndex: nat,
    location: TimestampLocation)

  /**
   * The valid-usage rule for a render pass's `timestampWrites`: every query set has type
   * 'timestamp', every index is below its set's count, no two entries share a location,
   * and no two entries write the same index of the same set.
   */
  predicate TimestampWritesValid(writes: seq<TimestampWrite>) {
    && (forall i :: 0 <= i < |writes| ==> writes[i].querySet.queryType == Timestamp)
    && (forall i :: 0 <= i < |writes| ==> writes[i].queryIndex < writes[i].querySet.count)
    && (forall i, j :: 0 <= i < j < |writes| ==> writes[i].location != writes[j].location)
    && (forall i, j :: 0 <= i < j < |writes| && writes[i].querySet.id == writes[j].querySet.id ==>
          writes[i].queryIndex != writes[j].queryIndex)
  }

  /** The timestamp-writes rule for a single write. */
  lemma TimestampWritesValidSingle(w: TimestampWrite)
    ensures TimestampWritesValid([w]) <==>
      w.querySet.queryType == Timestamp && w.queryIndex < w.querySet.count
  {
    assert [w][0] == w;
  }

  /** The timestamp-writes rule for a pair of writes. */
  lemma TimestampWritesValidPair(w0: TimestampWrite, w1: TimestampWrite)
    ensures TimestampWritesValid([w0, w1]) <==>
      && w0.querySet.queryType == Timestamp && w1.querySet.queryType == Timestamp
      && w0.queryIndex < w0.querySet.count && w1.queryIndex < w1.querySet.count
      && w0.location != w1.location
      && (w0.querySet.id == w1.querySet.id ==> w0.queryIndex != w1.queryIndex)
  {
    var writes := [w0, w1];
    assert writes[0] == w0 && writes[1] == w1;
  }

  /** The occlusion query set, when one is given, must have type 'occlusion'. */
  predicate OcclusionQuerySetValid(querySet: Option<QuerySet>) {
    querySet.Some? ==> querySet.value.queryType == Occlusion
  }

  // ---------------------------------------------------------------------------
  // GPUQueue.writeTexture
  // ---------------------------------------------------------------------------

  datatype ResourceState = Valid | Invalid | Destroyed

  /** The destination texture as writeTexture sees it. */
  datatype WriteDestination = WriteDestination(
    state: ResourceState,
    usage: TextureUsageFlags,
    sampleCount: nat)

  /**
   * writeTexture's rule on its destination: the texture is valid (not an error texture and
   * not destroyed), was created with COPY_DST, and is single-sampled.
   */
  predicate WriteTextureValid(d: WriteDestination) {
    d.state == Valid && HasUsage(d.usage, CopyDst) && d.sampleCount == 1
  }
}
