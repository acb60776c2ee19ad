/**
 * Render pass descriptor validation: the textures and attachments the tests build, and
 * the expected outcome of each test case, each tied to the WebGPU valid-usage rule it
 * restates (module Gpu).
 */
module RenderPassDescriptor {
  import opened Wrappers
  import opened Gpu

  // ---------------------------------------------------------------------------
  // Textures and attachments the tests build
  // ---------------------------------------------------------------------------

  /** The options of the fixture's createTexture; an omitted option is None. */
  datatype TextureOptions = TextureOptions(
    format: Option<string>,
    width: Option<nat>,
    height: Option<nat>,
    arrayLayerCount: Option<nat>,
    mipLevelCount: Option<nat>,
    sampleCount: Option<nat>,
    usage: Option<TextureUsageFlags>)

  const NoOptions := TextureOptions(None, None, None, None, None, None, None)

  /** The fixture's default texture: rgba8unorm, 16x16, one layer, one level, one sample, RENDER_ATTACHMENT. */
  const DefaultTexture := TextureDescriptor("rgba8unorm", 16, 16, 1, 1, 1, RenderAttachment)

  /**
   * The descriptor the fixture passes to createTexture: every option given is used as
   * given, every option omitted takes the value of the default texture; the array layer
   * count becomes the depthOrArrayLayers of the size.
   */
  function CreateTexture(options: TextureOptions): (t: TextureDescriptor)
    ensures options.format.Some? ==> t.format == options.format.value
    ensures options.width.Some? ==> t.width == options.width.value
    ensures options.height.Some? ==> t.height == options.height.value
    ensures options.arrayLayerCount.Some? ==> t.depthOrArrayLayers == options.arrayLayerCount.value
    ensures options.mipLevelCount.Some? ==> t.mipLevelCount == options.mipLevelCount.value
    ensures options.sampleCount.Some? ==> t.sampleCount == options.sampleCount.value
    ensures options.usage.Some? ==> t.usage == options.usage.value
    ensures options.format.None? ==> t.format == DefaultTexture.format
    ensures options.width.None? ==> t.width == DefaultTexture.width
    ensures options.height.None? ==> t.height == DefaultTexture.height
    ensures options.arrayLayerCount.None? ==> t.depthOrArrayLayers == DefaultTexture.depthOrArrayLayers
    ensures options.mipLevelCount.None? ==> t.mipLevelCount == DefaultTexture.mipLevelCount
    ensures options.sampleCount.None? ==> t.sampleCount == DefaultTexture.sampleCount
    ensures options.usage.None? ==> t.usage == DefaultTexture.usage
  {
    TextureDescriptor(
      options.format.GetOr("rgba8unorm"),
      options.width.GetOr(16),
      options.height.GetOr(16),
      options.arrayLayerCount.GetOr(1),
      options.mipLevelCount.GetOr(1),
      options.sampleCount.GetOr(1),
      options.usage.GetOr(RenderAttachment))
  }

  /** With no options the fixture creates the default texture. */
  lemma CreateTextureDefaults()
    ensures CreateTexture(NoOptions) ==
      TextureDescriptor("rgba8unorm", 16, 16, 1, 1, 1, RenderAttachment)
  {
  }

  /**
   * The default texture's whole view is a valid attachment view, and the texture is a
   * valid resolve target by usage.
   */
  lemma DefaultTextureIsAttachable()
    ensures AttachmentViewValid(WholeView(CreateTexture(NoOptions)))
    ensures ResolveTargetUsageValid(CreateTexture(NoOptions).usage)
  {
  }

  /**
   * getColorAttachment: a view of the texture (the whole texture when no view descriptor
   * is given), cleared to opaque red and stored, without a resolve target.
   */
  function GetColorAttachment(texture: TextureDescriptor, viewDescriptor: Option<TextureViewDescriptor>)
    : (a: ColorAttachment)
    ensures viewDescriptor.None? ==> a.view == WholeView(texture)
    ensures viewDescriptor.Some? ==> a.view == CreateView(texture, viewDescriptor.value)
    ensures a.resolveTarget.None?
    ensures a.loadOp == Clear && a.storeOp == Store && a.clearValue == Color(1.0, 0.0, 0.0, 1.0)
  {
    var view := CreateView(texture, viewDescriptor.GetOr(NoViewDescriptor));
    ColorAttachment(view, None, Color(1.0, 0.0, 0.0, 1.0), Clear, Store)
  }

  /**
   * getDepthStencilAttachment: a view of the texture (the whole texture when no view
   * descriptor is given), both aspects cleared (depth to 1.0, stencil to 0) and stored.
   */
  function GetDepthStencilAttachment(texture: TextureDescriptor, viewDescriptor: Option<TextureViewDescriptor>)
    : (a: DepthStencilAttachment)
    ensures viewDescriptor.None? ==> a.view == WholeView(texture)
    ensures viewDescriptor.Some? ==> a.view == CreateView(texture, viewDescriptor.value)
    ensures !a.depthReadOnly && !a.stencilReadOnly
    ensures a.depthClearValue == Some(1.0) && a.depthLoadOp == Some(Clear) && a.depthStoreOp == Some(Store)
    ensures a.stencilClearValue == Some(0) && a.stencilLoadOp == Some(Clear) && a.stencilStoreOp == Some(Store)
  {
    var view := CreateView(texture, viewDescriptor.GetOr(NoViewDescriptor));
    DepthStencilAttachment(view, Some(1.0), Some(Clear), Some(Store), false,
                           Some(0), Some(Clear), Some(Store), false)
  }

  /** For a combined depth-stencil format, the fixture's depth-stencil attachment obeys the rule. */
  lemma GetDepthStencilAttachmentValid(texture: TextureDescriptor, info: FormatInfo)
    requires info.depth && info.stencil
    ensures DepthStencilAttachmentValid(info, GetDepthStencilAttachment(texture, None))
  {
  }

  /**
   * attachments,one_color_attachment: a pass whose only attachment is the fixture's colour
   * attachment on an rgba8unorm texture has an attachment, and that attachment obeys the
   * colour-attachment rule.
   */
  lemma OneColorAttachmentValid()
    ensures var color := GetColorAttachment(CreateTexture(NoOptions.(format := Some("rgba8unorm"))), None);
      RenderPassHasAttachment([Some(color)], false) && ColorAttachmentValid(color)
  {
    var color := GetColorAttachment(CreateTexture(NoOptions.(format := Some("rgba8unorm"))), None);
    assert [Some(color)][0].Some?;
  }

  /**
   * attachments,one_depth_stencil_attachment: a pass with no colour attachment and the
   * fixture's depth-stencil attachment on a combined format has an attachment, a valid
   * view, and obeys the depth-stencil attachment rule.
   */
  lemma OneDepthStencilAttachmentValid(info: FormatInfo)
    requires info.depth && info.stencil
    ensures var ds := GetDepthStencilAttachment(CreateTexture(NoOptions.(format := Some("depth24plus-stencil8"))), None);
      && RenderPassHasAttachment<ColorAttachment>([], true)
      && AttachmentViewValid(ds.view)
      && DepthStencilAttachmentValid(info, ds)
  {
  }

  // ---------------------------------------------------------------------------
  // color_attachments,empty
  // ---------------------------------------------------------------------------

  /** An entry of the colorAttachments parameter: a placeholder `{ format }` or a built attachment. */
  datatype ColorSlot = Placeholder(format: string) | Attachment(attachment: ColorAttachment)

  /**
   * Replaces every defined entry by a colour attachment on a default texture, leaves the
   * undefined entries alone, and expects success iff some entry was defined or a
   * depth-stencil attachment is present.
   */
  method PrepareColorAttachments(colorAttachments: array<Option<ColorSlot>>, hasDepthStencilAttachment: bool)
    returns (success: bool)
    modifies colorAttachments
    ensures forall i :: 0 <= i < colorAttachments.Length ==>
      colorAttachments[i] ==
        if old(colorAttachments[i]).Some? then Some(Attachment(GetColorAttachment(DefaultTexture, None))) else None
    ensures success <==> RenderPassHasAttachment(old(colorAttachments[..]), hasDepthStencilAttachment)
  {
    var isEmptyColorTargets := true;
    for i := 0 to colorAttachments.Length
      invariant forall k :: 0 <= k < i ==>
        colorAttachments[k] ==
          if old(colorAttachments[k]).Some? then Some(Attachment(GetColorAttachment(DefaultTexture, None))) else None
      invariant forall k :: i <= k < colorAttachments.Length ==> colorAttachments[k] == old(colorAttachments[k])
      invariant isEmptyColorTargets <==> forall k :: 0 <= k < i ==> old(colorAttachments[k]).None?
    {
      if colorAttachments[i].Some? {
        isEmptyColorTargets := false;
        var colorTexture := CreateTexture(NoOptions);
        colorAttachments[i] := Some(Attachment(GetColorAttachment(colorTexture, None)));
      }
    }
    success := !isEmptyColorTargets || hasDepthStencilAttachment;
    assert !isEmptyColorTargets ==> exists k :: 0 <= k < colorAttachments.Length && old(colorAttachments[..])[k].Some?;
  }

  /**
   * The test's five colorAttachments values: empty, one, two and eight undefined entries,
   * and one defined entry. Without a depth-stencil attachment only the last one has an
   * attachment; with one, all five do.
   */
  function EmptyColorAttachmentsParams(): (params: seq<seq<Option<ColorSlot>>>)
    ensures |params| == 5 && |params[3]| == 8
    ensures forall i :: 0 <= i < 5 ==> (RenderPassHasAttachment(params[i], false) <==> i == 4)
    ensures forall i :: 0 <= i < 5 ==> RenderPassHasAttachment(params[i], true)
  {
    var params := [[], [None], [None, None], seq(8, _ => None), [Some(Placeholder("rgba8unorm"))]];
    assert params[4][0].Some?;
    params
  }

  // ---------------------------------------------------------------------------
  // color_attachments,out_of_bounds
  // ---------------------------------------------------------------------------

  /** The limit the out-of-bounds test is written for. */
  const OutOfBoundsLimit: nat := 8

  datatype CountCase = CountCase(colorAttachmentsCount: nat, success: bool)

  /** The test's two cases: 8 attachments succeed, 9 fail, as the count rule says. */
  function OutOfBoundsCases(): (cases: seq<CountCase>)
    ensures |cases| == 2 && cases[0].colorAttachmentsCount == 8 && cases[1].colorAttachmentsCount == 9
    ensures forall c :: c in cases ==>
      (c.success <==> ColorAttachmentCountValid(c.colorAttachmentsCount, OutOfBoundsLimit))
  {
    [CountCase(8, true), CountCase(9, false)]
  }

  /** The colour attachments of an out-of-bounds case: `count` attachments on default textures. */
  method BuildColorAttachments(count: nat) returns (colorAttachments: seq<ColorAttachment>)
    ensures |colorAttachments| == count
    ensures forall i :: 0 <= i < count ==> colorAttachments[i] == GetColorAttachment(DefaultTexture, None)
  {
    colorAttachments := [];
    for i := 0 to count
      invariant |colorAttachments| == i
      invariant forall k :: 0 <= k < i ==> colorAttachments[k] == GetColorAttachment(DefaultTexture, None)
    {
      var colorTexture := CreateTexture(NoOptions);
      colorAttachments := colorAttachments + [GetColorAttachment(colorTexture, None)];
    }
  }

  // ---------------------------------------------------------------------------
  // attachments,layer_count and attachments,mip_level_count
  // ---------------------------------------------------------------------------

  /** One row of a view test: the view's count and base, and the expected outcome. */
  datatype ViewCase = ViewCase(count: nat, base: nat, success: bool)

  /** The tests' 32x32 texture of `format` with `layers` array layers and `levels` mip levels. */
  function ViewTestTexture(format: string, layers: nat, levels: nat): TextureDescriptor {
    CreateTexture(TextureOptions(Some(format), Some(32), Some(32), Some(layers), Some(levels), None, None))
  }

  /** layer_count's view: `count` layers from layer `base`, one level. */
  function LayerCountDescriptor(c: ViewCase): TextureViewDescriptor {
    TextureViewDescriptor(0, Some(1), c.base, Some(c.count))
  }

  /** mip_level_count's view: `count` levels from level `base`, one layer. */
  function MipLevelCountDescriptor(c: ViewCase): TextureViewDescriptor {
    TextureViewDescriptor(c.base, Some(c.count), 0, Some(1))
  }

  /** layer_count's first pass: the colour attachment on a ten-layer rgba8unorm texture. */
  function LayerCountColorAttachment(c: ViewCase): ColorAttachment {
    GetColorAttachment(ViewTestTexture("rgba8unorm", 10, 1), Some(LayerCountDescriptor(c)))
  }

  /** layer_count's second pass: the depth-stencil attachment on a ten-layer depth24plus-stencil8 texture. */
  function LayerCountDepthStencilAttachment(c: ViewCase): DepthStencilAttachment {
    GetDepthStencilAttachment(ViewTestTexture("depth24plus-stencil8", 10, 1), Some(LayerCountDescriptor(c)))
  }

  /** mip_level_count's first pass: the colour attachment on a four-level rgba8unorm texture. */
  function MipLevelCountColorAttachment(c: ViewCase): ColorAttachment {
    GetColorAttachment(ViewTestTexture("rgba8unorm", 1, 4), Some(MipLevelCountDescriptor(c)))
  }

  /** mip_level_count's second pass: the depth-stencil attachment on a four-level depth24plus-stencil8 texture. */
  function MipLevelCountDepthStencilAttachment(c: ViewCase): DepthStencilAttachment {
    GetDepthStencilAttachment(ViewTestTexture("depth24plus-stencil8", 1, 4), Some(MipLevelCountDescriptor(c)))
  }

  /**
   * Five layers fail; one layer succeeds at the first and at the last layer. The expected
   * outcome of the colour pass is the colour-attachment rule on its attachment.
   */
  function LayerCountCases(): (cases: seq<ViewCase>)
    ensures |cases| == 3
    ensures cases[0].count > 1 && !cases[0].success
    ensures cases[2].base == ViewTestTexture("rgba8unorm", 10, 1).depthOrArrayLayers - 1 && cases[2].success
    ensures forall c :: c in cases ==> (c.success <==> ColorAttachmentValid(LayerCountColorAttachment(c)))
  {
    [ViewCase(5, 0, false), ViewCase(1, 0, true), ViewCase(1, 9, true)]
  }

  /**
   * The depth-stencil pass of layer_count expects the same outcome: for a combined format,
   * the view rule together with the depth-stencil attachment rule.
   */
  lemma LayerCountDepthStencilCases(info: FormatInfo)
    requires info.depth && info.stencil
    ensures forall c :: c in LayerCountCases() ==>
      (c.success <==>
        && AttachmentViewValid(LayerCountDepthStencilAttachment(c).view)
        && DepthStencilAttachmentValid(info, LayerCountDepthStencilAttachment(c)))
  {
  }

  /**
   * Two levels fail; one level succeeds at the first and at the last level. The expected
   * outcome of the colour pass is the colour-attachment rule on its attachment.
   */
  function MipLevelCountCases(): (cases: seq<ViewCase>)
    ensures |cases| == 3
    ensures cases[0].count > 1 && !cases[0].success
    ensures cases[2].base == ViewTestTexture("rgba8unorm", 1, 4).mipLevelCount - 1 && cases[2].success
    ensures forall c :: c in cases ==> (c.success <==> ColorAttachmentValid(MipLevelCountColorAttachment(c)))
  {
    [ViewCase(2, 0, false), ViewCase(1, 0, true), ViewCase(1, 3, true)]
  }

  /** The depth-stencil pass of mip_level_count expects the same outcome as its colour pass. */
  lemma MipLevelCountDepthStencilCases(info: FormatInfo)
    requires info.depth && info.stencil
    ensures forall c :: c in MipLevelCountCases() ==>
      (c.success <==>
        && AttachmentViewValid(MipLevelCountDepthStencilAttachment(c).view)
        && DepthStencilAttachmentValid(info, MipLevelCountDepthStencilAttachment(c)))
  {
  }

  /** A view of more than one layer or level is never a valid attachment view. */
  lemma MultiSubresourceViewInvalid(v: TextureView)
    requires v.arrayLayerCount > 1 || v.mipLevelCount > 1
    ensures !AttachmentViewValid(v)
  {
  }

  // ---------------------------------------------------------------------------
  // depth_stencil_attachment
  // ---------------------------------------------------------------------------

  /**
   * One case of the depth_stencil_attachment test: the expected outcome, accumulated
   * check by check, and the attachment the test builds on a texture of `format`. The
   * outcome is the depth-stencil attachment rule applied to that attachment.
   */
  method DepthStencilAttachmentCase(
    format: string, info: FormatInfo,
    depthReadOnly: bool, stencilReadOnly: bool,
    setDepthLoadStoreOp: bool, setStencilLoadStoreOp: bool)
    returns (isValid: bool, attachment: DepthStencilAttachment)
    ensures isValid <==>
      && (info.depth && info.stencil ==> depthReadOnly == stencilReadOnly)
      && (setDepthLoadStoreOp <==> info.depth && !depthReadOnly)
      && (setStencilLoadStoreOp <==> info.stencil && !stencilReadOnly)
    ensures attachment.view == WholeView(CreateTexture(NoOptions.(format := Some(format))))
    ensures attachment.depthReadOnly == depthReadOnly && attachment.stencilReadOnly == stencilReadOnly
    ensures attachment.depthClearValue.None? && attachment.stencilClearValue.None?
    ensures attachment.depthLoadOp == (if setDepthLoadStoreOp then Some(Clear) else None)
    ensures attachment.depthStoreOp == (if setDepthLoadStoreOp then Some(Store) else None)
    ensures attachment.stencilLoadOp == (if setStencilLoadStoreOp then Some(Clear) else None)
    ensures attachment.stencilStoreOp == (if setStencilLoadStoreOp then Some(Store) else None)
    ensures isValid <==> DepthStencilAttachmentValid(info, attachment)
  {
    isValid := true;
    if info.depth && info.stencil {
      isValid := isValid && depthReadOnly == stencilReadOnly;
    }
    if info.depth && !depthReadOnly {
      isValid := isValid && setDepthLoadStoreOp;
    } else {
      isValid := isValid && !setDepthLoadStoreOp;
    }
    if info.stencil && !stencilReadOnly {
      isValid := isValid && setStencilLoadStoreOp;
    } else {
      isValid := isValid && !setStencilLoadStoreOp;
    }

    var view := WholeView(CreateTexture(NoOptions.(format := Some(format))));
    attachment := BareDepthStencilAttachment(view).(depthReadOnly := depthReadOnly, stencilReadOnly := stencilReadOnly);
    if setDepthLoadStoreOp {
      attachment := attachment.(depthLoadOp := Some(Clear), depthStoreOp := Some(Store));
    }
    if setStencilLoadStoreOp {
      attachment := attachment.(stencilLoadOp := Some(Clear), stencilStoreOp := Some(Store));
    }
  }

  // ---------------------------------------------------------------------------
  // depth_stencil_attachment,depth_clear_value
  // ---------------------------------------------------------------------------

  /** The test's expected outcome: only a cleared depth aspect checks the clear value's range. */
  function DepthClearValueExpected(depthLoadOp: Option<LoadOp>, depthClearValue: real): (isValid: bool)
    ensures depthLoadOp != Some(Clear) ==> isValid
    ensures depthLoadOp == Some(Clear) ==> (isValid <==> 0.0 <= depthClearValue <= 1.0)
  {
    !(depthLoadOp == Some(Clear) && (depthClearValue < 0.0 || depthClearValue > 1.0))
  }

  /**
   * One case of the depth_clear_value test. With a depth load op the texture has a combined
   * depth-stencil format, without one a stencil-only format, and the attachment starts from
   * the fixture's and is then changed field by field. The expected outcome is the
   * depth-stencil attachment rule applied to the attachment built.
   */
  method DepthClearValueCase(
    depthLoadOp: Option<LoadOp>, depthClearValue: real,
    combinedInfo: FormatInfo, stencilOnlyInfo: FormatInfo)
    returns (isValid: bool, info: FormatInfo, attachment: DepthStencilAttachment)
    requires combinedInfo.depth && combinedInfo.stencil
    requires !stencilOnlyInfo.depth && stencilOnlyInfo.stencil
    ensures info == if depthLoadOp.None? then stencilOnlyInfo else combinedInfo
    ensures attachment.depthClearValue == Some(depthClearValue) && attachment.depthLoadOp == depthLoadOp
    ensures isValid <==> DepthClearValueExpected(depthLoadOp, depthClearValue)
    ensures isValid <==> DepthStencilAttachmentValid(info, attachment)
  {
    var format := if depthLoadOp.None? then "stencil8" else "depth24plus-stencil8";
    info := if depthLoadOp.None? then stencilOnlyInfo else combinedInfo;
    var depthStencilTexture := CreateTexture(NoOptions.(format := Some(format)));
    attachment := GetDepthStencilAttachment(depthStencilTexture, None);
    attachment := attachment.(depthClearValue := Some(depthClearValue));
    attachment := attachment.(depthLoadOp := depthLoadOp);
    if depthLoadOp.None? {
      attachment := attachment.(depthStoreOp := None);
    }
    isValid := !(depthLoadOp == Some(Clear) && (depthClearValue < 0.0 || depthClearValue > 1.0));
  }

  // ---------------------------------------------------------------------------
  // resolveTarget,usage
  // ---------------------------------------------------------------------------

  /** The fixture's colour attachment on `texture` with `target` set as its resolve target. */
  function WithResolveTarget(texture: TextureDescriptor, target: TextureView): (a: ColorAttachment)
    ensures a.view == WholeView(texture) && a.resolveTarget == Some(target)
  {
    GetColorAttachment(texture, None).(resolveTarget := Some(target))
  }

  /** A texture of the fixture's defaults with sample count 4. */
  const MultisampledTexture := CreateTexture(NoOptions.(sampleCount := Some(4)))

  /** The attachment resolveTarget,usage builds: a 4-sample texture resolved into a texture of `usage`. */
  function ResolveTargetUsageAttachment(usage: TextureUsageFlags): ColorAttachment {
    WithResolveTarget(MultisampledTexture, WholeView(CreateTexture(NoOptions.(usage := Some(usage)))))
  }

  /**
   * `usage & RENDER_ATTACHMENT ? true : false`: the resolve target carries the
   * RENDER_ATTACHMENT bit, which is exactly when the attachment the test builds obeys the
   * colour-attachment rule with its resolve-target part.
   */
  function ResolveTargetUsageExpected(usage: TextureUsageFlags): (isValid: bool)
    ensures isValid <==> usage & RenderAttachment == RenderAttachment
    ensures isValid <==> ColorAttachmentValid(ResolveTargetUsageAttachment(usage))
  {
    usage & RenderAttachment != 0
  }

  /** The four usages the test tries; only RENDER_ATTACHMENT | TEXTURE_BINDING is a valid resolve target. */
  function ResolveTargetUsages(): (usages: seq<TextureUsageFlags>)
    ensures |usages| == 4
    ensures forall i :: 0 <= i < 4 ==> (ResolveTargetUsageExpected(usages[i]) <==> i == 3)
  {
    [CopySrc | CopyDst, StorageBinding | TextureBinding, StorageBinding | Storage, RenderAttachment | TextureBinding]
  }

  /** Other usage bits neither make nor break a resolve target. */
  lemma ResolveTargetUsageIgnoresOtherBits(usage: TextureUsageFlags, other: TextureUsageFlags)
    requires other & RenderAttachment == 0
    ensures ResolveTargetUsageExpected(usage | other) <==> ResolveTargetUsageExpected(usage)
    ensures ResolveTargetUsageExpected(usage) <==> ResolveTargetUsageValid(usage)
  {
  }

  // ---------------------------------------------------------------------------
  // The resolve-target tests with a fixed expectation
  // ---------------------------------------------------------------------------

  /** An attachment a test builds and the outcome the test expects for it. */
  datatype AttachmentCase = AttachmentCase(attachment: ColorAttachment, expected: bool)

  /**
   * The single-pass resolve-target tests, in file order: non_multisampled,
   * resolveTarget,sample_count, array_layer_count, mipmap_level_count, error_state,
   * single_sample_count, different_format, and the two passes of different_size. Each
   * expectation is the colour-attachment rule on the attachment the test builds.
   */
  function ResolveTargetCases(): (cases: seq<AttachmentCase>)
    ensures |cases| == 9
    ensures forall c :: c in cases ==> (c.expected <==> ColorAttachmentValid(c.attachment))
  {
    var singleSampled := CreateTexture(NoOptions.(sampleCount := Some(1)));
    var twoLayers := CreateTexture(NoOptions.(arrayLayerCount := Some(2)));
    var twoLevels := CreateTexture(NoOptions.(mipLevelCount := Some(2)));
    var bgra := CreateTexture(NoOptions.(format := Some("bgra8unorm")));
    var small := CreateTexture(NoOptions.(width := Some(16), height := Some(16), sampleCount := Some(4)));
    var large := CreateTexture(NoOptions.(width := Some(32), height := Some(32), mipLevelCount := Some(2)));
    [ AttachmentCase(WithResolveTarget(singleSampled, WholeView(singleSampled)), false),
      AttachmentCase(WithResolveTarget(MultisampledTexture, WholeView(MultisampledTexture)), false),
      AttachmentCase(WithResolveTarget(MultisampledTexture, WholeView(twoLayers)), false),
      AttachmentCase(WithResolveTarget(MultisampledTexture, WholeView(twoLevels)), false),
      AttachmentCase(WithResolveTarget(MultisampledTexture,
        CreateView(CreateTexture(NoOptions), TextureViewDescriptor(0, None, 2, None))), false),
      AttachmentCase(WithResolveTarget(MultisampledTexture, WholeView(singleSampled)), true),
      AttachmentCase(WithResolveTarget(MultisampledTexture, WholeView(bgra)), false),
      AttachmentCase(WithResolveTarget(small, CreateView(large, TextureViewDescriptor(0, Some(1), 0, None))), false),
      AttachmentCase(WithResolveTarget(small, CreateView(large, TextureViewDescriptor(1, None, 0, None))), true) ]
  }

  // ---------------------------------------------------------------------------
  // timestampWrites and occlusionQuerySet
  // ---------------------------------------------------------------------------

  /** timestampWrites,query_set_type: two single-query sets of the given types, at beginning and end. */
  function QuerySetTypeWrites(typeA: QueryType, typeB: QueryType): seq<TimestampWrite> {
    [TimestampWrite(QuerySet(0, typeA, 1), 0, Beginning),
     TimestampWrite(QuerySet(1, typeB, 1), 0, End)]
  }

  function QuerySetTypeExpected(typeA: QueryType, typeB: QueryType): (isValid: bool)
    ensures isValid <==> TimestampWritesValid(QuerySetTypeWrites(typeA, typeB))
  {
    TimestampWritesValidPair(QuerySetTypeWrites(typeA, typeB)[0], QuerySetTypeWrites(typeA, typeB)[1]);
    typeA == Timestamp && typeB == Timestamp
  }

  /**
   * timestamp_writes_location as written: one timestamp query set of count 1, written at
   * index 0 and at index 1.
   */
  function LocationWritesAsWritten(locationA: TimestampLocation, locationB: TimestampLocation): seq<TimestampWrite> {
    [TimestampWrite(QuerySet(0, Timestamp, 1), 0, locationA),
     TimestampWrite(QuerySet(0, Timestamp, 1), 1, locationB)]
  }

  /** timestamp_writes_location with a query set of count 2, so that index 1 exists. */
  function LocationWrites(locationA: TimestampLocation, locationB: TimestampLocation): seq<TimestampWrite> {
    [TimestampWrite(QuerySet(0, Timestamp, 2), 0, locationA),
     TimestampWrite(QuerySet(0, Timestamp, 2), 1, locationB)]
  }

  function TimestampLocationExpected(locationA: TimestampLocation, locationB: TimestampLocation): (isValid: bool)
    ensures isValid <==> TimestampWritesValid(LocationWrites(locationA, locationB))
  {
    TimestampWritesValidPair(LocationWrites(locationA, locationB)[0], LocationWrites(locationA, locationB)[1]);
    locationA != locationB
  }

  /**
   * With a query set of count 1 the second write's index is out of range, so no location
   * pair is valid, yet the expected outcome for ('beginning', 'end') is success.
   */
  lemma LocationCaseAsWrittenNeverValid(locationA: TimestampLocation, locationB: TimestampLocation)
    ensures !TimestampWritesValid(LocationWritesAsWritten(locationA, locationB))
    ensures TimestampLocationExpected(Beginning, End)
  {
    var writes := LocationWritesAsWritten(locationA, locationB);
    assert !(writes[1].queryIndex < writes[1].querySet.count);
  }

  /** timestampWrite,query_index: one write into a timestamp set of count 2. */
  function QueryIndexWrites(queryIndex: nat): seq<TimestampWrite> {
    [TimestampWrite(QuerySet(0, Timestamp, 2), queryIndex, Beginning)]
  }

  function QueryIndexExpected(queryIndex: nat): (isValid: bool)
    ensures isValid <==> TimestampWritesValid(QueryIndexWrites(queryIndex))
  {
    TimestampWritesValidSingle(QueryIndexWrites(queryIndex)[0]);
    queryIndex < 2
  }

  /** timestampWrite,same_query_index: two writes into one timestamp set of count 2. */
  function SameQueryIndexWrites(queryIndexA: nat, queryIndexB: nat): seq<TimestampWrite> {
    [TimestampWrite(QuerySet(0, Timestamp, 2), queryIndexA, Beginning),
     TimestampWrite(QuerySet(0, Timestamp, 2), queryIndexB, End)]
  }

  /** The indices the test combines are 0 and 1, both inside the set. */
  function SameQueryIndexExpected(queryIndexA: nat, queryIndexB: nat): (isValid: bool)
    requires queryIndexA < 2 && queryIndexB < 2
    ensures isValid <==> TimestampWritesValid(SameQueryIndexWrites(queryIndexA, queryIndexB))
  {
    TimestampWritesValidPair(SameQueryIndexWrites(queryIndexA, queryIndexB)[0], SameQueryIndexWrites(queryIndexA, queryIndexB)[1]);
    queryIndexA != queryIndexB
  }

  /** occlusionQuerySet,query_set_type: a set of one query of the given type. */
  function OcclusionQuerySetExpected(queryType: QueryType): (isValid: bool)
    ensures isValid <==> OcclusionQuerySetValid(Some(QuerySet(0, queryType, 1)))
  {
    queryType == Occlusion
  }
}
