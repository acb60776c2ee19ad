# WebGPU render-pass and writeTexture validation oracles, in Dafny

This project models three validation test files of a WebGPU conformance test suite.
Each test builds a GPU call and says whether the implementation must accept it. The
model keeps the decision logic and drops the device calls:

- **Attachment compatibility**
  (`src/webgpu/api/validation/render_pass/attachment_compatibility.spec.ts`). This file
  has four pieces:
  - the generator of sparse colour-attachment patterns (`kColorAttachments`), in which
    each slot is a null or non-null attachment;
  - the sparse-case filter and the slot-wise equality that gives the expected outcome;
  - the parameter filter and the expected outcome for depth/stencil read-only state
    against a pipeline's depth/stencil writes;
  - `createDepthAttachment`.
- **Render pass descriptor**
  (`src/webgpu/api/validation/render_pass/render_pass_descriptor.spec.ts`). This file
  covers:
  - the fixture's texture defaults and attachments;
  - the empty-colour-targets loop and the colour attachment count limit;
  - the single-layer and single-level view cases, for both the colour and the
    depth-stencil pass;
  - the depth-stencil attachment rule and the depth clear value range;
  - the resolve-target rule: its usage bit, and the tests with a fixed expectation;
  - the timestamp-write and occlusion query-set rules.
- **Queue writeTexture** (`src/webgpu/api/validation/queue/writeTexture.spec.ts`): the
  texture state, the COPY_DST usage bit and the sample count.

Module `Gpu` states WebGPU valid-usage rules over the descriptor a test builds:

- `AttachmentViewValid`, `ColorAttachmentValid` and `ResolveTargetValid`;
- `DepthStencilAttachmentValid`;
- `TimestampWritesValid` and `OcclusionQuerySetValid`;
- `WriteTextureValid`.

The render-pass descriptor and writeTexture tests are tied to these rules. Their
expected outcome is proved equal to the rule, applied to the attachment, query-set
writes or texture that the test builds. The attachment-compatibility tests are not tied
to a `Gpu` rule, because the render bundle and pipeline compatibility rules are not
modelled. There, the expected outcome is characterised in closed form: slot-wise
equality of the two patterns for the sparse tests, and `ReadOnlyCompatible` for the
read-only test. The loops and step-by-step updates in
the source are methods. Their contracts are the specification functions, and the
properties are proved as lemmas about those functions. The methods are:

- the pattern generator;
- the `isValid` accumulation;
- `createDepthAttachment` and the attachments built field by field;
- the colour-attachment loop.

## Model

| member | source | states |
|---|---|---|
| `AttachmentCompatibility.ColorAttachmentCounts` | src/webgpu/api/validation/render_pass/attachment_compatibility.spec.ts:19 | the colour counts are exactly 1..kMaxColorAttachments, in increasing order |
| `AttachmentCompatibility.GenerateForCount` | src/webgpu/api/validation/render_pass/attachment_compatibility.spec.ts:21-72 | the per-count generator builds exactly the specified pattern list: [[1]] for count 1; [1,1],[0,1],[1,0] for count 2; otherwise all-true, then one-null at slots 0..count-1, then (count ≤ 4) two-null for pairs i<j in (i, j) order |
| `AttachmentCompatibility.GenerateColorAttachments` | src/webgpu/api/validation/render_pass/attachment_compatibility.spec.ts:19-74 | `kColorAttachments` is the per-count lists for counts 1..kMaxColorAttachments, concatenated in count order |
| `AttachmentCompatibility.PatternsForCountShape` | src/webgpu/api/validation/render_pass/attachment_compatibility.spec.ts:31-70 | every pattern generated for a count has that many slots and at least one non-null slot |
| `AttachmentCompatibility.PatternsForCountDistinct` | src/webgpu/api/validation/render_pass/attachment_compatibility.spec.ts:31-70 | no two patterns generated for the same count are equal |
| `AttachmentCompatibility.PatternsForCountSize` | src/webgpu/api/validation/render_pass/attachment_compatibility.spec.ts:32-70 | count 1 yields 1 pattern and count 2 yields 3; counts 3..4 yield 1 + count + count(count-1)/2, and larger counts yield 1 + count |
| `AttachmentCompatibility.PatternsForCountLayout` | src/webgpu/api/validation/render_pass/attachment_compatibility.spec.ts:43-70 | for count ≥ 3 the first pattern is all-true, position 1+i is false exactly at slot i, and the two-null patterns follow only when count ≤ 4 |
| `AttachmentCompatibility.SpecialCountsDropOnlyAllNull` | src/webgpu/api/validation/render_pass/attachment_compatibility.spec.ts:31-41 | the hand-written lists for counts 1 and 2 are the general construction without its all-null pattern (a pass needs at least one colour attachment) |
| `AttachmentCompatibility.TwoNullRowsShape` | src/webgpu/api/validation/render_pass/attachment_compatibility.spec.ts:57-69 | the two-null list holds exactly the patterns false at i and j, for 0 ≤ i < rows and i < j < count |
| `AttachmentCompatibility.TwoNullRowsDistinct` | src/webgpu/api/validation/render_pass/attachment_compatibility.spec.ts:59-67 | the two-null patterns are pairwise distinct |
| `AttachmentCompatibility.TwoNullRowsLength` | src/webgpu/api/validation/render_pass/attachment_compatibility.spec.ts:59-67 | the first `rows` rows of two-null patterns hold rows(2·count − rows − 1)/2 patterns |
| `AttachmentCompatibility.AllPatternsSelect` | src/webgpu/api/validation/render_pass/attachment_compatibility.spec.ts:20-74 | selecting the patterns of length c from the flattened list gives back exactly the list for count c, in order |
| `AttachmentCompatibility.AllPatternsLengths` | src/webgpu/api/validation/render_pass/attachment_compatibility.spec.ts:20-74 | every flattened pattern has between 1 and kMaxColorAttachments slots |
| `AttachmentCompatibility.SparseCaseFilterSelectsCount` | src/webgpu/api/validation/render_pass/attachment_compatibility.spec.ts:231-239 | the sparse filter keeps exactly the pairs of patterns generated for attachmentCount |
| `AttachmentCompatibility.EverySlotMatches` | src/webgpu/api/validation/render_pass/attachment_compatibility.spec.ts:259 | `every((v, i) => v === b[i])` holds iff the first pattern is a prefix of the second |
| `AttachmentCompatibility.SparseExpectationIsEquality` | src/webgpu/api/validation/render_pass/attachment_compatibility.spec.ts:409-412 | on the pairs the filter keeps, the expected outcome is equality of the two patterns |
| `AttachmentCompatibility.FilteredCaseWritesOnlyPresentAspects` | src/webgpu/api/validation/render_pass/attachment_compatibility.spec.ts:478-504 | after the read-only filter, a combined format has equal read-only flags, and a format never writes an aspect it lacks |
| `AttachmentCompatibility.NoFormatAlwaysCompatible` | src/webgpu/api/validation/render_pass/attachment_compatibility.spec.ts:478-504 | with no depth-stencil format the filter accepts everything and every case is valid |
| `AttachmentCompatibility.ExpectedReadOnlyValidity` | src/webgpu/api/validation/render_pass/attachment_compatibility.spec.ts:547-577 | writesDepth iff a format and depthWriteEnabled; writesStencil iff a format, a non-zero write mask and a non-keep face that is not culled; valid iff ¬(writesDepth ∧ depthReadOnly) ∧ ¬(writesStencil ∧ stencilReadOnly) |
| `AttachmentCompatibility.WritableAttachmentAlwaysCompatible` | src/webgpu/api/validation/render_pass/attachment_compatibility.spec.ts:571-577 | a pass or bundle with neither aspect read-only accepts every pipeline |
| `AttachmentCompatibility.ZeroMaskIgnoresStencilReadOnly` | src/webgpu/api/validation/render_pass/attachment_compatibility.spec.ts:551-568 | with stencilWriteMask 0, only depth read-only state decides |
| `AttachmentCompatibility.CreateDepthAttachment` | src/webgpu/api/validation/render_pass/attachment_compatibility.spec.ts:114-132 | depth clear/load/store are set (0, 'clear', 'discard') iff the format has depth; stencil ones (1, 'clear', 'discard') iff it has stencil; the result obeys the depth-stencil attachment rule |
| `RenderPassDescriptor.CreateTexture` | src/webgpu/api/validation/render_pass/render_pass_descriptor.spec.ts:18-46 | each given option is used as given; each omitted option takes the default; the layer count becomes depthOrArrayLayers |
| `RenderPassDescriptor.CreateTextureDefaults` | src/webgpu/api/validation/render_pass/render_pass_descriptor.spec.ts:29-37 | with no options: rgba8unorm, 16×16, 1 layer, 1 level, 1 sample, RENDER_ATTACHMENT |
| `RenderPassDescriptor.DefaultTextureIsAttachable` | src/webgpu/api/validation/render_pass/render_pass_descriptor.spec.ts:29-37 | the default texture's whole view is a valid attachment view and its usage makes it a valid resolve target |
| `RenderPassDescriptor.GetColorAttachment` | src/webgpu/api/validation/render_pass/render_pass_descriptor.spec.ts:48-60 | a colour attachment on `createView(textureViewDescriptor)`, the whole texture when the descriptor is omitted, with no resolve target, cleared to (1, 0, 0, 1) and stored |
| `RenderPassDescriptor.GetDepthStencilAttachment` | src/webgpu/api/validation/render_pass/render_pass_descriptor.spec.ts:62-77 | a depth-stencil attachment on `createView(textureViewDescriptor)`, the whole texture when the descriptor is omitted, with depth cleared to 1.0 and stencil cleared to 0, both with 'clear' and 'store' |
| `RenderPassDescriptor.GetDepthStencilAttachmentValid` | src/webgpu/api/validation/render_pass/render_pass_descriptor.spec.ts:62-77 | for a combined depth-stencil format the fixture's attachment obeys the depth-stencil attachment rule |
| `RenderPassDescriptor.OneColorAttachmentValid` | src/webgpu/api/validation/render_pass/render_pass_descriptor.spec.ts:92-101 | a pass whose only attachment is the fixture's colour attachment has an attachment, and the attachment obeys the colour-attachment rule, as the expected `true` says |
| `RenderPassDescriptor.OneDepthStencilAttachmentValid` | src/webgpu/api/validation/render_pass/render_pass_descriptor.spec.ts:103-113 | a pass with only the fixture's depth-stencil attachment on a combined format has an attachment, a single-subresource view, and obeys the depth-stencil attachment rule, as the expected `true` says |
| `RenderPassDescriptor.PrepareColorAttachments` | src/webgpu/api/validation/render_pass/render_pass_descriptor.spec.ts:136-145 | defined entries are replaced by default colour attachments, undefined slots and the length are unchanged, and success holds iff some entry was defined or a depth-stencil attachment is present |
| `RenderPassDescriptor.EmptyColorAttachmentsParams` | src/webgpu/api/validation/render_pass/render_pass_descriptor.spec.ts:124-131 | of the five colorAttachments values only the one defined entry has an attachment without depth-stencil; with depth-stencil all do |
| `RenderPassDescriptor.OutOfBoundsCases` | src/webgpu/api/validation/render_pass/render_pass_descriptor.spec.ts:161-164 | 8 colour attachments are valid and 9 invalid, as the count limit says |
| `RenderPassDescriptor.BuildColorAttachments` | src/webgpu/api/validation/render_pass/render_pass_descriptor.spec.ts:168-172 | the loop builds exactly `count` default colour attachments |
| `RenderPassDescriptor.LayerCountCases` | src/webgpu/api/validation/render_pass/render_pass_descriptor.spec.ts:272-319 | 5 layers fail; one layer at base 0 or at the last layer (9) succeeds; each `_success` equals the colour-attachment rule on `getColorAttachment(colorTexture, textureViewDescriptor)` over the ten-layer texture |
| `RenderPassDescriptor.LayerCountDepthStencilCases` | src/webgpu/api/validation/render_pass/render_pass_descriptor.spec.ts:321-336 | for a combined format, each `_success` equals the view rule and the depth-stencil attachment rule on `getDepthStencilAttachment(depthStencilTexture, textureViewDescriptor)` |
| `RenderPassDescriptor.MipLevelCountCases` | src/webgpu/api/validation/render_pass/render_pass_descriptor.spec.ts:349-396 | 2 levels fail; one level at base 0 or at the last level (3) succeeds; each `_success` equals the colour-attachment rule on the four-level texture's view |
| `RenderPassDescriptor.MipLevelCountDepthStencilCases` | src/webgpu/api/validation/render_pass/render_pass_descriptor.spec.ts:398-413 | for a combined format, each `_success` equals the view rule and the depth-stencil attachment rule on the depth-stencil view |
| `RenderPassDescriptor.MultiSubresourceViewInvalid` | src/webgpu/api/validation/render_pass/render_pass_descriptor.spec.ts:263-270 | a view of more than one layer or level is never a valid attachment view |
| `RenderPassDescriptor.DepthStencilAttachmentCase` | src/webgpu/api/validation/render_pass/render_pass_descriptor.spec.ts:762-793 | valid iff (combined ⇒ depthReadOnly = stencilReadOnly) ∧ (depth ops set ⇔ depth ∧ ¬depthReadOnly) ∧ (stencil ops set ⇔ stencil ∧ ¬stencilReadOnly), which is the depth-stencil attachment rule on the attachment built |
| `RenderPassDescriptor.DepthClearValueExpected` | src/webgpu/api/validation/render_pass/render_pass_descriptor.spec.ts:839 | with 'load' or no op every value is accepted; with 'clear' a value is accepted iff 0 ≤ v ≤ 1, endpoints included |
| `RenderPassDescriptor.DepthClearValueCase` | src/webgpu/api/validation/render_pass/render_pass_descriptor.spec.ts:821-841 | the expected outcome equals the depth-stencil attachment rule on the attachment built, with a stencil-only format when the depth op is absent |
| `RenderPassDescriptor.ResolveTargetUsageExpected` | src/webgpu/api/validation/render_pass/render_pass_descriptor.spec.ts:552-563 | the expression holds iff the usage has the RENDER_ATTACHMENT bit, which is exactly when the attachment the test builds (a 4-sample texture resolved into a whole view of a texture of that usage) obeys the colour-attachment and resolve-target rules |
| `RenderPassDescriptor.ResolveTargetCases` | src/webgpu/api/validation/render_pass/render_pass_descriptor.spec.ts:417-667 | each fixed expectation equals the colour-attachment rule on the attachment the test builds. Failing cases: a single-sample attachment, a 4-sample target, 2 layers, 2 levels, a base layer past the end, a different format, a different size at the viewed level. Passing cases: a single-sample target, and level 1 of a 32×32 target for a 16×16 attachment |
| `RenderPassDescriptor.ResolveTargetUsages` | src/webgpu/api/validation/render_pass/render_pass_descriptor.spec.ts:543-548 | of the four usages only RENDER_ATTACHMENT \| TEXTURE_BINDING is valid |
| `RenderPassDescriptor.ResolveTargetUsageIgnoresOtherBits` | src/webgpu/api/validation/render_pass/render_pass_descriptor.spec.ts:562 | bits other than RENDER_ATTACHMENT do not change the outcome, and the expression agrees with the resolve-target rule |
| `RenderPassDescriptor.QuerySetTypeExpected` | src/webgpu/api/validation/render_pass/render_pass_descriptor.spec.ts:899 | both sets of type 'timestamp' iff the timestamp-writes rule holds for the two writes built |
| `RenderPassDescriptor.TimestampLocationExpected` | src/webgpu/api/validation/render_pass/render_pass_descriptor.spec.ts:940 | different locations iff the timestamp-writes rule holds, with a query set of count 2 |
| `RenderPassDescriptor.LocationCaseAsWrittenNeverValid` | src/webgpu/api/validation/render_pass/render_pass_descriptor.spec.ts:923-940 | with the query set of count 1 as written, no location pair satisfies the rule, yet ('beginning', 'end') is expected to succeed |
| `RenderPassDescriptor.QueryIndexExpected` | src/webgpu/api/validation/render_pass/render_pass_descriptor.spec.ts:968 | queryIndex < querySet count (2) iff the timestamp-writes rule holds |
| `RenderPassDescriptor.SameQueryIndexExpected` | src/webgpu/api/validation/render_pass/render_pass_descriptor.spec.ts:1013 | for indices 0 and 1 in one set, different indices iff the timestamp-writes rule holds |
| `RenderPassDescriptor.OcclusionQuerySetExpected` | src/webgpu/api/validation/render_pass/render_pass_descriptor.spec.ts:1046 | type 'occlusion' iff the occlusion query-set rule holds |
| `WriteTexture.TextureStateExpected` | src/webgpu/api/validation/queue/writeTexture.spec.ts:24 | valid iff the state is 'valid'; 'invalid' and 'destroyed' fail; this is the writeTexture rule on the fixture's texture |
| `WriteTexture.UsageExpected` | src/webgpu/api/validation/queue/writeTexture.spec.ts:54 | valid iff the usage holds the COPY_DST bit, which is the writeTexture rule |
| `WriteTexture.TestedUsages` | src/webgpu/api/validation/queue/writeTexture.spec.ts:38-43 | of the four usages exactly the first (COPY_DST) and fourth (STORAGE_BINDING \| COPY_DST) are valid |
| `WriteTexture.UsageIgnoresOtherBits` | src/webgpu/api/validation/queue/writeTexture.spec.ts:54 | bits other than COPY_DST never change the outcome; adding COPY_DST always makes it valid |
| `WriteTexture.SampleCountExpected` | src/webgpu/api/validation/queue/writeTexture.spec.ts:80 | valid iff sampleCount = 1, as the writeTexture rule says; sample count 4 fails |

## Left out

- Device interaction is not modelled. This covers `createTexture`,
  `beginRenderPass`, `executeBundles`, `setPipeline`, `tryRenderPass`,
  `expectValidationError`, `createEncoder`, `validateFinishAndSubmit` and
  `selectDevice…OrSkipTestCase`. These are calls into a GPU implementation, so only the
  expected outcomes and the descriptors passed to them are modelled. The texture and view
  descriptors they produce are modelled by `CreateTexture` and `CreateView`.
- The parameter builder (`combine`, `filter`, `expand`, `beginSubcases`,
  `paramsSubcasesOnly`) is in `common/framework`, which is not part of this model. Only the
  filter predicates and the generated lists are modelled, not the cross products the
  builder forms.
- The format and limit tables are not part of this model. They live in
  `capability_info.js`, `constants.js` and `gpu_test.js`, and cover `kTextureFormatInfo`,
  the format lists, `kMaxColorAttachments`, `kTextureSampleCounts`, `kQueryTypes` and
  `kResourceStates`. The model treats them as follows:
  - A format is represented by its table entry (`FormatInfo`).
  - kMaxColorAttachments is a parameter.
  - The query types are 'occlusion' and 'timestamp'.
  - The usage bits take their WebGPU values. `STORAGE` is the alias of STORAGE_BINDING.
- Some expected outcomes are a plain `===` between two parameters, and are not modelled
  as separate members. They appear at `attachment_compatibility.spec.ts` lines 192, 219,
  299, 322, 346, 373, 450 and 613.
- Some tests with a fixed expectation depend on rules between attachments, or on the
  format table. These rules are not modelled, so these tests are not modelled either:
  - `same_size`;
  - `color_depth_mismatch`;
  - `color_attachments,sample_count`;
  - `depth_stencil_attachment,sample_counts_mismatch`.
- `resolveTarget,format_supports_resolve` is not modelled. Its outcome is the format
  table's `resolve` flag, and the format table is not part of this model. The same holds
  for the colour-attachment format filter `kColorAttachmentFormats`.
- `createAttachmentTextureView`, `createColorAttachment` and `createRenderPipeline` in
  attachment_compatibility are not modelled, because they only wrap device calls.
  `CreateDepthAttachment` takes its view as a parameter.
- `CreateView` models only the subresource range of a view descriptor: the base, and a
  count that defaults to the rest of the texture. Its `dimension` and `format` members are
  not modelled. A base past the end yields an empty range here, where a device reports an
  error. Both are rejected as attachments.
- `ColorAttachmentValid` and `ResolveTargetValid` leave out the format capabilities
  (colour-renderable, resolvable), which come from the format table.
- Depth clear values are `real`. The test's values (−1, 0, 0.5, 1, 1.5) are exact in
  binary floating point.
- `DepthClearValueValid` checks a depth clear value only when one is given.
  `depth_stencil_attachment` sets depthLoadOp 'clear' without a clear value and expects
  success. The default clear value is not modelled.
- Counts 1 and 2 write their patterns with the numbers 1 and 0, while other counts use
  booleans. The model uses booleans throughout. The sparse filter only pairs patterns of
  the same count, so a number is never compared with a boolean, and the outcome does not
  change.
- The shader built-in test files are not modelled, and neither is the interval and
  range-generation engine they import. The same holds for `validation_test.ts`,
  `shader_validation_test.ts`, `video.spec.ts` and `url_query.spec.ts`. They are device,
  DOM or framework code outside these validation rules.

## Findings

| source | as written | input that shows it | evidently intended | confidence | as-written member | corrected member |
|---|---|---|---|---|---|---|
| src/webgpu/api/validation/render_pass/render_pass_descriptor.spec.ts:923-940 | the query set is created with `count: 1`, the second write uses `queryIndex: 1`, and the test expects success iff the locations differ | locationA = 'beginning', locationB = 'end': expected valid, but queryIndex 1 is not below count 1, which `timestampWrite,query_index` (line 968) treats as invalid | a query set of count 2, so that only the location rule decides | medium, not executed | `RenderPassDescriptor.LocationCaseAsWrittenNeverValid` | `RenderPassDescriptor.TimestampLocationExpected` |
