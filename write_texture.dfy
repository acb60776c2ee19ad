/**
 * GPUQueue.writeTexture validation: the expected outcome of the texture-state, usage and
 * sample-count tests, each tied to writeTexture's rule on its destination texture applied
 * to the texture the test creates.
 */
module WriteTexture {
  import opened Gpu

  /** The usage of the texture the fixture creates for a given state: every usage bit. */
  const AllUsages: TextureUsageFlags :=
    CopySrc | CopyDst | TextureBinding | StorageBinding | RenderAttachment

  /** texture_state: the destination is valid only in the 'valid' state. */
  function TextureStateExpected(textureState: ResourceState): (isValid: bool)
    ensures isValid <==> WriteTextureValid(WriteDestination(textureState, AllUsages, 1))
    ensures textureState == Invalid || textureState == Destroyed ==> !isValid
  {
    textureState == Valid
  }

  /** usages: `usage & COPY_DST ? true : false`, on a valid single-sampled texture. */
  function UsageExpected(usage: TextureUsageFlags): (isValid: bool)
    ensures isValid <==> WriteTextureValid(WriteDestination(Valid, usage, 1))
    ensures isValid <==> usage & CopyDst == CopyDst
  {
    usage & CopyDst != 0
  }

  /** The four usages the test tries; the first and the fourth carry COPY_DST. */
  function TestedUsages(): (usages: seq<TextureUsageFlags>)
    ensures |usages| == 4
    ensures forall i :: 0 <= i < 4 ==> (UsageExpected(usages[i]) <==> i == 0 || i == 3)
  {
    [CopyDst, StorageBinding, StorageBinding | CopySrc, StorageBinding | CopyDst]
  }

  /** Whatever other bits are set, only the COPY_DST bit decides. */
  lemma UsageIgnoresOtherBits(usage: TextureUsageFlags, other: TextureUsageFlags)
    requires other & CopyDst == 0
    ensures UsageExpected(usage | other) <==> UsageExpected(usage)
    ensures UsageExpected(usage | CopyDst)
  {
  }

  /** sample_count: a valid COPY_DST | RENDER_ATTACHMENT texture with the given sample count. */
  function SampleCountExpected(sampleCount: nat): (isValid: bool)
    ensures isValid <==> WriteTextureValid(WriteDestination(Valid, CopyDst | RenderAttachment, sampleCount))
    ensures sampleCount == 4 ==> !isValid
  {
    sampleCount == 1
  }
}
