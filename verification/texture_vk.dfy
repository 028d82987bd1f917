/** A Vulkan texture (image) and the ways it obtains memory. */
module VkTexture {
  import opened Common
  import VkMemory
  import VkBuffer

  datatype Texture = Texture(handle: nat, ownsNative: bool, pooled: Option<VkMemory.PooledAllocation>, desc: TextureDesc)

  /** Caller description of a native image to wrap; the format is already translated. */
  datatype WrapDesc = WrapDesc(image: nat, textureType: TextureType, format: nat,
                               width: nat, height: nat, depth: nat, mipNum: nat, layerNum: nat, sampleNum: nat)

  /** Wraps a caller image without taking ownership; the usage of a wrapped image is not
      known, so every usage is assumed. */
  function CreateWrapped(d: WrapDesc): (t: Texture)
    ensures !t.ownsNative && t.handle == d.image && t.pooled.None?
    ensures t.desc.usage == ALL_TEXTURE_USAGES
    ensures t.desc == TextureDesc(d.textureType, ALL_TEXTURE_USAGES, d.format, d.width, d.height, d.depth,
                                  d.mipNum, d.layerNum, d.sampleNum)
    ensures Destroy(t) == KeepNative
  {
    Texture(d.image, false, None,
            TextureDesc(d.textureType, ALL_TEXTURE_USAGES, d.format, d.width, d.height, d.depth, d.mipNum, d.layerNum, d.sampleNum))
  }

  /** The result of an allocation: the status, the texture, and the request made to the pooled allocator. */
  datatype Bound = Bound(status: Status, texture: Texture, request: VkBuffer.PoolRequest)

  /** Gives the texture memory of its own through the pooled allocator, with the same
      request a buffer makes: `md` is what the device reports the image needs, and a
      memory type that must be dedicated forces a dedicated block. `poolCall` is the
      allocator's answer and `bindCall` the status of binding the image to it. */
  function AllocateAndBindMemory(t: Texture, md: VkBuffer.MemoryDesc, committed: bool,
                                 poolCall: Outcome<VkMemory.PooledAllocation>, bindCall: Status): (r: Bound)
    requires t.handle != 0
    ensures r.request == VkBuffer.AllocationRequest(md, committed)
    ensures r.texture.handle == t.handle && r.texture.desc == t.desc && r.texture.ownsNative == t.ownsNative
    ensures poolCall.Err? ==> r.status == poolCall.code && r.texture == t
    ensures poolCall.Ok? ==> r.status == bindCall && r.texture.pooled == Some(poolCall.value)
  {
    var request := VkBuffer.AllocationRequest(md, committed);
    match poolCall
    case Err(e) => Bound(e, t, request)
    case Ok(a) => Bound(bindCall, t.(pooled := Some(a)), request)
  }

  /** Textures and buffers with the same memory description ask the pooled allocator for
      the same size, alignment, memory type and flags. */
  lemma TextureAsksLikeABuffer(t: Texture, b: VkBuffer.Buffer, md: VkBuffer.MemoryDesc, committed: bool,
                               poolCall: Outcome<VkMemory.PooledAllocation>, bindCall: Status,
                               coherent: bool, addressQuery: Option<nat>)
    requires t.handle != 0 && b.handle != 0
    ensures AllocateAndBindMemory(t, md, committed, poolCall, bindCall).request
            == VkBuffer.AllocateAndBindMemory(b, md, committed, poolCall, bindCall, coherent, addressQuery).request
  {
  }

  /** Binding of an image to a memory object: the memory block and the offset inside it. */
  datatype ImageBind = ImageBind(memory: nat, offset: nat)

  /** Places the texture at `offset` inside `mem`; the image binds at the memory's own
      offset plus `offset`, and the status is the native bind's. */
  function BindMemory(t: Texture, mem: VkMemory.Memory, offset: nat, bindCall: Status): (r: (Status, ImageBind))
    requires t.handle != 0 && t.ownsNative
    ensures r.0 == bindCall
    ensures r.1.memory == VkMemory.Handle(mem)
    ensures r.1.offset >= offset && r.1.offset - offset == VkMemory.Offset(mem)
  {
    (bindCall, ImageBind(VkMemory.Handle(mem), VkMemory.Offset(mem) + offset))
  }

  /** A texture and a buffer bound into the same memory at the same offset land at the same
      place, when the memory needs no dedicated block. */
  lemma TextureBindsWhereBufferBinds(t: Texture, b: VkBuffer.Buffer, mem: VkMemory.Memory, offset: nat, bindCall: Status,
                                     dedicatedSize: nat, dedicatedCall: Outcome<Token>, dedicatedMap: Outcome<Token>,
                                     coherent: bool, addressQuery: Option<nat>)
    requires t.handle != 0 && t.ownsNative && b.handle != 0 && b.ownsNative
    requires mem.memoryType.Typed? && !mem.memoryType.info.mustBeDedicated
    ensures var bound := VkBuffer.BindMemory(b, mem, offset, true, dedicatedSize, dedicatedCall, dedicatedMap, bindCall, coherent, addressQuery);
      && BindMemory(t, mem, offset, bindCall).1.memory == VkMemory.Handle(bound.memory)
      && bound.bindOffset == Some(BindMemory(t, mem, offset, bindCall).1.offset)
      && BindMemory(t, mem, offset, bindCall).0 == bound.status
  {
  }

  datatype Release = KeepNative | DestroyWithAllocation(handle: nat, allocation: VkMemory.PooledAllocation) | DestroyImage(handle: nat)

  function Destroy(t: Texture): Release {
    if !t.ownsNative then KeepNative
    else if t.pooled.Some? then DestroyWithAllocation(t.handle, t.pooled.value)
    else DestroyImage(t.handle)
  }

  /** An owned texture releases the pooled allocation it obtained, even if the bind that
      followed failed. */
  lemma PooledTextureReleasesAllocation(t: Texture, md: VkBuffer.MemoryDesc, committed: bool, a: VkMemory.PooledAllocation, bindCall: Status)
    requires t.handle != 0 && t.ownsNative
    ensures Destroy(AllocateAndBindMemory(t, md, committed, Ok(a), bindCall).texture) == DestroyWithAllocation(t.handle, a)
  {
  }
}
