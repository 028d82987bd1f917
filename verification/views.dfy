/** View descriptions shared by the D3D11 and Vulkan descriptor factories, and the
    resolution of the REMAINING sentinel against the viewed texture. */
module Views {
  import opened Common

  /** A Dim_t value: a 16-bit unsigned count or offset. */
  type Dim = x: nat | x < DIM_LIMIT

  /** Which aspects of a depth/stencil attachment view are read-only. The four values
      stand for DEPTH_STENCIL_ATTACHMENT, DEPTH_READONLY_STENCIL_ATTACHMENT,
      DEPTH_ATTACHMENT_STENCIL_READONLY and DEPTH_STENCIL_READONLY. */
  datatype DepthStencilAccess = DepthStencilWritable | DepthReadOnly | StencilReadOnly | DepthStencilReadOnly

  /** The kinds of view of a 1D texture; `Unknown1D` stands for any value outside the enumeration. */
  datatype Texture1DViewType =
    | ShaderResource1D
    | ShaderResource1DArray
    | ShaderResourceStorage1D
    | ShaderResourceStorage1DArray
    | ColorAttachment1D
    | DepthStencilAttachment1D(access: DepthStencilAccess)
    | Unknown1D

  datatype Texture2DViewType =
    | ShaderResource2D
    | ShaderResource2DArray
    | ShaderResourceCube
    | ShaderResourceCubeArray
    | ShaderResourceStorage2D
    | ShaderResourceStorage2DArray
    | ColorAttachment2D
    | DepthStencilAttachment2D(access: DepthStencilAccess)
    | ShadingRateAttachment2D
    | Unknown2D

  datatype Texture3DViewType =
    | ShaderResource3D
    | ShaderResourceStorage3D
    | ColorAttachment3D
    | Unknown3D

  datatype BufferViewType = ConstantBufferView | ShaderResourceBufferView | StorageBufferView | UnknownBufferView

  /** The subresources a view asks for: mips, and layers (slices for a 3D view); a count
      of REMAINING means "up to the end of the texture". */
  datatype ViewRange = ViewRange(mipOffset: Dim, mipNum: Dim, layerOffset: Dim, layerNum: Dim)

  /** A texture view description: the view kind, the NRI format it reinterprets the
      texture as, and the requested subresources. */
  datatype TextureViewDesc<V> = TextureViewDesc(viewType: V, format: nat, range: ViewRange)

  /** The NRI formats buffer views single out; `OtherFormat` is any other member of the enumeration. */
  datatype Format = UnknownFormat | R32Uint | Rgba32Sfloat | OtherFormat(code: nat)

  datatype BufferViewDesc = BufferViewDesc(viewType: BufferViewType, format: Format, offset: nat, size: nat, structureStride: nat)

  /** Resolves a requested count: an explicit count is kept, REMAINING becomes the number
      of elements from `offset` to `total`, computed in Dim_t and so wrapping when the
      offset lies past the end. */
  function ResolveCount(requested: Dim, total: nat, offset: Dim): (r: Dim)
    ensures requested != REMAINING ==> r == requested
    ensures requested == REMAINING && offset <= total < DIM_LIMIT ==> offset + r == total
    ensures requested == REMAINING && total < offset ==> r == DIM_LIMIT + total - offset
  {
    if requested == REMAINING then DimSub(total, offset) else requested
  }

  /** Resolving an already resolved count changes nothing. */
  lemma ResolveCountIsIdempotent(requested: Dim, total: nat, offset: Dim)
    ensures ResolveCount(ResolveCount(requested, total, offset), total, offset) == ResolveCount(requested, total, offset)
  {
  }

  /** The byte count of a buffer view: the whole buffer for WHOLE_SIZE, otherwise as asked. */
  function ResolveSize(requested: nat, bufferSize: nat): (r: nat)
    ensures requested != WHOLE_SIZE ==> r == requested
    ensures requested == WHOLE_SIZE ==> r == bufferSize
  {
    if requested == WHOLE_SIZE then bufferSize else requested
  }
}
