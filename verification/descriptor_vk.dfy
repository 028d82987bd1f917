/** The Vulkan descriptor factory: image views with their view type and subresource range,
    buffer views, acceleration-structure descriptors, and what destroying each releases. */
module VkDescriptor {
  import opened Common
  import opened Views
  import D3d11Descriptor

  datatype ImageViewType = View1D | View1DArray | View2D | View2DArray | ViewCube | ViewCubeArray | View3D

  /** The image view type of a 1D view. Attachments follow the resolved layer count, so that
      layered rendering sees an array. */
  function ImageViewType1D(t: Texture1DViewType, layerNum: nat): (r: ImageViewType)
    ensures r == View1D || r == View1DArray
    ensures t in {ShaderResource1D, ShaderResourceStorage1D} ==> r == View1D
    ensures t in {ShaderResource1DArray, ShaderResourceStorage1DArray} ==> r == View1DArray
    ensures t !in {ShaderResource1D, ShaderResourceStorage1D, ShaderResource1DArray, ShaderResourceStorage1DArray} ==>
      (r == View1DArray <==> layerNum > 1)
  {
    match t
    case ShaderResource1D => View1D
    case ShaderResourceStorage1D => View1D
    case ShaderResource1DArray => View1DArray
    case ShaderResourceStorage1DArray => View1DArray
    case _ => if layerNum > 1 then View1DArray else View1D
  }

  /** The image view type of a 2D view: as for 1D, with cubes and cube arrays kept. */
  function ImageViewType2D(t: Texture2DViewType, layerNum: nat): (r: ImageViewType)
    ensures r in {View2D, View2DArray, ViewCube, ViewCubeArray}
    ensures t in {ShaderResource2D, ShaderResourceStorage2D} ==> r == View2D
    ensures t in {ShaderResource2DArray, ShaderResourceStorage2DArray} ==> r == View2DArray
    ensures r == ViewCube <==> t == ShaderResourceCube
    ensures r == ViewCubeArray <==> t == ShaderResourceCubeArray
    ensures t !in {ShaderResource2D, ShaderResourceStorage2D, ShaderResource2DArray, ShaderResourceStorage2DArray,
                   ShaderResourceCube, ShaderResourceCubeArray} ==>
      (r == View2DArray <==> layerNum > 1) && (r == View2D <==> layerNum <= 1)
  {
    match t
    case ShaderResource2D => View2D
    case ShaderResourceStorage2D => View2D
    case ShaderResource2DArray => View2DArray
    case ShaderResourceStorage2DArray => View2DArray
    case ShaderResourceCube => ViewCube
    case ShaderResourceCubeArray => ViewCubeArray
    case _ => if layerNum > 1 then View2DArray else View2D
  }

  /** Slices of a 3D view, chained to the create info only when sliced views are supported. */
  datatype SliceRange = SliceRange(sliceOffset: Dim, sliceCount: Dim)

  /** What is passed to vkCreateImageView (the aspect mask, format and usage come from
      format tables and are not part of this model). */
  datatype ImageViewCreateInfo = ImageViewCreateInfo(
    image: Token,
    viewType: ImageViewType,
    mipOffset: Dim,
    mipCount: Dim,
    layerOffset: Dim,
    layerCount: Dim,
    slices: Option<SliceRange>)

  /** The subresources a view records for later barriers and bindings. */
  datatype TextureViewInfo = TextureViewInfo(
    image: Token,
    layerOffset: Dim,
    layerNum: Dim,
    sliceOffset: Dim,
    sliceNum: Dim,
    mipOffset: Dim,
    mipNum: Dim)

  /** What a buffer view records: its window into the buffer and its kind. */
  datatype BufferViewInfo = BufferViewInfo(buffer: Token, offset: nat, size: nat, viewType: BufferViewType)

  /** A descriptor, tagged by what it holds (DescriptorTypeVK). A buffer view made without
      a format has no native view object, which handle 0 stands for. */
  datatype Descriptor =
    | NoDescriptor
    | ImageView(view: Token, createInfo: ImageViewCreateInfo, texture: TextureViewInfo)
    | BufferView(bufferView: nat, bufferInfo: BufferViewInfo)
    | Sampler(sampler: Token)
    | AccelerationStructure(structure: Token)

  /** A generic (1D or 2D) view over `image`: counts resolved, and the view records exactly
      the range it was created over. */
  function TextureView(image: Token, s: ViewRange, viewType: ImageViewType, call: Outcome<Token>): (r: Outcome<Descriptor>)
    ensures call.Err? ==> r == Err(call.code)
    ensures call.Ok? ==> r.Ok? && r.value.ImageView? && r.value.view == call.value
    ensures r.Ok? ==>
      && r.value.createInfo == ImageViewCreateInfo(image, viewType, s.mipOffset, s.mipNum, s.layerOffset, s.layerNum, None)
      && r.value.texture == TextureViewInfo(image, s.layerOffset, s.layerNum, 0, 1, s.mipOffset, s.mipNum)
  {
    match call
    case Err(e) => Err(e)
    case Ok(h) =>
      Ok(ImageView(h, ImageViewCreateInfo(image, viewType, s.mipOffset, s.mipNum, s.layerOffset, s.layerNum, None),
                   TextureViewInfo(image, s.layerOffset, s.layerNum, 0, 1, s.mipOffset, s.mipNum)))
  }

  /** The mip and layer range a 1D or 2D view is created over. */
  function ResolvedRange(range: ViewRange, texture: TextureDesc): (r: ViewRange)
    ensures r.mipOffset == range.mipOffset && r.layerOffset == range.layerOffset
    ensures range.mipNum != REMAINING ==> r.mipNum == range.mipNum
    ensures range.layerNum != REMAINING ==> r.layerNum == range.layerNum
    ensures range.mipNum == REMAINING && range.mipOffset <= texture.mipNum < DIM_LIMIT ==> r.mipOffset + r.mipNum == texture.mipNum
    ensures range.layerNum == REMAINING && range.layerOffset <= texture.layerNum < DIM_LIMIT ==> r.layerOffset + r.layerNum == texture.layerNum
  {
    ViewRange(range.mipOffset, ResolveCount(range.mipNum, texture.mipNum, range.mipOffset),
              range.layerOffset, ResolveCount(range.layerNum, texture.layerNum, range.layerOffset))
  }

  function CreateTextureView1D(v: TextureViewDesc<Texture1DViewType>, texture: TextureDesc, image: Token, call: Outcome<Token>): (r: Outcome<Descriptor>)
    ensures call.Err? ==> r == Err(call.code)
    ensures call.Ok? ==>
      var s := ResolvedRange(v.range, texture);
      && r.Ok? && r.value.ImageView? && r.value.view == call.value
      && r.value.createInfo == ImageViewCreateInfo(image, ImageViewType1D(v.viewType, s.layerNum), s.mipOffset, s.mipNum, s.layerOffset, s.layerNum, None)
      && r.value.texture == TextureViewInfo(image, s.layerOffset, s.layerNum, 0, 1, s.mipOffset, s.mipNum)
  {
    var s := ResolvedRange(v.range, texture);
    TextureView(image, s, ImageViewType1D(v.viewType, s.layerNum), call)
  }

  function CreateTextureView2D(v: TextureViewDesc<Texture2DViewType>, texture: TextureDesc, image: Token, call: Outcome<Token>): (r: Outcome<Descriptor>)
    ensures call.Err? ==> r == Err(call.code)
    ensures call.Ok? ==>
      var s := ResolvedRange(v.range, texture);
      && r.Ok? && r.value.ImageView? && r.value.view == call.value
      && r.value.createInfo == ImageViewCreateInfo(image, ImageViewType2D(v.viewType, s.layerNum), s.mipOffset, s.mipNum, s.layerOffset, s.layerNum, None)
      && r.value.texture == TextureViewInfo(image, s.layerOffset, s.layerNum, 0, 1, s.mipOffset, s.mipNum)
  {
    var s := ResolvedRange(v.range, texture);
    TextureView(image, s, ImageViewType2D(v.viewType, s.layerNum), call)
  }

  /** A 3D view: one layer, mips resolved, and a slice window whose REMAINING count is
      resolved against the texture's layer count. The slice window is recorded whether or
      not the device supports sliced views; it reaches the create info only when it does. */
  function CreateTextureView3D(v: TextureViewDesc<Texture3DViewType>, texture: TextureDesc, image: Token,
                               slicedViews: bool, call: Outcome<Token>): (r: Outcome<Descriptor>)
    ensures call.Err? ==> r == Err(call.code)
    ensures call.Ok? ==> r.Ok? && r.value.ImageView? && r.value.view == call.value
    ensures r.Ok? ==>
      var info := r.value.createInfo;
      var t := r.value.texture;
      && info.viewType == View3D && info.layerOffset == 0 && info.layerCount == 1
      && t.layerOffset == 0 && t.layerNum == 1
      && info.mipOffset == t.mipOffset == v.range.mipOffset
      && info.mipCount == t.mipNum == ResolveCount(v.range.mipNum, texture.mipNum, v.range.mipOffset)
      && t.sliceOffset == v.range.layerOffset
      && t.sliceNum == ResolveCount(v.range.layerNum, texture.layerNum, v.range.layerOffset)
      && (info.slices.Some? <==> slicedViews)
      && (slicedViews ==> info.slices.value == SliceRange(t.sliceOffset, t.sliceNum))
  {
    var mips := ResolveCount(v.range.mipNum, texture.mipNum, v.range.mipOffset);
    var slices := SliceRange(v.range.layerOffset, ResolveCount(v.range.layerNum, texture.layerNum, v.range.layerOffset));
    match call
    case Err(e) => Err(e)
    case Ok(h) =>
      Ok(ImageView(h, ImageViewCreateInfo(image, View3D, v.range.mipOffset, mips, 0, 1, if slicedViews then Some(slices) else None),
                   TextureViewInfo(image, 0, 1, slices.sliceOffset, slices.sliceCount, v.range.mipOffset, mips)))
  }

  /** A buffer view: the window is the whole buffer for WHOLE_SIZE; without a format no
      native view is made and creation cannot fail. */
  function CreateBufferView(v: BufferViewDesc, bufferHandle: Token, bufferDesc: BufferDesc, call: Outcome<Token>): (r: Outcome<Descriptor>)
    ensures v.format.UnknownFormat? ==> r.Ok? && r.value.BufferView? && r.value.bufferView == 0
    ensures !v.format.UnknownFormat? && call.Err? ==> r == Err(call.code)
    ensures !v.format.UnknownFormat? && call.Ok? ==> r.Ok? && r.value.BufferView? && r.value.bufferView == call.value
    ensures r.Ok? ==>
      && r.value.BufferView?
      && r.value.bufferInfo.buffer == bufferHandle
      && r.value.bufferInfo.offset == v.offset
      && r.value.bufferInfo.viewType == v.viewType
      && (v.size == WHOLE_SIZE ==> r.value.bufferInfo.size == bufferDesc.size)
      && (v.size != WHOLE_SIZE ==> r.value.bufferInfo.size == v.size)
  {
    var info := BufferViewInfo(bufferHandle, v.offset, ResolveSize(v.size, bufferDesc.size), v.viewType);
    if v.format.UnknownFormat? then Ok(BufferView(0, info))
    else
      match call
      case Err(e) => Err(e)
      case Ok(h) => Ok(BufferView(h, info))
  }

  /** An acceleration-structure descriptor only records the structure. */
  function CreateAccelerationStructure(structure: Token): (r: Descriptor)
    ensures r.AccelerationStructure? && r.structure == structure
  {
    AccelerationStructure(structure)
  }

  /** The native object destroying a descriptor releases. */
  datatype Released = ReleaseImageView(view: Token) | ReleaseBufferView(bufferView: Token) | ReleaseSampler(sampler: Token)

  function Destroy(d: Descriptor): (r: Option<Released>)
    ensures d.NoDescriptor? || d.AccelerationStructure? ==> r.None?
    ensures d.ImageView? ==> r == Some(ReleaseImageView(d.view))
    ensures d.Sampler? ==> r == Some(ReleaseSampler(d.sampler))
    ensures d.BufferView? ==> (r.Some? <==> d.bufferView != 0) && (r.Some? ==> r.value == ReleaseBufferView(d.bufferView))
  {
    match d
    case NoDescriptor => None
    case AccelerationStructure(_) => None
    case ImageView(view, _, _) => Some(ReleaseImageView(view))
    case Sampler(sampler) => Some(ReleaseSampler(sampler))
    case BufferView(bufferView, _) => if bufferView != 0 then Some(ReleaseBufferView(bufferView)) else None
  }

  /** A descriptor releases exactly the native view it created: a buffer view without a
      format releases nothing, one with a format releases the view the driver returned. */
  lemma BufferViewReleasesWhatItCreated(v: BufferViewDesc, bufferHandle: Token, bufferDesc: BufferDesc, call: Outcome<Token>)
    requires CreateBufferView(v, bufferHandle, bufferDesc, call).Ok?
    ensures var released := Destroy(CreateBufferView(v, bufferHandle, bufferDesc, call).value);
      && (v.format.UnknownFormat? ==> released.None?)
      && (!v.format.UnknownFormat? ==> released == Some(ReleaseBufferView(call.value)))
  {
  }

  /** Acceleration-structure descriptors never destroy the structure they refer to. */
  lemma AccelerationStructureDescriptorReleasesNothing(structure: Token)
    ensures Destroy(CreateAccelerationStructure(structure)).None?
  {
  }

  /** Both backends give a 2D view the same mip and layer range. */
  lemma BackendsAgreeOnSubresources2D(v: TextureViewDesc<Texture2DViewType>, texture: TextureDesc, image: Token, view: Token,
                                      format: D3d11Descriptor.DxgiFormat)
    requires !v.viewType.Unknown2D?
    ensures var vk := CreateTextureView2D(v, texture, image, Ok(view)).value.texture;
            var dx := D3d11Descriptor.Create2D(v, texture, format, Success).value.subresources;
      && vk.mipOffset == dx.mipOffset && vk.mipNum == dx.mipNum
      && vk.layerOffset == dx.layerOffset && vk.layerNum == dx.layerNum
  {
  }
}
