/** The D3D11 descriptor factory: how a texture or buffer view description becomes the
    description of a native shader-resource, unordered-access, render-target or
    depth-stencil view, and which descriptor kind records it. */
module D3d11Descriptor {
  import opened Common
  import opened Views

  /** The DXGI formats the depth-to-shader conversion distinguishes; any other format is `OtherDxgi`. */
  datatype DxgiFormat =
    | D16Unorm
    | D24UnormS8Uint
    | D32Float
    | D32FloatS8X24Uint
    | R16Unorm
    | R24UnormX8Typeless
    | R32Float
    | R32FloatX8X24Typeless
    | OtherDxgi(code: nat)

  predicate IsDepthFormat(f: DxgiFormat) {
    f.D16Unorm? || f.D24UnormS8Uint? || f.D32Float? || f.D32FloatS8X24Uint?
  }

  /** The format a shader reads a depth format through: each depth format has a colour
      twin of the same layout, every other format is read as itself. */
  function ShaderFormatForDepth(f: DxgiFormat): (r: DxgiFormat)
    ensures !IsDepthFormat(r)
    ensures r == f <==> !IsDepthFormat(f)
  {
    match f
    case D16Unorm => R16Unorm
    case D24UnormS8Uint => R24UnormX8Typeless
    case D32Float => R32Float
    case D32FloatS8X24Uint => R32FloatX8X24Typeless
    case _ => f
  }

  /** Converting twice is converting once. */
  lemma ShaderFormatForDepthIsIdempotent(f: DxgiFormat)
    ensures ShaderFormatForDepth(ShaderFormatForDepth(f)) == ShaderFormatForDepth(f)
  {
  }

  /** Distinct depth formats stay distinct once converted. */
  lemma ShaderFormatForDepthSeparatesDepthFormats(f: DxgiFormat, g: DxgiFormat)
    requires IsDepthFormat(f) && IsDepthFormat(g) && f != g
    ensures ShaderFormatForDepth(f) != ShaderFormatForDepth(g)
  {
  }

  /** The descriptor kinds (DescriptorTypeDX11). */
  datatype DescriptorType = ResourceDescriptor | StorageDescriptor | NoShaderVisible | ConstantDescriptor | SamplerDescriptor

  /** Which native view a description is for. */
  datatype NativeKind = Srv | Uav | Rtv | Dsv | ShadingRateView

  datatype Dimension =
    | Dim1D | Dim1DArray
    | Dim2D | Dim2DMs | Dim2DArray | Dim2DMsArray
    | DimCube | DimCubeArray
    | Dim3D
    | DimShadingRate2D

  /** A native texture view description. `mipOffset` is MostDetailedMip for shader-resource
      views and MipSlice for the others; `mipNum` is MipLevels (0 where the dimension has
      none); `firstSlice`/`sliceNum` are FirstArraySlice/ArraySize, or FirstWSlice/WSize for
      3D; `cubeNum` is NumCubes. Unused fields are zero, as in the zero-initialised C struct. */
  datatype NativeViewDesc = NativeViewDesc(
    kind: NativeKind,
    dimension: Dimension,
    format: DxgiFormat,
    mipOffset: nat,
    mipNum: nat,
    firstSlice: nat,
    sliceNum: nat,
    cubeNum: nat,
    readOnlyDepth: bool,
    readOnlyStencil: bool)

  /** A created texture descriptor: its kind, the native description it was created from,
      and the subresources it records (resolved counts). */
  datatype Descriptor = Descriptor(descriptorType: DescriptorType, native: NativeViewDesc, subresources: ViewRange)

  /** The descriptor kind each native view is recorded as. */
  function KindType(k: NativeKind): DescriptorType {
    match k
    case Srv => ResourceDescriptor
    case Uav => StorageDescriptor
    case _ => NoShaderVisible
  }

  /** A descriptor is consistent when its kind follows its native view, only depth-stencil
      views carry read-only flags, only shader-resource views read depth formats through
      their colour twins, and only cube arrays count cubes. */
  predicate Consistent(d: Descriptor) {
    && d.descriptorType == KindType(d.native.kind)
    && (d.native.kind != Dsv ==> !d.native.readOnlyDepth && !d.native.readOnlyStencil)
    && (d.native.kind == Srv && d.native.dimension != Dim1D && d.native.dimension != Dim1DArray && d.native.dimension != Dim3D
        ==> !IsDepthFormat(d.native.format))
    && (d.native.dimension != DimCubeArray ==> d.native.cubeNum == 0)
  }

  const EMPTY_VIEW: NativeViewDesc := NativeViewDesc(Srv, Dim2D, OtherDxgi(0), 0, 0, 0, 0, 0, false, false)

  /** The depth-stencil-view flags of an access kind: (read-only depth, read-only stencil). */
  function ReadOnlyDepth(a: DepthStencilAccess): bool {
    a == DepthReadOnly || a == DepthStencilReadOnly
  }

  function ReadOnlyStencil(a: DepthStencilAccess): bool {
    a == StencilReadOnly || a == DepthStencilReadOnly
  }

  /** The access kind a pair of depth-stencil-view flags describes. */
  function AccessOf(readOnlyDepth: bool, readOnlyStencil: bool): (a: DepthStencilAccess)
    ensures ReadOnlyDepth(a) == readOnlyDepth && ReadOnlyStencil(a) == readOnlyStencil
  {
    if readOnlyDepth && readOnlyStencil then DepthStencilReadOnly
    else if readOnlyDepth then DepthReadOnly
    else if readOnlyStencil then StencilReadOnly
    else DepthStencilWritable
  }

  /** The flag mapping is one-to-one: the flags determine the access kind. */
  lemma AccessFlagsRoundTrip(a: DepthStencilAccess)
    ensures AccessOf(ReadOnlyDepth(a), ReadOnlyStencil(a)) == a
  {
  }

  /** Depth-stencil view flags for an access kind. */
  function WithAccess(v: NativeViewDesc, a: DepthStencilAccess): (r: NativeViewDesc)
    ensures AccessOf(r.readOnlyDepth, r.readOnlyStencil) == a
    ensures r.(readOnlyDepth := false, readOnlyStencil := false) == v.(readOnlyDepth := false, readOnlyStencil := false)
  {
    AccessFlagsRoundTrip(a);
    v.(readOnlyDepth := ReadOnlyDepth(a), readOnlyStencil := ReadOnlyStencil(a))
  }

  /** The subresources a 1D or 2D view records: offsets as given, counts resolved. */
  function Resolved(range: ViewRange, texture: TextureDesc): (r: ViewRange)
    ensures r.mipOffset == range.mipOffset && r.layerOffset == range.layerOffset
    ensures r.mipNum == ResolveCount(range.mipNum, texture.mipNum, range.mipOffset)
    ensures r.layerNum == ResolveCount(range.layerNum, texture.layerNum, range.layerOffset)
  {
    ViewRange(range.mipOffset, ResolveCount(range.mipNum, texture.mipNum, range.mipOffset),
              range.layerOffset, ResolveCount(range.layerNum, texture.layerNum, range.layerOffset))
  }

  /** Outcome of a view creation: an unrecognised view type is refused before any native
      call, a failed native call returns its error, otherwise the descriptor. */
  function Finish<T>(recognized: bool, call: Status, d: T): (r: Outcome<T>)
    ensures !recognized ==> r == Err(InvalidArgument)
    ensures recognized && call != Success ==> r == Err(call)
    ensures recognized && call == Success ==> r == Ok(d)
  {
    if !recognized then Err(InvalidArgument)
    else if call != Success then Err(call)
    else Ok(d)
  }

  /** The native description of a 1D view over resolved subresources `s`. */
  function NativeView1D(viewType: Texture1DViewType, s: ViewRange, format: DxgiFormat): (r: NativeViewDesc)
    requires !viewType.Unknown1D?
    ensures r.format == format && r.cubeNum == 0 && r.mipOffset == s.mipOffset
    ensures r.dimension == Dim1D <==> viewType in {ShaderResource1D, ShaderResourceStorage1D}
    ensures r.dimension != Dim1D ==> r.dimension == Dim1DArray && r.firstSlice == s.layerOffset && r.sliceNum == s.layerNum
    ensures r.kind == Srv <==> viewType in {ShaderResource1D, ShaderResource1DArray}
    ensures r.kind == Srv ==> r.mipNum == s.mipNum
    ensures r.kind == Uav <==> viewType in {ShaderResourceStorage1D, ShaderResourceStorage1DArray}
    ensures r.kind == Rtv <==> viewType == ColorAttachment1D
    ensures r.kind == Dsv <==> viewType.DepthStencilAttachment1D?
    ensures r.kind == Dsv ==> AccessOf(r.readOnlyDepth, r.readOnlyStencil) == viewType.access
    ensures r.kind != Dsv ==> !r.readOnlyDepth && !r.readOnlyStencil
  {
    var base := EMPTY_VIEW.(format := format, mipOffset := s.mipOffset);
    match viewType
    case ShaderResource1D => base.(kind := Srv, dimension := Dim1D, mipNum := s.mipNum)
    case ShaderResource1DArray =>
      base.(kind := Srv, dimension := Dim1DArray, mipNum := s.mipNum, firstSlice := s.layerOffset, sliceNum := s.layerNum)
    case ShaderResourceStorage1D => base.(kind := Uav, dimension := Dim1D)
    case ShaderResourceStorage1DArray => base.(kind := Uav, dimension := Dim1DArray, firstSlice := s.layerOffset, sliceNum := s.layerNum)
    case ColorAttachment1D => base.(kind := Rtv, dimension := Dim1DArray, firstSlice := s.layerOffset, sliceNum := s.layerNum)
    case DepthStencilAttachment1D(access) =>
      WithAccess(base.(kind := Dsv, dimension := Dim1DArray, firstSlice := s.layerOffset, sliceNum := s.layerNum), access)
  }

  /** Creates a 1D texture view. `format` is the typed DXGI format of the view's NRI format
      and `call` the status of the native view creation. */
  function Create1D(v: TextureViewDesc<Texture1DViewType>, texture: TextureDesc, format: DxgiFormat, call: Status): (r: Outcome<Descriptor>)
    ensures v.viewType.Unknown1D? ==> r == Err(InvalidArgument)
    ensures !v.viewType.Unknown1D? && call != Success ==> r == Err(call)
    ensures !v.viewType.Unknown1D? && call == Success ==>
      && r.Ok? && Consistent(r.value)
      && r.value.subresources == Resolved(v.range, texture)
      && r.value.native == NativeView1D(v.viewType, r.value.subresources, format)
  {
    if v.viewType.Unknown1D? then Err(InvalidArgument)
    else
      var s := Resolved(v.range, texture);
      var native := NativeView1D(v.viewType, s, format);
      Finish(true, call, Descriptor(KindType(native.kind), native, s))
  }

  /** Number of whole cubes in `layers` layers: the count a cube-array view is given. */
  function CubeCount(layers: Dim): (r: nat)
    ensures 6 * r <= layers < 6 * r + 6
  {
    layers / 6
  }

  /** The cube count as the source computes it: from the REQUESTED layer count, before
      REMAINING is resolved. */
  function CubeCountAsWritten(range: ViewRange): (r: nat)
    ensures range.layerNum == REMAINING ==> r == 0
    ensures 6 * r <= range.layerNum
  {
    range.layerNum / 6
  }

  /** With an explicit layer count both computations agree. */
  lemma CubeCountsAgreeOnExplicitLayers(range: ViewRange, texture: TextureDesc)
    requires range.layerNum != REMAINING
    ensures CubeCountAsWritten(range) == CubeCount(Resolved(range, texture).layerNum)
  {
  }

  /** A cube array over all the 12 layers of a texture, asked for with REMAINING, is
      given no cube at all as written, and two cubes once the count is resolved first. */
  lemma CubeCountAsWrittenDropsRemainingLayers()
    ensures var texture := TextureDesc(Texture2D, {ShaderResourceTexture}, 1, 64, 64, 1, 1, 12, 1);
            var range := ViewRange(0, REMAINING, 0, REMAINING);
      && CubeCountAsWritten(range) == 0
      && CubeCount(Resolved(range, texture).layerNum) == 2
  {
  }

  /** The cubes of a cube-array view asked for with REMAINING never run past the texture's layers. */
  lemma CubeArrayStaysInsideTexture(range: ViewRange, texture: TextureDesc)
    requires range.layerNum == REMAINING && range.layerOffset <= texture.layerNum < DIM_LIMIT
    ensures range.layerOffset + 6 * CubeCount(Resolved(range, texture).layerNum) <= texture.layerNum
  {
  }

  /** The native description of a 2D view over resolved subresources `s` of a texture with
      `sampleNum` samples; a cube array is given `cubes` cubes. */
  function NativeView2D(viewType: Texture2DViewType, s: ViewRange, sampleNum: nat, cubes: nat, format: DxgiFormat): (r: NativeViewDesc)
    requires !viewType.Unknown2D?
    ensures r.kind == Srv <==> viewType in {ShaderResource2D, ShaderResource2DArray, ShaderResourceCube, ShaderResourceCubeArray}
    ensures r.kind == Uav <==> viewType in {ShaderResourceStorage2D, ShaderResourceStorage2DArray}
    ensures r.kind == Rtv <==> viewType == ColorAttachment2D
    ensures r.kind == Dsv <==> viewType.DepthStencilAttachment2D?
    ensures r.kind == ShadingRateView <==> viewType == ShadingRateAttachment2D
    ensures r.format == (if r.kind == Srv then ShaderFormatForDepth(format) else format)
    ensures r.kind == Dsv ==> AccessOf(r.readOnlyDepth, r.readOnlyStencil) == viewType.access
    ensures r.kind != Dsv ==> !r.readOnlyDepth && !r.readOnlyStencil
    ensures r.dimension in {Dim2DMs, Dim2DMsArray} <==>
      sampleNum > 1 && viewType !in {ShaderResourceCube, ShaderResourceCubeArray, ShaderResourceStorage2D, ShaderResourceStorage2DArray, ShadingRateAttachment2D}
    ensures r.dimension == DimCubeArray <==> viewType == ShaderResourceCubeArray
    ensures r.dimension == DimCubeArray ==> r.cubeNum == cubes && r.firstSlice == s.layerOffset
    ensures r.dimension != DimCubeArray ==> r.cubeNum == 0
    ensures r.dimension in {Dim2DArray, Dim2DMsArray} ==> r.firstSlice == s.layerOffset && r.sliceNum == s.layerNum
    ensures r.dimension in {Dim2DMs, Dim2DMsArray} ==> r.mipOffset == 0 && r.mipNum == 0
  {
    var base := EMPTY_VIEW.(format := format);
    var srv := base.(kind := Srv, format := ShaderFormatForDepth(format));
    var ms := sampleNum > 1;
    match viewType
    case ShaderResource2D =>
      if ms then srv.(dimension := Dim2DMs)
      else srv.(dimension := Dim2D, mipOffset := s.mipOffset, mipNum := s.mipNum)
    case ShaderResource2DArray =>
      if ms then srv.(dimension := Dim2DMsArray, firstSlice := s.layerOffset, sliceNum := s.layerNum)
      else srv.(dimension := Dim2DArray, mipOffset := s.mipOffset, mipNum := s.mipNum, firstSlice := s.layerOffset, sliceNum := s.layerNum)
    case ShaderResourceCube => srv.(dimension := DimCube, mipOffset := s.mipOffset, mipNum := s.mipNum)
    case ShaderResourceCubeArray =>
      srv.(dimension := DimCubeArray, mipOffset := s.mipOffset, mipNum := s.mipNum, firstSlice := s.layerOffset, cubeNum := cubes)
    case ShaderResourceStorage2D => base.(kind := Uav, dimension := Dim2D, mipOffset := s.mipOffset)
    case ShaderResourceStorage2DArray =>
      base.(kind := Uav, dimension := Dim2DArray, mipOffset := s.mipOffset, firstSlice := s.layerOffset, sliceNum := s.layerNum)
    case ColorAttachment2D =>
      if ms then base.(kind := Rtv, dimension := Dim2DMsArray, firstSlice := s.layerOffset, sliceNum := s.layerNum)
      else base.(kind := Rtv, dimension := Dim2DArray, mipOffset := s.mipOffset, firstSlice := s.layerOffset, sliceNum := s.layerNum)
    case DepthStencilAttachment2D(access) =>
      var dsv :=
        if ms then base.(kind := Dsv, dimension := Dim2DMsArray, firstSlice := s.layerOffset, sliceNum := s.layerNum)
        else base.(kind := Dsv, dimension := Dim2DArray, mipOffset := s.mipOffset, firstSlice := s.layerOffset, sliceNum := s.layerNum);
      WithAccess(dsv, access)
    case ShadingRateAttachment2D => base.(kind := ShadingRateView, dimension := DimShadingRate2D)
  }

  /** Creates a 2D texture view; `call` is the status of the native view creation. A cube
      array is given the cube count as written, from the requested layer count. */
  function Create2D(v: TextureViewDesc<Texture2DViewType>, texture: TextureDesc, format: DxgiFormat, call: Status): (r: Outcome<Descriptor>)
    ensures v.viewType.Unknown2D? ==> r == Err(InvalidArgument)
    ensures !v.viewType.Unknown2D? && call != Success ==> r == Err(call)
    ensures !v.viewType.Unknown2D? && call == Success ==>
      && r.Ok? && Consistent(r.value)
      && r.value.subresources == Resolved(v.range, texture)
      && r.value.native == NativeView2D(v.viewType, r.value.subresources, texture.sampleNum, CubeCountAsWritten(v.range), format)
  {
    if v.viewType.Unknown2D? then Err(InvalidArgument)
    else
      var s := Resolved(v.range, texture);
      var native := NativeView2D(v.viewType, s, texture.sampleNum, CubeCountAsWritten(v.range), format);
      Finish(true, call, Descriptor(KindType(native.kind), native, s))
  }

  /** The 2D view creation with the corrected cube count: a cube array counts the whole
      cubes of the resolved layers. */
  function Create2DCorrected(v: TextureViewDesc<Texture2DViewType>, texture: TextureDesc, format: DxgiFormat, call: Status): (r: Outcome<Descriptor>)
    ensures v.viewType.Unknown2D? ==> r == Err(InvalidArgument)
    ensures !v.viewType.Unknown2D? && call != Success ==> r == Err(call)
    ensures !v.viewType.Unknown2D? && call == Success ==>
      && r.Ok? && Consistent(r.value)
      && r.value.subresources == Resolved(v.range, texture)
      && r.value.native == NativeView2D(v.viewType, r.value.subresources, texture.sampleNum, CubeCount(r.value.subresources.layerNum), format)
  {
    if v.viewType.Unknown2D? then Err(InvalidArgument)
    else
      var s := Resolved(v.range, texture);
      var native := NativeView2D(v.viewType, s, texture.sampleNum, CubeCount(s.layerNum), format);
      Finish(true, call, Descriptor(KindType(native.kind), native, s))
  }

  /** The two creations differ at most in the cube count of a cube array, and not at all
      when the layer count is explicit. */
  lemma Create2DVariantsAgree(v: TextureViewDesc<Texture2DViewType>, texture: TextureDesc, format: DxgiFormat, call: Status)
    ensures var written := Create2D(v, texture, format, call);
            var corrected := Create2DCorrected(v, texture, format, call);
      && written.Ok? == corrected.Ok?
      && (written.Ok? ==> written.value.subresources == corrected.value.subresources
                          && written.value.native.(cubeNum := 0) == corrected.value.native.(cubeNum := 0))
      && (v.range.layerNum != REMAINING ==> written == corrected)
  {
    if !v.viewType.Unknown2D? && call == Success {
      var s := Resolved(v.range, texture);
      NativeView2DOnlyCubesDiffer(v.viewType, s, texture.sampleNum, CubeCountAsWritten(v.range), CubeCount(s.layerNum), format);
      if v.range.layerNum != REMAINING {
        CubeCountsAgreeOnExplicitLayers(v.range, texture);
      }
    }
  }

  /** The cube count given to a native 2D view affects nothing else. */
  lemma NativeView2DOnlyCubesDiffer(viewType: Texture2DViewType, s: ViewRange, sampleNum: nat, a: nat, b: nat, format: DxgiFormat)
    requires !viewType.Unknown2D?
    ensures NativeView2D(viewType, s, sampleNum, a, format).(cubeNum := 0) == NativeView2D(viewType, s, sampleNum, b, format).(cubeNum := 0)
  {
  }

  /** The witness of `CubeCountAsWrittenDropsRemainingLayers` through the whole creation:
      a cube array over all 12 layers of a texture, asked for with REMAINING, is created
      with no cube as written and with two by the corrected creation. */
  lemma Create2DDropsRemainingCubes()
    ensures var texture := TextureDesc(Texture2D, {ShaderResourceTexture}, 1, 64, 64, 1, 1, 12, 1);
            var v := TextureViewDesc(ShaderResourceCubeArray, 0, ViewRange(0, REMAINING, 0, REMAINING));
      && Create2D(v, texture, OtherDxgi(0), Success).value.native.cubeNum == 0
      && Create2DCorrected(v, texture, OtherDxgi(0), Success).value.native.cubeNum == 2
  {
  }

  /** The corrected creation gives a cube array asked for with REMAINING layers exactly the
      whole cubes between its first face and the end of the texture. */
  lemma CorrectedCubeArrayCoversRemainingLayers(v: TextureViewDesc<Texture2DViewType>, texture: TextureDesc, format: DxgiFormat)
    requires v.viewType == ShaderResourceCubeArray && v.range.layerNum == REMAINING
    requires v.range.layerOffset <= texture.layerNum < DIM_LIMIT
    ensures var native := Create2DCorrected(v, texture, format, Success).value.native;
      && v.range.layerOffset + 6 * native.cubeNum <= texture.layerNum < v.range.layerOffset + 6 * native.cubeNum + 6
  {
  }

  /** The native description of a 3D view: mips resolved, slices passed through as requested. */
  function NativeView3D(viewType: Texture3DViewType, mipNum: Dim, range: ViewRange, format: DxgiFormat): (r: NativeViewDesc)
    requires !viewType.Unknown3D?
    ensures r.dimension == Dim3D && r.format == format && r.mipOffset == range.mipOffset && r.cubeNum == 0
    ensures !r.readOnlyDepth && !r.readOnlyStencil
    ensures r.kind == Srv <==> viewType == ShaderResource3D
    ensures r.kind == Srv ==> r.mipNum == mipNum && r.firstSlice == 0 && r.sliceNum == 0
    ensures r.kind == Uav <==> viewType == ShaderResourceStorage3D
    ensures r.kind == Rtv <==> viewType == ColorAttachment3D
    ensures r.kind != Srv ==> r.firstSlice == range.layerOffset && r.sliceNum == range.layerNum
  {
    var base := EMPTY_VIEW.(dimension := Dim3D, format := format, mipOffset := range.mipOffset);
    match viewType
    case ShaderResource3D => base.(kind := Srv, mipNum := mipNum)
    case ShaderResourceStorage3D => base.(kind := Uav, firstSlice := range.layerOffset, sliceNum := range.layerNum)
    case ColorAttachment3D => base.(kind := Rtv, firstSlice := range.layerOffset, sliceNum := range.layerNum)
  }

  /** Creates a 3D texture view. The layer fields of `v.range` are the slice offset and
      count; the slice count is passed on and recorded without resolving REMAINING. */
  function Create3D(v: TextureViewDesc<Texture3DViewType>, texture: TextureDesc, format: DxgiFormat, call: Status): (r: Outcome<Descriptor>)
    ensures v.viewType.Unknown3D? ==> r == Err(InvalidArgument)
    ensures !v.viewType.Unknown3D? && call != Success ==> r == Err(call)
    ensures !v.viewType.Unknown3D? && call == Success ==>
      && r.Ok? && Consistent(r.value)
      && r.value.subresources == v.range.(mipNum := ResolveCount(v.range.mipNum, texture.mipNum, v.range.mipOffset))
      && r.value.native == NativeView3D(v.viewType, r.value.subresources.mipNum, v.range, format)
  {
    if v.viewType.Unknown3D? then Err(InvalidArgument)
    else
      var s := v.range.(mipNum := ResolveCount(v.range.mipNum, texture.mipNum, v.range.mipOffset));
      var native := NativeView3D(v.viewType, s.mipNum, v.range, format);
      Finish(true, call, Descriptor(KindType(native.kind), native, s))
  }

  /** A view asked for with REMAINING mips ends at the texture's last mip. */
  lemma RemainingMipsEndAtLastMip(range: ViewRange, texture: TextureDesc)
    requires range.mipNum == REMAINING && range.mipOffset <= texture.mipNum < DIM_LIMIT
    ensures var s := Resolved(range, texture); s.mipOffset + s.mipNum == texture.mipNum
  {
  }

  // Buffer views

  /** The structure stride a buffer view uses: only views without a format are structured,
      with stride 4 when the buffer itself has stride 4 and the view's stride otherwise. */
  function StructureStride(v: BufferViewDesc, b: BufferDesc): (r: nat)
    ensures !v.format.UnknownFormat? ==> r == 0
    ensures v.format.UnknownFormat? && b.structureStride == 4 ==> r == 4
    ensures v.format.UnknownFormat? && b.structureStride != 4 ==> r == v.structureStride
  {
    if v.format.UnknownFormat? then (if b.structureStride == 4 then 4 else v.structureStride) else 0
  }

  /** A structured view with stride 4 is demoted to a raw (byte-address) view. */
  predicate IsRaw(v: BufferViewDesc, b: BufferDesc) {
    StructureStride(v, b) == 4
  }

  lemma RawIffUnformattedWithStrideFour(v: BufferViewDesc, b: BufferDesc)
    ensures IsRaw(v, b) <==> v.format.UnknownFormat? && (b.structureStride == 4 || v.structureStride == 4)
  {
  }

  /** The format the view is created with. */
  function PatchedFormat(v: BufferViewDesc, b: BufferDesc): (r: Format)
    ensures v.viewType == ConstantBufferView ==> r == Rgba32Sfloat
    ensures v.viewType != ConstantBufferView && !v.format.UnknownFormat? ==> r == v.format
    ensures v.viewType != ConstantBufferView && v.format.UnknownFormat? ==>
      (r == R32Uint <==> IsRaw(v, b)) && (r == R32Uint || r == UnknownFormat)
  {
    var stride := StructureStride(v, b);
    if v.viewType == ConstantBufferView then Rgba32Sfloat
    else if stride != 0 then (if stride == 4 then R32Uint else UnknownFormat)
    else v.format
  }

  /** The size of one element: the structure stride, or the stride of the patched format
      (`formatStride`, read from the format table) for a typed view. */
  function ElementSize(v: BufferViewDesc, b: BufferDesc, formatStride: nat): nat {
    var stride := StructureStride(v, b);
    if stride != 0 then stride else formatStride
  }

  /** The quotient locates `x` between two consecutive multiples of `es`, and fits in 32 bits
      whenever `x` is below `es` times 2^32. */
  lemma QuotientBounds(x: nat, es: nat, q: nat)
    requires es > 0 && q == x / es
    ensures q * es <= x < q * es + es
    ensures x < es * U32_LIMIT ==> q < U32_LIMIT
  {
    assert x == q * es + x % es;
    if q >= U32_LIMIT {
      MulMonotone(U32_LIMIT, q, es);
    }
  }

  lemma MulMonotone(a: nat, b: nat, s: nat)
    requires a <= b
    ensures s * a <= b * s
  {
    assert b * s == a * s + (b - a) * s;
  }

  /** The 32-bit index of the element holding byte `x`: the quotient, truncated to 32 bits. */
  function ElementIndex(x: nat, es: nat): (r: nat)
    requires es > 0
    ensures r < U32_LIMIT
    ensures x < es * U32_LIMIT ==> r * es <= x < r * es + es
  {
    var q := x / es;
    QuotientBounds(x, es, q);
    TruncateU32(q)
  }

  /** The typed and typeless DXGI formats of the patched format. */
  datatype DxgiPair = DxgiPair(typed: DxgiFormat, typeless: DxgiFormat)

  /** A created buffer descriptor: its kind, whether a native view was made and with which
      format and raw flag, and the element window in 32-bit fields. */
  datatype BufferDescriptor = BufferDescriptor(
    descriptorType: DescriptorType,
    nativeView: Option<NativeKind>,
    format: DxgiFormat,
    raw: bool,
    elementOffset: nat,
    elementNum: nat)

  /** Creates a buffer view. Constant views bind the buffer itself and make no native call;
      `call` is the status of the native view creation for the other kinds. */
  function CreateBufferView(v: BufferViewDesc, b: BufferDesc, formatStride: nat, dxgi: DxgiPair, call: Status): (r: Outcome<BufferDescriptor>)
    requires ElementSize(v, b, formatStride) > 0
    ensures v.viewType == UnknownBufferView ==> r == Err(InvalidArgument)
    ensures v.viewType == ConstantBufferView ==> r.Ok? && r.value.descriptorType == ConstantDescriptor && r.value.nativeView.None?
    ensures v.viewType in {ShaderResourceBufferView, StorageBufferView} && call != Success ==> r == Err(call)
    ensures v.viewType in {ShaderResourceBufferView, StorageBufferView} && call == Success ==>
      && r.Ok?
      && r.value.nativeView == Some(if v.viewType == ShaderResourceBufferView then Srv else Uav)
      && r.value.descriptorType == KindType(r.value.nativeView.value)
      && r.value.raw == IsRaw(v, b)
      && r.value.format == (if IsRaw(v, b) then dxgi.typeless else dxgi.typed)
    ensures r.Ok? ==>
      var es := ElementSize(v, b, formatStride);
      var size := ResolveSize(v.size, b.size);
      && r.value.elementOffset < U32_LIMIT && r.value.elementNum < U32_LIMIT
      && (v.offset < es * U32_LIMIT ==> r.value.elementOffset * es <= v.offset < r.value.elementOffset * es + es)
      && (size < es * U32_LIMIT ==> r.value.elementNum * es <= size < r.value.elementNum * es + es)
  {
    var es := ElementSize(v, b, formatStride);
    var size := ResolveSize(v.size, b.size);
    var raw := IsRaw(v, b);
    var elementOffset := ElementIndex(v.offset, es);
    var elementNum := ElementIndex(size, es);
    match v.viewType
    case UnknownBufferView => Err(InvalidArgument)
    case ConstantBufferView => Ok(BufferDescriptor(ConstantDescriptor, None, dxgi.typed, raw, elementOffset, elementNum))
    case ShaderResourceBufferView =>
      Finish(true, call, BufferDescriptor(ResourceDescriptor, Some(Srv), if raw then dxgi.typeless else dxgi.typed, raw, elementOffset, elementNum))
    case StorageBufferView =>
      Finish(true, call, BufferDescriptor(StorageDescriptor, Some(Uav), if raw then dxgi.typeless else dxgi.typed, raw, elementOffset, elementNum))
  }
}
