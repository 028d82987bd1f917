/** Vocabulary shared by every backend: result codes, the outcome of a native call,
    sentinels, integer widths, memory locations and memory-type descriptions. */
module Common {

  /** Result codes an operation returns to its caller. */
  datatype Status = Success | Failure | InvalidArgument | OutOfMemory | Unsupported | DeviceLost

  /** Any status other than success. */
  type ErrorStatus = s: Status | s != Success witness Failure

  /** A native handle or pointer the model treats as an opaque, non-null token; 0 stands for null. */
  type Token = n: nat | n > 0 witness 1

  /** Outcome of a call into code the model cannot see (a driver, an allocator) or of a
      model operation that can fail: a value, or the error code that is passed back. */
  datatype Outcome<T> = Ok(value: T) | Err(code: ErrorStatus)

  datatype Option<T> = None | Some(value: T)

  /** Dim_t is a 16-bit unsigned integer; arithmetic on it wraps modulo this bound. */
  const DIM_LIMIT: nat := 0x1_0000

  /** Bound of the 32-bit unsigned integers used for counts and element numbers. */
  const U32_LIMIT: nat := 0x1_0000_0000

  /** A 32-bit unsigned value. */
  type U32 = x: nat | x < U32_LIMIT

  /** Sentinel for "all mips / layers / slices from the offset to the end". */
  const REMAINING: nat := 0

  /** Sentinel for "the whole buffer". */
  const WHOLE_SIZE: nat := 0

  function Max(a: nat, b: nat): (r: nat)
    ensures r >= a && r >= b && (r == a || r == b)
  {
    if a >= b then a else b
  }

  function Min(a: nat, b: nat): (r: nat)
    ensures r <= a && r <= b && (r == a || r == b)
  {
    if a <= b then a else b
  }

  /** Subtraction of two Dim_t values, wrapping modulo 2^16 as unsigned arithmetic does. */
  function DimSub(a: nat, b: nat): (r: nat)
    ensures r < DIM_LIMIT
    ensures b <= a < DIM_LIMIT ==> r == a - b
  {
    (a - b) % DIM_LIMIT
  }

  /** Conversion of a wider unsigned value to 32 bits, which keeps the low 32 bits. */
  function TruncateU32(x: nat): (r: nat)
    ensures r < U32_LIMIT
    ensures x < U32_LIMIT ==> r == x
  {
    x % U32_LIMIT
  }

  /** Where an allocation lives, in the order the enumeration declares them. */
  datatype MemoryLocation = Device | DeviceUpload | HostUpload | HostReadback

  /** Every location past DEVICE is visible to the CPU. */
  predicate IsHostVisible(location: MemoryLocation) {
    location != Device
  }

  /** The D3D12 heap kinds. */
  datatype HeapType = DefaultHeap | UploadHeap | ReadbackHeap | CustomHeap

  /** The CPU page property of a custom D3D12 heap. */
  datatype CpuPageProperty = PageUnknown | PageNotAvailable | WriteCombine | WriteBack

  /** D3D12 heap flags, plus the NRI-private bit that asks for MSAA placement alignment.
      The ALLOW_ONLY_* and ALLOW_ALL_* values of D3D12 are combinations of the DENY_* bits. */
  datatype HeapFlag =
    | MsaaAlignment
    | DenyBuffers
    | DenyRtDsTextures
    | DenyNonRtDsTextures
    | CreateNotZeroed
    | OtherHeapFlag(bit: nat)

  const DENY_FLAGS: set<HeapFlag> := {DenyBuffers, DenyRtDsTextures, DenyNonRtDsTextures}
  const ALLOW_ALL_BUFFERS_AND_TEXTURES: set<HeapFlag> := {}
  const ALLOW_ONLY_BUFFERS: set<HeapFlag> := {DenyRtDsTextures, DenyNonRtDsTextures}
  const ALLOW_ONLY_NON_RT_DS_TEXTURES: set<HeapFlag> := {DenyBuffers, DenyRtDsTextures}
  const ALLOW_ONLY_RT_DS_TEXTURES: set<HeapFlag> := {DenyBuffers, DenyNonRtDsTextures}

  /** What the packed memory type identifies: the catalog index, its location, whether
      resources in it need a dedicated allocation, and the D3D12 heap kind and flags. */
  datatype MemoryTypeInfo = MemoryTypeInfo(
    index: nat,
    location: MemoryLocation,
    mustBeDedicated: bool,
    heapType: HeapType,
    heapFlags: set<HeapFlag>)

  /** Flags handed to the pooled allocator (VMA or D3D12MA). `Dedicated` stands for
      VMA's DEDICATED_MEMORY and D3D12MA's COMMITTED. */
  datatype AllocationFlag = MinMemory | CanAlias | Dedicated | Mapped

  /** Flags of a pooled resource allocation: always the min-memory strategy, a dedicated
      block when committed and an aliasable placement otherwise, persistently mapped when
      the memory is host-visible. */
  function ResourceAllocationFlags(committed: bool, hostVisible: bool): (r: set<AllocationFlag>)
    ensures MinMemory in r
    ensures Dedicated in r <==> committed
    ensures CanAlias in r <==> !committed
    ensures Mapped in r <==> hostVisible
  {
    {MinMemory} + (if committed then {Dedicated} else {CanAlias}) + (if hostVisible then {Mapped} else {})
  }

  /** A byte range [offset, offset + size). */
  datatype Range = Range(offset: nat, size: nat)

  /** What a buffer may be used for. */
  datatype BufferUsage =
    | ShaderResource
    | ShaderResourceStorage
    | VertexBuffer
    | IndexBuffer
    | ConstantBuffer
    | ArgumentBuffer
    | ScratchBuffer
    | ShaderBindingTable
    | AccelerationStructureBuildInput
    | AccelerationStructureStorage
    | MicromapBuildInput
    | MicromapStorage

  datatype BufferDesc = BufferDesc(size: nat, structureStride: nat, usage: set<BufferUsage>)

  /** What a texture may be used for. */
  datatype TextureUsage =
    | ShaderResourceTexture
    | ShaderResourceStorageTexture
    | ColorAttachment
    | DepthStencilAttachment
    | ShadingRateAttachment

  const ALL_TEXTURE_USAGES: set<TextureUsage> :=
    {ShaderResourceTexture, ShaderResourceStorageTexture, ColorAttachment, DepthStencilAttachment, ShadingRateAttachment}

  datatype TextureType = Texture1D | Texture2D | Texture3D

  datatype TextureDesc = TextureDesc(
    textureType: TextureType,
    usage: set<TextureUsage>,
    format: nat,
    width: nat,
    height: nat,
    depth: nat,
    mipNum: nat,
    layerNum: nat,
    sampleNum: nat)
}
