# NRI resource binding and memory residency, modelled in Dafny

This project models the layer of NRI 1.76 (NVIDIA Rendering Interface) that gives GPU resources their memory and connects them to shaders, across its D3D11, D3D12 and Vulkan backends:

- **Memory objects** (Vulkan and D3D12). A memory object is a dedicated native block, a sub-allocation of the pooled allocator (VMA / D3D12MA), a deferred "must be dedicated" block, or a caller-supplied wrap. It may carry a persistent CPU mapping.
- **Buffers, textures and acceleration structures** (Vulkan and D3D12). They are created, wrapped, allocated through the pooled allocator or bound into a memory object. The model covers:
  - alignment;
  - heap flags and initial resource states;
  - the persistent map and the flush range of non-coherent memory;
  - what each destructor releases.
- **Descriptors** (D3D11 and Vulkan). These are texture views (1D, 2D and 3D) and buffer views. The model covers:
  - resolution of the REMAINING and WHOLE_SIZE sentinels;
  - the native view description;
  - raw versus typed buffer views;
  - element indices truncated to 32 bits.
- **D3D12 descriptor pools.** They create their two shader-visible heaps and hand out descriptor sets by linear growth. Reset frees everything.
- **Descriptor sets** (D3D12 and D3D11). The model covers GPU handles, range updates and range copies.
- **Vulkan pipeline layouts.** A layout has four parts:
  - SPIR-V binding offsets per register class;
  - the flattened binding info;
  - push constants and the push-descriptor set;
  - one descriptor-set layout per declared set, placed in register-space order, with a dummy layout filling the gaps.

Every native call (vkAllocateMemory, CreatePlacedResource, CreateDescriptorHeap, the pooled allocator and so on) is a parameter of type `Outcome<T>` or `Status`. Its result is not known to the model, and the contracts state what the object does for each possible outcome. Handles and pointers are positive tokens, and 0 stands for null. The native flag words are sets of enumeration values. The 16-bit `Dim_t` wrap-around and the 32-bit truncations are written out explicitly.

The modules follow the source files:

| module | models |
|---|---|
| `Common` | result codes, 32-bit and `Dim_t` arithmetic, allocator flags |
| `Views` | the view descriptions shared by the D3D11 and Vulkan descriptor factories |
| `VkMemory`, `D3d12Memory` | `MemoryVK.hpp`, `MemoryD3D12.hpp` |
| `VkBuffer`, `VkTexture`, `VkAccelerationStructure` | `BufferVK.hpp`, `TextureVK.hpp`, `AccelerationStructureVK.hpp` |
| `D3d12Buffer`, `D3d12Texture`, `D3d12AccelerationStructure` | `BufferD3D12.hpp`, `TextureD3D12.hpp`, `AccelerationStructureD3D12.hpp` |
| `D3d11Descriptor`, `VkDescriptor` | `DescriptorD3D11.hpp`, `DescriptorVK.hpp` |
| `D3d12DescriptorPool`, `D3d12DescriptorSet`, `D3d11DescriptorSet` | `DescriptorPoolD3D12.hpp`, `DescriptorSetD3D12.hpp`, `DescriptorSetD3D11.hpp` |
| `VkPipelineLayout` | `PipelineLayoutVK.hpp` |

### Behaviour worth knowing

The operations follow the code as written. Two of them contain defects. Each of those is also modelled in a corrected variant, and a lemma relates the two (see "## Findings").

- **Shared binding offset.** Texture, buffer, structured-buffer and acceleration-structure registers all take the same `textureOffset` (NRI-176/Source/VK/PipelineLayoutVK.hpp:28-34). A texture at register 5 and a buffer at register 5 therefore land on the same Vulkan binding. Nothing in the code rejects overlapping registers, so the model has no such error path.
- **D3D11 3D views.** D3D11 3D views take their first slice and slice count from the description unchanged; only the mip count is resolved. Vulkan 3D views resolve a REMAINING slice count against the texture's layer count (NRI-176/Source/VK/DescriptorVK.hpp:114-118).
- **Cube arrays.** `D3d11Descriptor.Create2D` gives a cube array the cube count as written, from the requested layer count. `D3d11Descriptor.Create2DCorrected` counts the cubes of the resolved layers.
- **Duplicate register spaces.** `VkPipelineLayout.Create` uses the gap rule as written and may leave a slot unwritten. `VkPipelineLayout.CreateCorrected` fills every slot.

## Model

| member | source | states |
|---|---|---|
| `Common.DimSub` | NRI-176/Source/D3D11/DescriptorD3D11.hpp:23-24 | a `Dim_t` difference is below 2^16 and is the true difference whenever it does not underflow |
| `Common.TruncateU32` | NRI-176/Source/D3D11/DescriptorD3D11.hpp:386-387 | a `uint32_t` cast is below 2^32 and leaves values that already fit unchanged |
| `Common.ResourceAllocationFlags` | NRI-176/Source/D3D12/BufferD3D12.hpp:23-24 | allocator flags always ask for minimum memory; dedicated exactly when committed; aliasable exactly when not committed; mapped exactly when host visible |
| `Views.ResolveCount` | NRI-176/Source/D3D11/DescriptorD3D11.hpp:23-24 | an explicit count is kept; REMAINING reaches exactly the end of the texture when the offset is inside it, and wraps modulo 2^16 when it is past the end |
| `Views.ResolveCountIsIdempotent` | NRI-176/Source/D3D11/DescriptorD3D11.hpp:23-24 | resolving an already resolved count changes nothing |
| `Views.ResolveSize` | NRI-176/Source/D3D11/DescriptorD3D11.hpp:367 | WHOLE_SIZE means the whole buffer; any other size is kept |
| `VkMemory.Fresh` | NRI-176/Source/VK/MemoryVK.h:73-80 | a new memory object has no handle, offset or mapping, no memory type, and owns its native memory |
| `VkMemory.CreateWrapped` | NRI-176/Source/VK/MemoryVK.hpp:15-34 | an unknown memory type fails with InvalidArgument and leaves the object untouched; otherwise the wrap never owns the memory and keeps the caller's handle and offset; a caller pointer is kept; unmapped host-visible memory is mapped over exactly the caller's range, with the map call's status |
| `VkMemory.WorstCaseAlignment` | NRI-176/Source/VK/MemoryVK.hpp:48-58 | the pooled alignment is at least 1 and at least every device alignment that applies (ray tracing and micromap ones only when those features exist), and is one of them |
| `VkMemory.CreateAllocated` | NRI-176/Source/VK/MemoryVK.hpp:36-103 | must-be-dedicated memory succeeds with nothing allocated; the pooled path requests the size, the worst-case alignment, this one memory type and the mapped flag exactly for host-visible types; the dedicated path keeps the block it obtained and maps host-visible blocks; a failed allocation is returned with the object left unallocated, while a failed map is returned with the allocated block kept, for the destructor to free |
| `VkMemory.CreateDedicated` | NRI-176/Source/VK/MemoryVK.hpp:105-147 | a deferred block is allocated at the resource's size; on failure the object is unchanged; host-visible blocks are mapped over the whole resource and report the map status |
| `VkMemory.WrappedMemoryIsNeverFreed` | NRI-176/Source/VK/MemoryVK.hpp:3-13 | destroying wrapped memory releases nothing |
| `VkMemory.AllocatedMemoryFreesWhatItObtained` | NRI-176/Source/VK/MemoryVK.hpp:3-13 | destroying allocated memory frees exactly the pooled allocation or block that creation obtained, and nothing when creation failed or was deferred |
| `VkMemory.DedicatedBlockIsFreed` | NRI-176/Source/VK/MemoryVK.hpp:3-13 | a deferred block allocated later is the block the destructor frees |
| `D3d12Memory.Fresh` | NRI-176/Source/D3D12/MemoryD3D12.h:53-57 | a new memory object is the dummy (committed) memory at offset 0 with no heap |
| `D3d12Memory.AlignToPoolGranularity` | NRI-176/Source/D3D12/MemoryD3D12.hpp:35 | the pooled size is a multiple of 64 KiB and is the smallest such multiple not below the requested size |
| `D3d12Memory.TypeHeapFlags` | NRI-176/Source/D3D12/MemoryD3D12.hpp:5-9 | the heap flags are the type's flags without the MSAA marker, plus CreateNotZeroed exactly when zero-initialisation is disabled or the type asked for it |
| `D3d12Memory.AllocationHeapDesc` | NRI-176/Source/D3D12/MemoryD3D12.hpp:11-18 | the heap has the requested size and heap type, the MSAA or default placement alignment as the type asks, and no flags at all when the size is 0 |
| `D3d12Memory.CreateAllocated` | NRI-176/Source/D3D12/MemoryD3D12.hpp:3-53 | must-be-dedicated memory succeeds as dummy memory; the pooled request carries the heap type, minimum-memory and can-alias flags, the heap flags, the size rounded to 64 KiB and the heap alignment; a created heap reports the residency status; each failure is returned with the object left dummy |
| `D3d12Memory.CreateWrapped` | NRI-176/Source/D3D12/MemoryD3D12.hpp:55-61 | wrapped memory is a real heap at the caller's offset and takes that heap's description |
| `D3d12Memory.PoolRequestCoversSize` | NRI-176/Source/D3D12/MemoryD3D12.hpp:34-36 | the pooled request covers the requested size by less than 64 KiB, is 64 KiB granular, and its alignment is a multiple of the default placement alignment |
| `VkBuffer.Create` | NRI-176/Source/VK/BufferVK.hpp:14-25 | a created buffer owns its handle, keeps its description, is unmapped and unallocated, and holds the new handle or reports the failure |
| `VkBuffer.CreateWrapped` | NRI-176/Source/VK/BufferVK.hpp:27-38 | a wrapped buffer keeps the caller's handle, pointer, memory, address, size and stride, and its destruction releases nothing |
| `VkBuffer.RequiredAlignment` | NRI-176/Source/VK/BufferVK.hpp:135-155 | the alignment is the native one, raised to the scratch-buffer offset alignment exactly for scratch buffers |
| `VkBuffer.AllocationRequest` | NRI-176/Source/VK/BufferVK.hpp:43-60 | the pooled request carries the buffer's size, alignment and memory type; it is dedicated exactly when committed or must-be-dedicated, and mapped exactly for host-visible memory |
| `VkBuffer.AllocateAndBindMemory` | NRI-176/Source/VK/BufferVK.hpp:40-90 | the pooled allocator is asked for `AllocationRequest(md, committed)`: the reported size and alignment, this memory type only, a dedicated block exactly when committed or when the type must be dedicated, mapped exactly when host visible; an allocator failure leaves the buffer unchanged; otherwise the buffer keeps the allocation; after a good bind it takes the allocation's CPU pointer when host visible, remembers the block and offset for flushing non-coherent memory, and takes the queried device address |
| `VkBuffer.BindMemory` | NRI-176/Source/VK/BufferVK.hpp:92-133 | the buffer keeps its handle and description; with the bind requested, must-be-dedicated memory is returned as `VkMemory.CreateDedicated` leaves it and any other memory unchanged, and the bind lands at the memory's offset plus the requested offset; a failed bind is returned with the buffer unchanged; otherwise the CPU pointer and flush range come from the memory and the device address is the queried one when queried |
| `VkBuffer.Map` | NRI-176/Source/VK/BufferVK.hpp:161-171 | the returned pointer is the buffer's CPU pointer advanced by the offset, and the mapped window is recorded with WHOLE_SIZE resolved to the buffer size |
| `VkBuffer.Unmap` | NRI-176/Source/VK/BufferVK.hpp:173-184 | a flush happens exactly for non-coherent memory, over the mapped window shifted by the buffer's offset in that memory |
| `VkBuffer.BindMapUnmapAgree` | NRI-176/Source/VK/BufferVK.hpp:92-184 | after binding into non-coherent host-visible memory, the mapped pointer and the flushed range address the same byte of the same memory |
| `VkBuffer.AllocateMapUnmapAgree` | NRI-176/Source/VK/BufferVK.hpp:40-90 | after a pooled allocation in non-coherent memory, `Map(o)` points at the allocation's pointer plus `o`, and `Unmap` flushes the allocation's block from its offset plus `o` |
| `VkBuffer.MustBeDedicatedOverridesCommitted` | NRI-176/Source/VK/BufferVK.hpp:46-58 | a memory type that must be dedicated gets a dedicated, non-aliasable block whatever the caller asked; otherwise `committed` alone chooses dedicated or aliasable |
| `VkBuffer.PooledBufferReleasesAllocation` | NRI-176/Source/VK/BufferVK.hpp:3-12 | an owned buffer with a pooled allocation releases buffer and allocation together, even when its bind failed |
| `VkTexture.CreateWrapped` | NRI-176/Source/VK/TextureVK.hpp:27-42 | a wrapped image keeps the caller's handle and shape, claims every usage, and its destruction releases nothing |
| `VkTexture.AllocateAndBindMemory` | NRI-176/Source/VK/TextureVK.hpp:44-75 | the pooled allocator is asked for the buffer's request over the image's memory description, so a type that must be dedicated forces a dedicated block; an allocator failure leaves the texture unchanged; otherwise it keeps the allocation and reports the bind status |
| `VkTexture.TextureAsksLikeABuffer` | NRI-176/Source/VK/TextureVK.hpp:44-62 | a texture and a buffer with the same memory description make the same request of the pooled allocator |
| `VkTexture.BindMemory` | NRI-176/Source/VK/TextureVK.hpp:77-91 | the image is bound to the memory's block at the memory's offset plus the requested offset, with the bind's status |
| `VkTexture.TextureBindsWhereBufferBinds` | NRI-176/Source/VK/TextureVK.hpp:77-91 | a texture and a buffer bound into the same memory at the same offset land in the same memory block at the same offset, with the same status, when the memory needs no dedicated block |
| `VkTexture.PooledTextureReleasesAllocation` | NRI-176/Source/VK/TextureVK.hpp:3-12 | an owned texture releases the pooled allocation it obtained, even when the bind failed |
| `VkAccelerationStructure.StorageSize` | NRI-176/Source/VK/AccelerationStructureVK.hpp:12-29 | the storage never exceeds the prebuild size; a non-zero optimized size caps it |
| `VkAccelerationStructure.StorageBufferDesc` | NRI-176/Source/VK/AccelerationStructureVK.hpp:12-29 | the storage buffer has the storage size, the acceleration-structure-storage usage and no stride |
| `VkAccelerationStructure.Create` | NRI-176/Source/VK/AccelerationStructureVK.hpp:12-29 | creation remembers the scratch sizes and creates the storage buffer, or reports its failure; the native structure is created later |
| `VkAccelerationStructure.CreateWrapped` | NRI-176/Source/VK/AccelerationStructureVK.hpp:31-52 | a wrapped structure owns nothing, keeps the caller's handle and queried address, and wraps the caller's buffer without owning it |
| `VkAccelerationStructure.CreateInfo` | NRI-176/Source/VK/AccelerationStructureVK.hpp:64-99 | the native structure is created over the storage buffer's handle and size |
| `VkAccelerationStructure.BindBuffer` | NRI-176/Source/VK/AccelerationStructureVK.hpp:67-78 | the backing buffer keeps its handle and description and is bound at the memory's offset plus the requested offset, into memory of the same type; a failed bind returns its status with the buffer unchanged |
| `VkAccelerationStructure.CreateNative` | NRI-176/Source/VK/AccelerationStructureVK.hpp:80-98 | a failed create call changes nothing; otherwise the structure takes the new handle and the queried address, and the call succeeds exactly when the address is non-zero |
| `VkAccelerationStructure.BindMemory` | NRI-176/Source/VK/AccelerationStructureVK.hpp:64-99 | with a memory object the backing buffer is bound into it as `VkBuffer.BindMemory` does, and the memory object is returned as that bind leaves it; a failed buffer bind is returned with the structure unchanged; then a failed create call is returned with the buffer still bound, and otherwise the structure takes the new handle and address, succeeding exactly when the address is non-zero |
| `VkAccelerationStructure.BoundStructureNamesItsBuffer` | NRI-176/Source/VK/AccelerationStructureVK.hpp:64-99 | after a successful bind the structure has the created handle, a non-zero address, and creation info naming its backing buffer over the whole size, bound into the memory object when one was given |
| `VkAccelerationStructure.BufferStaysBoundWhenCreationFails` | NRI-176/Source/VK/AccelerationStructureVK.hpp:67-89 | when the buffer bind succeeds and the native creation fails, the error is returned and the buffer keeps its bind, including its CPU address in host-visible memory |
| `VkAccelerationStructure.AllocateAndBindMemory` | NRI-176/Source/VK/AccelerationStructureVK.hpp:54-62 | the storage buffer is allocated first; its failure is returned, and its success continues with the native creation |
| `VkAccelerationStructure.WrappedStructureReleasesNothingNative` | NRI-176/Source/VK/AccelerationStructureVK.hpp:3-10 | destroying a wrapped structure releases neither the structure nor the caller's buffer |
| `VkAccelerationStructure.CreatedStructureDestroysItsBuffer` | NRI-176/Source/VK/AccelerationStructureVK.hpp:3-10 | destroying a created structure releases the structure and the storage buffer it created |
| `D3d12Buffer.Create` | NRI-176/Source/D3D12/BufferD3D12.hpp:3-7 | a created buffer keeps its description and has no resource and no mapping yet |
| `D3d12Buffer.CreateWrapped` | NRI-176/Source/D3D12/BufferD3D12.hpp:9-18 | a wrap takes the explicit description, else one derived from the resource, and fails with InvalidArgument when neither exists |
| `D3d12Buffer.InitialStateIgnoresCheckOrder` | NRI-176/Source/D3D12/BufferD3D12.hpp:95-112 | no heap is both an upload and a readback heap, so testing readback before upload gives the same initial state |
| `D3d12Buffer.InitialState` | NRI-176/Source/D3D12/BufferD3D12.hpp:48-55 | a buffer starts in the generic-read state exactly on upload heaps, as a copy destination exactly on readback heaps, and in the acceleration-structure state exactly for storage buffers |
| `D3d12Buffer.SetPriorityAndPersistentlyMap` | NRI-176/Source/D3D12/BufferD3D12.hpp:125-154 | a residency failure is returned at once; upload and readback buffers are mapped persistently, with a read range covering the buffer only for readback; other buffers are left as they are |
| `D3d12Buffer.BufferHeapFlags` | NRI-176/Source/D3D12/BufferD3D12.hpp:26-29 | on resource-heap tier 1 the heap admits only buffers; on higher tiers it admits everything |
| `D3d12Buffer.Allocate` | NRI-176/Source/D3D12/BufferD3D12.hpp:20-65 | the pooled request carries the heap type, the allocator flags, the tier's heap flags and the location's initial state; a creation failure leaves the buffer unchanged; otherwise it continues with the residency priority and the persistent map |
| `D3d12Buffer.CommittedHeapFlags` | NRI-176/Source/D3D12/BufferD3D12.hpp:72-75 | a committed buffer's heap flags drop every deny flag and add CreateNotZeroed exactly when zero-initialisation is disabled or the memory asked for it |
| `D3d12Buffer.PlacementIn` | NRI-176/Source/D3D12/BufferD3D12.hpp:67-123 | dummy memory makes a committed resource with the memory's heap properties; any other memory places the resource in its heap at the memory's offset plus the requested offset |
| `D3d12Buffer.BindMemory` | NRI-176/Source/D3D12/BufferD3D12.hpp:67-123 | the buffer is committed or placed as `PlacementIn` says, with the initial state of its heap; a creation failure leaves the buffer unchanged; otherwise it continues with the residency priority and the persistent map |
| `D3d12Buffer.Map` | NRI-176/Source/D3D12/BufferD3D12.hpp:156-160 | the returned pointer is the persistent mapping advanced by the offset |
| `D3d12Buffer.DedicatedMemoryMakesCommittedBuffer` | NRI-176/Source/D3D12/MemoryD3D12.hpp:22-24 | binding into must-be-dedicated memory makes a committed resource on the memory type's heap, with no deny flags |
| `D3d12Buffer.PooledMemoryPlacesBuffer` | NRI-176/Source/D3D12/BufferD3D12.hpp:67-123 | binding into pooled memory places the buffer in the allocation's heap at the allocation's offset plus the requested offset |
| `D3d12Buffer.WrappedMemoryPlacesBuffer` | NRI-176/Source/D3D12/BufferD3D12.hpp:67-123 | a buffer bound into memory wrapped around a caller's heap is placed in that heap at the wrap's offset plus the bind offset |
| `D3d12Buffer.ResourceIsCreatedOnce` | NRI-176/Source/D3D12/BufferD3D12.hpp:67-123 | a successful bind leaves the buffer with a resource |
| `D3d12Texture.CreateWrapped` | NRI-176/Source/D3D12/TextureD3D12.hpp:9-16 | a wrap fails with InvalidArgument exactly when no description can be derived, and otherwise keeps the derived description and the resource |
| `D3d12Texture.OptimizedClearValue` | NRI-176/Source/D3D12/TextureD3D12.hpp:18-79 | only render targets and depth-stencil targets get a clear value, in the typed format, of the depth-stencil kind exactly for depth or stencil formats |
| `D3d12Texture.TextureHeapFlags` | NRI-176/Source/D3D12/TextureD3D12.hpp:18-79 | on resource-heap tier 1 a texture's heap denies buffers, and denies exactly one of the two texture classes, so attachments and other textures never share a heap |
| `D3d12Texture.Allocate` | NRI-176/Source/D3D12/TextureD3D12.hpp:18-79 | the pooled request carries the heap type, the allocator flags, the tier's heap flags and the clear value; a failure leaves the texture unchanged, a success reports the residency status |
| `D3d12Texture.BindMemory` | NRI-176/Source/D3D12/TextureD3D12.hpp:81-145 | the texture is committed or placed as the buffer rule says, with its clear value; a failure leaves it unchanged, a success reports the residency status |
| `D3d12Texture.DedicatedMemoryMakesCommittedTexture` | NRI-176/Source/D3D12/TextureD3D12.hpp:81-145 | a texture bound into must-be-dedicated memory is a committed resource with the memory's heap type and no DENY heap flags |
| `D3d12Texture.PooledMemoryPlacesTexture` | NRI-176/Source/D3D12/TextureD3D12.hpp:81-145 | a texture bound into pooled memory is placed in the sub-allocation's heap at its offset plus the caller's offset |
| `D3d12Texture.AllocateAsksLikeABuffer` | NRI-176/Source/D3D12/TextureD3D12.hpp:18-79 | a texture asks for the same heap type and allocation flags as a buffer, for the same heap flags above tier 0, and for a clear value exactly when renderable |
| `D3d12Texture.TextureIsCreatedOnce` | NRI-176/Source/D3D12/TextureD3D12.hpp:18-145 | a successful creation by either path leaves the texture holding a resource |
| `D3d12Texture.TierZeroSeparatesBuffersAndTextures` | NRI-176/Source/D3D12/TextureD3D12.hpp:18-79 | on tier 1, texture heaps deny buffers and buffer heaps deny both texture classes |
| `D3d12AccelerationStructure.ResultSize` | NRI-176/Source/D3D12/AccelerationStructureD3D12.hpp:19-31 | the result size never exceeds the prebuild size; a non-zero optimized size caps it |
| `D3d12AccelerationStructure.StorageDesc` | NRI-176/Source/D3D12/AccelerationStructureD3D12.hpp:45-53 | the storage buffer has the result size and the acceleration-structure-storage usage |
| `D3d12AccelerationStructure.Create` | NRI-176/Source/D3D12/AccelerationStructureD3D12.hpp:19-31 | creation remembers the capped result size and the scratch sizes, and creates an unallocated storage buffer of that size |
| `D3d12AccelerationStructure.CreateWrapped` | NRI-176/Source/D3D12/AccelerationStructureD3D12.hpp:7-17 | a wrap keeps the caller's sizes and reports the buffer wrap's status, with a buffer exactly when its description can be derived |
| `D3d12AccelerationStructure.Allocate` | NRI-176/Source/D3D12/AccelerationStructureD3D12.hpp:33-35 | allocation is the storage buffer's allocation; it starts in the acceleration-structure state exactly when the buffer is storage |
| `D3d12AccelerationStructure.BindMemory` | NRI-176/Source/D3D12/AccelerationStructureD3D12.hpp:37-39 | binding is the storage buffer's bind; it starts in the acceleration-structure state exactly when the buffer is storage |
| `D3d12AccelerationStructure.CreatedStorageStartsInAccelerationStructureState` | NRI-176/Source/D3D12/AccelerationStructureD3D12.hpp:19-39 | the storage of a created structure starts in the acceleration-structure state, whether it is allocated or bound |
| `D3d11Descriptor.ShaderFormatForDepth` | NRI-176/Source/D3D11/DescriptorD3D11.hpp:3-16 | the shader format is never a depth format, and equals the input exactly when the input is not one |
| `D3d11Descriptor.ShaderFormatForDepthIsIdempotent` | NRI-176/Source/D3D11/DescriptorD3D11.hpp:3-16 | converting twice is converting once |
| `D3d11Descriptor.ShaderFormatForDepthSeparatesDepthFormats` | NRI-176/Source/D3D11/DescriptorD3D11.hpp:3-16 | distinct depth formats map to distinct shader formats |
| `D3d11Descriptor.AccessOf` | NRI-176/Source/D3D11/DescriptorD3D11.hpp:97-102 | the access kind read back from a pair of read-only flags has exactly those flags |
| `D3d11Descriptor.AccessFlagsRoundTrip` | NRI-176/Source/D3D11/DescriptorD3D11.hpp:97-102 | an access kind is recovered from its own read-only flags |
| `D3d11Descriptor.WithAccess` | NRI-176/Source/D3D11/DescriptorD3D11.hpp:261-266 | setting a view's read-only flags gives it exactly the requested access and changes nothing else |
| `D3d11Descriptor.Resolved` | NRI-176/Source/D3D11/DescriptorD3D11.hpp:127-128 | a view keeps its offsets and resolves its mip and layer counts against the texture |
| `D3d11Descriptor.Finish` | NRI-176/Source/D3D11/DescriptorD3D11.hpp:108-119 | an unknown view type fails with InvalidArgument, a failed native call returns its status, and otherwise the descriptor is returned |
| `D3d11Descriptor.NativeView1D` | NRI-176/Source/D3D11/DescriptorD3D11.hpp:26-107 | each 1D view type gets its view kind and dimension; array views cover the resolved layers; shader-resource views cover the resolved mips; depth views carry their read-only flags |
| `D3d11Descriptor.Create1D` | NRI-176/Source/D3D11/DescriptorD3D11.hpp:18-120 | an unknown type fails with InvalidArgument, a failed call returns its status, and a success records the resolved subresources and the native 1D view over them |
| `D3d11Descriptor.CubeCount` | NRI-176/Source/D3D11/DescriptorD3D11.hpp:189 | the cube count is the number of whole six-face cubes in the layer count |
| `D3d11Descriptor.CubeCountAsWritten` | NRI-176/Source/D3D11/DescriptorD3D11.hpp:189 | the cube count as written never exceeds the requested layers and is 0 for REMAINING |
| `D3d11Descriptor.CubeCountsAgreeOnExplicitLayers` | NRI-176/Source/D3D11/DescriptorD3D11.hpp:189 | for an explicit layer count the written and the corrected cube counts agree |
| `D3d11Descriptor.CubeCountAsWrittenDropsRemainingLayers` | NRI-176/Source/D3D11/DescriptorD3D11.hpp:189 | a 12-layer texture viewed with REMAINING layers gets 0 cubes as written and 2 when corrected |
| `D3d11Descriptor.CubeArrayStaysInsideTexture` | NRI-176/Source/D3D11/DescriptorD3D11.hpp:182-196 | the corrected cube array with REMAINING layers never reaches past the texture's last layer |
| `D3d11Descriptor.NativeView2D` | NRI-176/Source/D3D11/DescriptorD3D11.hpp:130-291 | each 2D view type gets its view kind; cube arrays hold the cube count they are given and start at the first face; multisampled textures get the MS dimensions; shader-resource views use the shader format for depth formats; depth views carry their read-only flags |
| `D3d11Descriptor.Create2D` | NRI-176/Source/D3D11/DescriptorD3D11.hpp:122-304 | an unknown type fails with InvalidArgument, a failed call returns its status, and a success records the resolved subresources and the native 2D view over them, a cube array holding the requested layer count divided by 6 |
| `D3d11Descriptor.Create2DCorrected` | NRI-176/Source/D3D11/DescriptorD3D11.hpp:183-196 | the same creation, with a cube array holding the whole cubes of the resolved layers |
| `D3d11Descriptor.NativeView2DOnlyCubesDiffer` | NRI-176/Source/D3D11/DescriptorD3D11.hpp:183-196 | the cube count given to a native 2D view changes nothing but its cube count |
| `D3d11Descriptor.Create2DVariantsAgree` | NRI-176/Source/D3D11/DescriptorD3D11.hpp:189 | the two creations succeed together, differ at most in the cube count, and are equal when the layer count is explicit |
| `D3d11Descriptor.Create2DDropsRemainingCubes` | NRI-176/Source/D3D11/DescriptorD3D11.hpp:183-196 | a cube array over all 12 layers asked for with REMAINING is created with 0 cubes as written and 2 when corrected |
| `D3d11Descriptor.CorrectedCubeArrayCoversRemainingLayers` | NRI-176/Source/D3D11/DescriptorD3D11.hpp:183-196 | with the correction, a REMAINING cube array covers every whole cube between its first face and the end of the texture |
| `D3d11Descriptor.NativeView3D` | NRI-176/Source/D3D11/DescriptorD3D11.hpp:306-362 | each 3D view type gets its view kind; shader-resource views cover the resolved mips; storage and render-target views cover the requested slices |
| `D3d11Descriptor.Create3D` | NRI-176/Source/D3D11/DescriptorD3D11.hpp:306-362 | an unknown type fails with InvalidArgument, a failed call returns its status, and a success resolves only the mip count and records the native 3D view |
| `D3d11Descriptor.RemainingMipsEndAtLastMip` | NRI-176/Source/D3D11/DescriptorD3D11.hpp:127 | REMAINING mips end exactly at the texture's last mip |
| `D3d11Descriptor.StructureStride` | NRI-176/Source/D3D11/DescriptorD3D11.hpp:369-372 | typed views have no stride; untyped views take stride 4 from a buffer with stride 4 and the view's own stride otherwise |
| `D3d11Descriptor.RawIffUnformattedWithStrideFour` | NRI-176/Source/D3D11/DescriptorD3D11.hpp:369-373 | a view is raw exactly when it is untyped and either the buffer's or the view's stride is 4 |
| `D3d11Descriptor.PatchedFormat` | NRI-176/Source/D3D11/DescriptorD3D11.hpp:375-382 | constant views become RGBA32_SFLOAT; typed views keep their format; untyped views become R32_UINT exactly when raw and stay unknown otherwise |
| `D3d11Descriptor.ElementIndex` | NRI-176/Source/D3D11/DescriptorD3D11.hpp:386-387 | an element index fits in 32 bits and, when the byte count allows, is the element that contains the byte |
| `D3d11Descriptor.CreateBufferView` | NRI-176/Source/D3D11/DescriptorD3D11.hpp:364-432 | an unknown view type fails with InvalidArgument; constant views use the buffer itself; other views create a raw view exactly when raw, in the typeless format then and the typed one otherwise, or return the call's failure; the element offset and count are 32-bit element indices of the offset and size |
| `VkDescriptor.ImageViewType1D` | NRI-176/Source/VK/DescriptorVK.hpp:3-16 | plain and storage views are 1D, array views are 1D arrays, and attachments are arrays exactly when they have more than one layer |
| `VkDescriptor.ImageViewType2D` | NRI-176/Source/VK/DescriptorVK.hpp:18-37 | plain and storage views are 2D, array views are 2D arrays, cube views are cubes, cube arrays are cube arrays, and attachments are arrays exactly when they have more than one layer |
| `VkDescriptor.TextureView` | NRI-176/Source/VK/DescriptorVK.hpp:65-107 | a failed call returns its status; a success holds the new view, created over exactly the resolved subresources, and records them |
| `VkDescriptor.ResolvedRange` | NRI-176/Source/VK/DescriptorVK.hpp:69-80 | explicit counts are kept; REMAINING mips and layers reach exactly the end of the texture when the offset is inside it |
| `VkDescriptor.CreateTextureView1D` | NRI-176/Source/VK/DescriptorVK.hpp:209-211 | a 1D view is created over the resolved subresources with the 1D view type for its layer count |
| `VkDescriptor.CreateTextureView2D` | NRI-176/Source/VK/DescriptorVK.hpp:213-215 | a 2D view is created over the resolved subresources with the 2D view type for its layer count |
| `VkDescriptor.CreateTextureView3D` | NRI-176/Source/VK/DescriptorVK.hpp:109-158 | a 3D view covers one layer and the resolved mips; it records the resolved slices, and passes them to the driver exactly when sliced views are supported |
| `VkDescriptor.CreateBufferView` | NRI-176/Source/VK/DescriptorVK.hpp:160-185 | untyped views need no native object; typed views hold the new buffer view or return the failure; every view records the buffer, offset, type and size, with WHOLE_SIZE resolved |
| `VkDescriptor.CreateAccelerationStructure` | NRI-176/Source/VK/DescriptorVK.hpp:202-207 | the descriptor refers to the given structure |
| `VkDescriptor.Destroy` | NRI-176/Source/VK/DescriptorVK.hpp:43-63 | image views and samplers are released; buffer views are released exactly when a native view exists; acceleration-structure descriptors release nothing |
| `VkDescriptor.BufferViewReleasesWhatItCreated` | NRI-176/Source/VK/DescriptorVK.hpp:43-63 | a buffer view releases exactly the native view it created, and nothing when none was needed |
| `VkDescriptor.AccelerationStructureDescriptorReleasesNothing` | NRI-176/Source/VK/DescriptorVK.hpp:43-63 | the descriptor does not own the structure it refers to |
| `VkDescriptor.BackendsAgreeOnSubresources2D` | NRI-176/Source/VK/DescriptorVK.hpp:65-107 | for every 2D view, the Vulkan and D3D11 backends record the same mips and layers |
| `D3d12DescriptorPool.ResourceHeapSize` | NRI-176/Source/D3D12/DescriptorPoolD3D12.hpp:8-16 | the resource heap holds the sum of the nine per-type maxima whenever that sum fits in 32 bits |
| `D3d12DescriptorPool.HeapSizes` | NRI-176/Source/D3D12/DescriptorPoolD3D12.hpp:4-16 | the resource heap has the resource size and the sampler heap has the sampler maximum |
| `D3d12DescriptorPool.CreateHeap` | NRI-176/Source/D3D12/DescriptorPoolD3D12.hpp:18-35 | an empty heap is not created; a non-empty heap fails exactly when the native call does, and otherwise keeps the native heap and the device's increment |
| `D3d12DescriptorPool.Existing` | NRI-176/Source/D3D12/DescriptorPoolD3D12.hpp:33 | the heaps bound to a command list are the existing ones, resource heap first |
| `D3d12DescriptorPool.NewPool` | NRI-176/Source/D3D12/DescriptorPoolD3D12.hpp:37 | a new pool is valid, empty and has room for the requested number of sets |
| `D3d12DescriptorPool.Create` | NRI-176/Source/D3D12/DescriptorPoolD3D12.hpp:3-40 | creation fails exactly with the status of a heap that had to be created and could not be; a created pool is valid, empty, has room for the requested sets and binds its existing heaps |
| `D3d12DescriptorPool.WrapHeap` | NRI-176/Source/D3D12/DescriptorPoolD3D12.hpp:56-64 | a supplied heap is kept with its type's increment; a missing heap stays absent |
| `D3d12DescriptorPool.CreateFromHeaps` | NRI-176/Source/D3D12/DescriptorPoolD3D12.hpp:42-70 | a wrapped pool is valid and empty, has a heap exactly where one was supplied, and binds those heaps |
| `D3d12DescriptorPool.DescriptorHandleCPU` | NRI-176/Source/D3D12/DescriptorPoolD3D12.hpp:76-81 | CPU handles start at the heap's base and never fall below it |
| `D3d12DescriptorPool.DescriptorHandleGPU` | NRI-176/Source/D3D12/DescriptorPoolD3D12.hpp:83-88 | GPU handles start at the heap's base and never fall below it |
| `D3d12DescriptorPool.HandlesStepByIncrement` | NRI-176/Source/D3D12/DescriptorPoolD3D12.hpp:76-88 | consecutive offsets are one descriptor increment apart |
| `D3d12DescriptorPool.HandlesAreDistinct` | NRI-176/Source/D3D12/DescriptorPoolD3D12.hpp:76-88 | distinct offsets give handles at least one increment apart, so descriptors never overlap |
| `D3d12DescriptorPool.InstanceOffset` | NRI-176/Source/D3D12/DescriptorPoolD3D12.hpp:108-115 | a set with no descriptors in a heap gets offset 0 there; the first instance starts at the cursor and later ones after it |
| `D3d12DescriptorPool.InstanceOffsets` | NRI-176/Source/D3D12/DescriptorPoolD3D12.hpp:107-116 | each heap's offset is that heap's instance offset, truncated to 32 bits |
| `D3d12DescriptorPool.Bump` | NRI-176/Source/D3D12/DescriptorPoolD3D12.hpp:111-115 | each heap's cursor advances by the set's descriptor count in that heap |
| `D3d12DescriptorPool.AllocateDescriptorSets` | NRI-176/Source/D3D12/DescriptorPoolD3D12.hpp:95-126 | the call fails with OutOfMemory exactly when the pool lacks room, and then changes nothing; otherwise it hands out the next sets in order, each with its instance's heap offsets, and advances the cursors by the whole batch |
| `D3d12DescriptorPool.InstanceWindowsAreDisjoint` | NRI-176/Source/D3D12/DescriptorPoolD3D12.hpp:105-123 | the descriptor windows of two instances of one batch do not overlap |
| `D3d12DescriptorPool.Reset` | NRI-176/Source/D3D12/DescriptorPoolD3D12.hpp:128-135 | reset empties the pool and rewinds the cursors, keeping its heaps and capacity |
| `D3d12DescriptorPool.ResetFreesTheWholePool` | NRI-176/Source/D3D12/DescriptorPoolD3D12.hpp:128-135 | after reset, any batch up to the pool's capacity fits, and the first set starts at offset 0 again |
| `D3d12DescriptorSet.CopyOne` | NRI-176/Source/D3D12/DescriptorSetD3D12.hpp:41 | a one-descriptor copy writes the source descriptor at the destination and nothing else |
| `D3d12DescriptorSet.DescriptorOffset` | NRI-176/Source/D3D12/DescriptorSetD3D12.hpp:16-18 | a descriptor's heap offset is the set's heap offset plus the range's offset plus the base, when that fits in 32 bits |
| `D3d12DescriptorSet.GetDescriptorHandleGPU` | NRI-176/Source/D3D12/DescriptorSetD3D12.hpp:13-23 | the GPU handle is the heap's base plus the descriptor's offset times the increment |
| `D3d12DescriptorSet.GpuHandlesFollowDescriptorOrder` | NRI-176/Source/D3D12/DescriptorSetD3D12.hpp:13-23 | within a range, a later descriptor has a larger GPU handle |
| `D3d12DescriptorSet.TruncatedOffsetsDiffer` | NRI-176/Source/D3D12/DescriptorSetD3D12.hpp:33-38 | distinct steps of one update give distinct 32-bit offsets |
| `D3d12DescriptorSet.UpdateTargetsAreDistinct` | NRI-176/Source/D3D12/DescriptorSetD3D12.hpp:37-42 | the descriptors of one update go to distinct CPU handles |
| `D3d12DescriptorSet.UpdateRange` | NRI-176/Source/D3D12/DescriptorSetD3D12.hpp:26-42 | an update changes only its own targets, and when its targets and sources are apart, each target receives its source descriptor |
| `D3d12DescriptorSet.UpdateDescriptorRanges` | NRI-176/Source/D3D12/DescriptorSetD3D12.hpp:25-44 | addresses that no update targets keep their descriptors |
| `D3d12DescriptorSet.CopyCount` | NRI-176/Source/D3D12/DescriptorSetD3D12.hpp:67-69 | a copy moves the given count, or the whole source range when the count is 0 |
| `D3d12DescriptorSet.CopySteps` | NRI-176/Source/D3D12/DescriptorSetD3D12.hpp:71 | a strided copy changes only its destination steps, and when the windows are apart, each step receives the matching source descriptor |
| `D3d12DescriptorSet.CopyRange` | NRI-176/Source/D3D12/DescriptorSetD3D12.hpp:48-71 | a range copy changes only the destination window, and when the windows are apart, copies the source window into it |
| `D3d12DescriptorSet.Copy` | NRI-176/Source/D3D12/DescriptorSetD3D12.hpp:46-73 | addresses outside every copy's destination window keep their descriptors |
| `D3d11DescriptorSet.LayoutRangeIndex` | NRI-176/Source/D3D11/DescriptorSetD3D11.hpp:14 | the layout's range index is the set's first range plus the relative index, when that fits in 32 bits |
| `D3d11DescriptorSet.UpdateSlot` | NRI-176/Source/D3D11/DescriptorSetD3D11.hpp:16-19 | an update starts at the set's first slot plus the range's offset plus the base, when the offset fits in 32 bits |
| `D3d11DescriptorSet.Splice` | NRI-176/Source/D3D11/DescriptorSetD3D11.hpp:22 | a pointer copy keeps the table's length, writes the new pointers into the window and changes nothing outside it |
| `D3d11DescriptorSet.SplicesCommute` | NRI-176/Source/D3D11/DescriptorSetD3D11.hpp:22 | two pointer copies into disjoint windows can run in either order |
| `D3d11DescriptorSet.SpliceIsIdempotent` | NRI-176/Source/D3D11/DescriptorSetD3D11.hpp:22 | repeating a pointer copy changes nothing |
| `D3d11DescriptorSet.UpdateRange` | NRI-176/Source/D3D11/DescriptorSetD3D11.hpp:11-22 | an update writes its descriptors into its window and leaves every other slot as it was |
| `D3d11DescriptorSet.DisjointUpdatesCommute` | NRI-176/Source/D3D11/DescriptorSetD3D11.hpp:9-24 | updates of disjoint windows can be applied in either order |
| `D3d11DescriptorSet.UpdateIsIdempotent` | NRI-176/Source/D3D11/DescriptorSetD3D11.hpp:9-24 | applying the same update twice is applying it once |
| `D3d11DescriptorSet.UpdateDescriptorRanges` | NRI-176/Source/D3D11/DescriptorSetD3D11.hpp:9-24 | a batch keeps the table's length, leaves slots no update covers unchanged, and leaves every covered slot holding the descriptor of the last update that writes it |
| `D3d11DescriptorSet.CopyCount` | NRI-176/Source/D3D11/DescriptorSetD3D11.hpp:42-44 | a copy moves the given count, or the whole source range when the count is 0 |
| `D3d11DescriptorSet.CopyRange` | NRI-176/Source/D3D11/DescriptorSetD3D11.hpp:28-46 | the destination window receives the source window's pointers; everything outside it, the source window included, is unchanged |
| `D3d11DescriptorSet.CopyCarriesAnUpdate` | NRI-176/Source/D3D11/DescriptorSetD3D11.hpp:9-48 | copying a freshly updated window carries the update's descriptors to the destination |
| `D3d11DescriptorSet.Copy` | NRI-176/Source/D3D11/DescriptorSetD3D11.hpp:26-48 | a batch of copies keeps the table's length, leaves slots outside every destination window unchanged, and leaves the last copy's destination window holding what its source window holds |
| `VkPipelineLayout.BindingOffset` | NRI-176/Source/VK/PipelineLayoutVK.hpp:19-34 | with global offsets ignored every offset is 0; otherwise a type takes its register class's offset |
| `VkPipelineLayout.Shift` | NRI-176/Source/VK/PipelineLayoutVK.hpp:66 | a shifted register is a 32-bit value, and is the plain sum whenever that fits in 32 bits |
| `VkPipelineLayout.RemapAll` | NRI-176/Source/VK/PipelineLayoutVK.hpp:65-67 | each range is shifted by its type's offset in 32-bit arithmetic, keeping the list's order and length |
| `VkPipelineLayout.FlatPrefix` | NRI-176/Source/VK/PipelineLayoutVK.hpp:37-39 | the ranges of the first sets number exactly as many as those sets declare |
| `VkPipelineLayout.Flat` | NRI-176/Source/VK/PipelineLayoutVK.hpp:37-42 | the flattened list has exactly the total range count |
| `VkPipelineLayout.FlatWindow` | NRI-176/Source/VK/PipelineLayoutVK.hpp:62-67 | set `i`'s ranges, remapped, sit in the flattened list from the number of ranges declared before set `i` |
| `VkPipelineLayout.AppendRemapped` | NRI-176/Source/VK/PipelineLayoutVK.hpp:63-67 | appending a set's ranges adds them, remapped, after the existing ones |
| `VkPipelineLayout.FlattenRanges` | NRI-176/Source/VK/PipelineLayoutVK.hpp:51-68 | the loop builds the flattened list, and each set's start is the number of ranges declared before it |
| `VkPipelineLayout.SizeSum` | NRI-176/Source/VK/PipelineLayoutVK.hpp:73-87 | the 32-bit offset accumulator stays below 2^32 |
| `VkPipelineLayout.PushConstantRanges` | NRI-176/Source/VK/PipelineLayoutVK.hpp:73-87 | push constants are laid back to back from offset 0, each starting where the previous one ends modulo 2^32 and keeping its size and stages |
| `VkPipelineLayout.PushDescriptors` | NRI-176/Source/VK/PipelineLayoutVK.hpp:100-122 | the push registers are the root descriptors shifted by their type's offset, then the root samplers shifted by the sampler offset, each sum taken modulo 2^32 |
| `VkPipelineLayout.RootSet` | NRI-176/Source/VK/PipelineLayoutVK.hpp:92-108 | the root set sits in the root space and has one single-descriptor range per root descriptor, at its register and of its type |
| `VkPipelineLayout.RangeBindingFlags` | NRI-176/Source/VK/PipelineLayoutVK.hpp:223-234 | a binding carries PARTIALLY_BOUND exactly when its range is partially bound, UPDATE_AFTER_BIND exactly when its range allows update after set, and VARIABLE_DESCRIPTOR_COUNT exactly when its range is a variable-sized array |
| `VkPipelineLayout.ExpandRange` | NRI-176/Source/VK/PipelineLayoutVK.hpp:219-257 | an array range becomes one binding holding all its descriptors; any other range becomes one single-descriptor binding per register, from its remapped base, counting modulo 2^32 |
| `VkPipelineLayout.SamplerBindings` | NRI-176/Source/VK/PipelineLayoutVK.hpp:259-286 | each root sampler becomes one immutable-sampler binding at its register shifted modulo 2^32 |
| `VkPipelineLayout.ExpandedRangesMatchCount` | NRI-176/Source/VK/PipelineLayoutVK.hpp:192-257 | the ranges expand into exactly as many bindings as the count loop reserves |
| `VkPipelineLayout.BindingCountAddsSamplers` | NRI-176/Source/VK/PipelineLayoutVK.hpp:192-198 | the reserved count is the range bindings plus one per root sampler |
| `VkPipelineLayout.CreateSetLayout` | NRI-176/Source/VK/PipelineLayoutVK.hpp:173-310 | a set layout holds exactly the reserved number of bindings: the expanded ranges first, then the sampler bindings |
| `VkPipelineLayout.PushLayoutMatchesPushDescriptors` | NRI-176/Source/VK/PipelineLayoutVK.hpp:100-126 | the push set layout has one single-descriptor binding per push register, in the same order and at the same register |
| `VkPipelineLayout.RootRangesExpandOneToOne` | NRI-176/Source/VK/PipelineLayoutVK.hpp:100-113 | root-descriptor ranges expand one binding each, at the register recorded for push descriptors |
| `VkPipelineLayout.MaxSpace` | NRI-176/Source/VK/PipelineLayoutVK.hpp:59 | the maximum is at least every set's space and is one of them |
| `VkPipelineLayout.SetNum` | NRI-176/Source/VK/PipelineLayoutVK.hpp:59-133 | the slot count is at least 1 and exceeds every used space, including the root set's |
| `VkPipelineLayout.SetNumIsTight` | NRI-176/Source/VK/PipelineLayoutVK.hpp:59-133 | the slot count is the largest used space plus one: unless it is 1, its last slot is a used space |
| `VkPipelineLayout.SpacesOf` | NRI-176/Source/VK/PipelineLayoutVK.hpp:149-152 | the declared spaces are exactly the sets' spaces |
| `VkPipelineLayout.PlaceSets` | NRI-176/Source/VK/PipelineLayoutVK.hpp:149-152 | placing sets keeps the slot table's length |
| `VkPipelineLayout.PlaceSetsFills` | NRI-176/Source/VK/PipelineLayoutVK.hpp:149-152 | a slot whose space some placed set declares holds one of those sets, of that space |
| `VkPipelineLayout.SlotsWith` | NRI-176/Source/VK/PipelineLayoutVK.hpp:134-157 | the slot table has one slot per space |
| `VkPipelineLayout.SlotsAsWritten` | NRI-176/Source/VK/PipelineLayoutVK.hpp:136-157 | the slot table built with the gap rule as written has one slot per space |
| `VkPipelineLayout.Slots` | NRI-176/Source/VK/PipelineLayoutVK.hpp:136-157 | the corrected slot table has one slot per space |
| `VkPipelineLayout.UnusedSpaceIsAGap` | NRI-176/Source/VK/PipelineLayoutVK.hpp:136 | any space below the slot count that no set uses makes the corrected rule see a gap |
| `VkPipelineLayout.SlotContent` | NRI-176/Source/VK/PipelineLayoutVK.hpp:144-157 | the root space holds the push layout; another declared space holds a set of that space; an unused space holds the dummy layout when gaps were detected, and nothing otherwise |
| `VkPipelineLayout.SlotsAreAllFilled` | NRI-176/Source/VK/PipelineLayoutVK.hpp:136-157 | with the corrected gap rule every slot holds a layout |
| `VkPipelineLayout.DistinctSpacesCount` | NRI-176/Source/VK/PipelineLayoutVK.hpp:136 | sets in distinct spaces use as many spaces as there are sets |
| `VkPipelineLayout.GapRulesAgreeOnDistinctSpaces` | NRI-176/Source/VK/PipelineLayoutVK.hpp:136 | when no two sets share a space, the written and the corrected gap rules agree |
| `VkPipelineLayout.DuplicateSpaceLeavesSlotUnwritten` | NRI-176/Source/VK/PipelineLayoutVK.hpp:136-157 | sets in spaces 0, 0 and 2 leave slot 1 empty as written, and fill it with the dummy layout when corrected |
| `VkPipelineLayout.EmptySetLayout` | NRI-176/Source/VK/PipelineLayoutVK.hpp:138-140 | the dummy layout has no bindings and no flags |
| `VkPipelineLayout.SetLayouts` | NRI-176/Source/VK/PipelineLayoutVK.hpp:51-142 | with the corrected gap rule, the created layouts are the declared sets' layouts in order, then the push layout when there is a root set, then the dummy layout when some space is unused |
| `VkPipelineLayout.LayoutsWith` | NRI-176/Source/VK/PipelineLayoutVK.hpp:51-142 | the same ordering for either gap rule |
| `VkPipelineLayout.SlotIndices` | NRI-176/Source/VK/PipelineLayoutVK.hpp:148-162 | with the corrected gap rule, the layouts handed to the pipeline layout are the filled slot table, one per space |
| `VkPipelineLayout.SlotOwner` | NRI-176/Source/VK/PipelineLayoutVK.hpp:144-157 | each slot names a created layout: the push layout for the root space, a set of that space for a declared space, and the dummy layout for an unused space |
| `VkPipelineLayout.SetBindings` | NRI-176/Source/VK/PipelineLayoutVK.hpp:41-62 | each set's binding info records the set and where its ranges start |
| `VkPipelineLayout.FlattenedSetsAreDescribed` | NRI-176/Source/VK/PipelineLayoutVK.hpp:41-68 | the flattened list and the set entries describe every set: each set's remapped ranges at its recorded start |
| `VkPipelineLayout.BuildBindingInfo` | NRI-176/Source/VK/PipelineLayoutVK.hpp:36-122 | the binding info describes the sets and their remapped ranges, the push constants back to back, the push registers, the root space and where the root samplers begin |
| `VkPipelineLayout.Create` | NRI-176/Source/VK/PipelineLayoutVK.hpp:17-171 | a failed native call returns its status; a created layout carries the binding info, the set layouts in creation order with the dummy only under the gap rule as written, the slot table as written (a slot may be unwritten), and the push-constant ranges |
| `VkPipelineLayout.WrittenSlotsNameCreatedLayouts` | NRI-176/Source/VK/PipelineLayoutVK.hpp:134-157 | as written, every used space's slot is written, an unused space's slot is written exactly when the rule sees a gap, and a written slot names a created layout (the dummy for an unused space) |
| `VkPipelineLayout.CreateCorrected` | NRI-176/Source/VK/PipelineLayoutVK.hpp:17-171 | the same creation with the corrected gap rule: every slot names a layout |
| `VkPipelineLayout.CreationsAgreeOnDistinctSpaces` | NRI-176/Source/VK/PipelineLayoutVK.hpp:134-157 | when no two sets share a space, the creation as written and the corrected one make the same layouts and slots |
| `VkPipelineLayout.SlotsNameCreatedLayouts` | NRI-176/Source/VK/PipelineLayoutVK.hpp:144-157 | with the corrected gap rule every slot names a created layout, and an unused space names the dummy layout |

## Left out

- Residency and memory priorities are floating-point conversions. The residency call is a status parameter, and the priority value is not modelled.
- Queries of memory requirements, format tables (DXGI and Vulkan format properties and strides) and the texture-description fix-ups are out of scope. The texture-description fix-ups are FixTextureDesc and the Vulkan FixCreateInfo. The format results are parameters.
- GPU virtual addresses and device addresses are parameters taken from the native queries.
- Native creation of samplers, including the immutable samplers of root samplers, is out of scope.
- NVAPI and the Agility SDK code paths of the D3D12 bind are out of scope. The model follows the path without the Agility SDK, where the initial-state logic lives.
- The ExclusiveScope lock around pool allocation and reset is out of scope. The model is single-threaded.
- Shader-stage flag conversion is out of scope. Stages are carried through as given.
- Failures of descriptor-set-layout creation inside `CreateSetLayout` are out of scope. The source ignores them as well.
- Debug names are out of scope.
- D3d12DescriptorPool.AllocateDescriptorSets: heap cursors, `num` and the pool's set counter are unbounded naturals. The header that declares their widths is not part of this model, so the 32-bit wrap of those counters is not modelled. The per-set heap offsets are truncated to 32 bits as the source does.
- D3d12DescriptorPool.DescriptorHandleCPU: the handle is `base + offset * increment` without a 64-bit wrap, because the handle type's header is not part of this model.
- D3d12DescriptorPool.DescriptorHandleGPU: the UINT64 handle `base + offset * increment` is not wrapped at 2^64. GPU virtual addresses are far below that bound, and `HandlesAreDistinct` relies on the unwrapped sum.
- D3d12DescriptorSet.GetDescriptorHandleGPU: the same UINT64 sum, likewise not wrapped.
- The `Bind` call (SetDescriptorHeaps) is modelled only through the bound-heap list `Existing`.
- The D3D12 descriptor set's pointer to its pool is modelled by the heap bases the set carries.
- CopyDescriptorsSimple is modelled as per-address copies into a map from CPU handle to descriptor.
- D3d12DescriptorSet.UpdateDescriptorRanges: states only that untargeted addresses keep their descriptors. What one update writes is stated by `D3d12DescriptorSet.UpdateRange`, because a later update may overwrite an earlier one.
- D3d12DescriptorSet.Copy: states only that addresses outside every destination window keep their descriptors. What one copy writes is stated by `D3d12DescriptorSet.CopyRange`.
- D3D11 descriptor-set creation (DescriptorSetD3D11.hpp:3-7) only stores its three pointers. It is modelled by the `DescriptorSet` constructor.
- D3d11DescriptorSet.UpdateDescriptorRanges: the source does not check that an update stays inside its range or inside the set's table. The model requires the window to lie inside the table, which memcpy needs to be defined.
- VkAccelerationStructure.BindBuffer: DeviceVK::BindBufferMemory is not part of this model. The device-level bind at AccelerationStructureVK.hpp:74 is taken to be the buffer's own `VkBuffer.BindMemory` with the native bind performed (`bindMemory` true).
- D3d11DescriptorSet.Copy: memcpy of overlapping windows is undefined behaviour in C++. `ValidCopy` requires the source and destination windows to be apart. Of the batch's contents, only the last copy's destination window is stated, because a later copy may overwrite an earlier one's window. What each copy writes is stated by `D3d11DescriptorSet.CopyRange`.
- D3d11Descriptor.CreateBufferView: requires a non-zero element size. When the view has no structure stride and the patched format's stride is 0 (UNKNOWN), the source divides by zero (DescriptorD3D11.hpp:386-387), which is undefined behaviour in C++; that case is not modelled.
- The memory-type word is packed and unpacked by Pack/Unpack. `MemoryTypeInfo` is an abstract record of its fields, so the bit layout is not modelled.
- Sampler descriptors (`Create(SamplerDesc)`) are out of scope beyond their release in `VkDescriptor.Destroy`.

## Findings

| source | as written | input that shows it | evidently intended | confidence | as-written member | corrected member |
|---|---|---|---|---|---|---|
| NRI-176/Source/D3D11/DescriptorD3D11.hpp:189 | the cube-array view's cube count divides the requested `layerNum` by 6 before REMAINING is resolved | a 12-layer 2D texture viewed as a cube array with layerOffset 0 and layerNum REMAINING (0) gives NumCubes 0 | divide the resolved layer count (`remainingLayers`), giving 2 cubes | not executed | `D3d11Descriptor.Create2D` via `D3d11Descriptor.CubeCountAsWritten` (`D3d11Descriptor.Create2DDropsRemainingCubes`, `D3d11Descriptor.CubeCountAsWrittenDropsRemainingLayers`) | `D3d11Descriptor.Create2DCorrected` via `D3d11Descriptor.CubeCount` (`D3d11Descriptor.CorrectedCubeArrayCoversRemainingLayers`, `D3d11Descriptor.CubeArrayStaysInsideTexture`, `D3d11Descriptor.Create2DVariantsAgree`) |
| NRI-176/Source/VK/PipelineLayoutVK.hpp:136 | gaps are detected by comparing the slot count with the number of declared sets (plus the root set), so sets that share a space hide a gap | sets in spaces 0, 0 and 2 and no root set: setNum 3 is not above 3, so no dummy layout is made and slot 1 is never written | compare with the number of distinct used spaces, so every slot receives a layout | not executed | `VkPipelineLayout.Create` via `VkPipelineLayout.SlotsAsWritten` (`VkPipelineLayout.DuplicateSpaceLeavesSlotUnwritten`, `VkPipelineLayout.WrittenSlotsNameCreatedLayouts`) | `VkPipelineLayout.CreateCorrected` via `VkPipelineLayout.Slots` (`VkPipelineLayout.SlotsAreAllFilled`, `VkPipelineLayout.SlotsNameCreatedLayouts`, `VkPipelineLayout.CreationsAgreeOnDistinctSpaces`) |
