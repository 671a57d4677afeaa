# rust_vulkan_compute, modelled in Dafny

This project models the GPU side of a small Rust program that multiplies two
N×N `f32` matrices with a Vulkan compute shader through the `ash` bindings.
It covers:

- choosing a physical device and a compute queue family;
- choosing a memory type and creating a buffer with bound memory;
- building the engine (`VulkanData::new`): the device, three storage buffers
  A, B and C, the specialised compute pipeline, and the command, descriptor
  and query pools;
- one timed multiply (`VulkanData::multiply`): upload A and B, record and
  submit the dispatch between two timestamps, wait, read the queries, release
  the command buffer and the descriptor set, then read C back through a
  staging buffer;
- teardown (`VulkanData::clean`).

The Vulkan driver is a class, `Gpu.Driver`. It holds:

- the set of live handles and the counter that issues fresh ones;
- which memory is mapped and which memory each buffer is bound to;
- how many command buffers and descriptor sets are allocated from the pools;
- the command buffer's state (Initial, Recording, Executable, Pending,
  Invalid) and the commands recorded into it;
- the availability of the two timestamp query slots;
- a log of every call that took effect.

Each driver call either succeeds or fails. Which entry points fail is the
driver's constant set `failing`, so every error path of the Rust code can be
reached and is stated. Device memory is an `array<bv8>` per allocation.
Uploads write into it in place, and the device's buffer copy copies from it.

Files:

- `common.dfy`: `Result`, which is Ok, Err or Panic. Panic models a Rust
  `assert!` that fires.
- `bytes.dfy`: `to_ne_bytes` and `f32` slices as bytes.
- `gpu.dfy`: the driver, timestamp queries and trace ordering.
- `memory_types.dfy` and `mem_buffer.dfy`: memory-type search and
  `create_mem_buffer`.
- `physical_device.dfy` and `queue_family.dfy`: device and queue-family
  selection.
- `pipeline.dfy`: specialisation constants and `create_pipeline`.
- `transfer.dfy`: `copy_data_to_buffer` and `read_data_from_buffer`.
- `vulkan_data.dfy`: `new`, `clean` and `multiply`.

`constants.rs` is not part of this model. `N`, `WORKGROUP_SIZE` and
`DATA_SIZE` are the fields of `Engine.Constants`. The only assumption made
about them is that `WORKGROUP_SIZE` is non-zero and fits in a `u32`.

## Model

| member | source | states |
|---|---|---|
| Bytes.ToNeBytes | src/vulkan/create_pipeline.rs:34-36 | `to_ne_bytes` gives 4 bytes, and reading them back gives the same `u32` |
| Bytes.EncodeF32s | src/vulkan/copy_data_to_buffer.rs:25-33 | the byte view of a slice of k floats is 4k bytes long |
| Bytes.DecodeF32s | src/vulkan/read_data_from_buffer.rs:89-91 | reading `count` floats from a region of at least 4·count bytes gives exactly `count` floats |
| Bytes.EncodeF32sAt | src/vulkan/copy_data_to_buffer.rs:25-33 | element k of an `f32` slice occupies bytes 4k..4k+4 of its byte view |
| Bytes.DecodeF32sPrefix | src/vulkan/read_data_from_buffer.rs:89-91 | reading `count` floats depends only on the first 4·count bytes |
| Bytes.DecodeEncode | src/vulkan/copy_data_to_buffer.rs:25-33 | viewing floats as bytes and reading them back gives the same floats |
| MemoryTypes.GetSupportedMemoryPropertyIndex | src/vulkan/create_mem_buffer.rs:80-102 | an Ok index is below the type count, its bit is set in the requirement mask and its flags contain every desired flag; no smaller index qualifies; Err exactly when no index qualifies, with no retry on relaxed flags; at most 32 types |
| MemBuffers.CreateMemBuffer | src/vulkan/create_mem_buffer.rs:11-39 | creates a buffer, finds the first suitable type, allocates the required size and binds at offset 0; the returned size is the requested size, not the requirement size; the memory is placed in the first suitable type and is host-visible exactly when that type has HOST_VISIBLE; each failing step gives its own Err and leaks what was already created |
| PhysicalDevices.MakeApiVersion | src/vulkan/get_physical_device.rs:55-61 | the packed version decodes back to its variant, major (bits 22–28), minor (12–21) and patch (0–11) |
| PhysicalDevices.AsWrittenRejectsOnlyBelow0_2 | src/vulkan/get_physical_device.rs:55-61 | the guard as written rejects only major 0 with minor below 2, so versions 1.0 and 1.1 pass it although the corrected guard rejects them |
| PhysicalDevices.VersionRejectedIsBelow1_2 | src/vulkan/get_physical_device.rs:55-61 | the corrected guard rejects exactly the versions below 1.2.0 |
| PhysicalDevices.FirstMissing | src/vulkan/get_physical_device.rs:29-36 | None iff every required name is supported; otherwise the first unsupported name in list order |
| PhysicalDevices.ExtensionsCheckMeaning | src/vulkan/get_physical_device.rs:23-38 | the extension check is Ok iff every required name is in the enumerated set, and on failure it names the first missing one |
| PhysicalDevices.CheckRequiredDeviceExtensions | src/vulkan/get_physical_device.rs:3-39 | the two loops (building the set, then searching it) compute the extension check, including the enumeration error |
| PhysicalDevices.CheckDeviceSuitability | src/vulkan/get_physical_device.rs:41-100 | Ok implies the version passes the guard as written (not major 0 with minor below 2), non-zero fragment and vertex stores, timestamp support, non-zero timestamp period, and every required extension present |
| PhysicalDevices.CheckDeviceSuitabilityCorrected | src/vulkan/get_physical_device.rs:55-61 | with the intended version guard: every version below 1.2.0 fails with the version message, and Ok implies version ≥ 1.2.0, the chain as written passes, and every feature and extension is present |
| PhysicalDevices.OldDeviceAccepted | src/vulkan/get_physical_device.rs:41-100 | a Vulkan 1.0 or 1.1 device with every feature and extension passes the chain as written, so it can be chosen, while the corrected chain rejects it with the version message |
| PhysicalDevices.SuitabilityIsFirstFailingGuard | src/vulkan/get_physical_device.rs:55-97 | the guards run in the fixed order version, fragment, vertex, timestamps, period, extensions, and the first failing guard's message is the result |
| PhysicalDevices.GetPhysicalDevice | src/vulkan/get_physical_device.rs:102-142 | Err on a failed enumeration; otherwise the first device in enumeration order that passes the chain as written (so a 1.0 or 1.1 device can be picked), or Err iff none passes |
| QueueFamilies.GetQueueFamily | src/vulkan/get_queue_family.rs:3-21 | an Ok index is in range, has queues and the COMPUTE flag, and no earlier family does; Err iff no family qualifies, with the graphics/present message |
| Pipelines.FindEntry | src/vulkan/create_pipeline.rs:14-32 | the entry found names the constant id; None only when no entry names it |
| Pipelines.LayoutInBoundsAndDisjoint | src/vulkan/create_pipeline.rs:14-38 | the blob is 12 bytes, every entry's range lies inside it and the three ranges are pairwise disjoint |
| Pipelines.ConstantsDecode | src/vulkan/create_pipeline.rs:14-38 | constants 0 and 1 decode to WORKGROUP_SIZE and constant 2 decodes to 1; other ids have no value |
| Pipelines.CreatePipeline | src/vulkan/create_pipeline.rs:5-65 | one COMPUTE pipeline with entry point "main", this specialisation and this layout, or Err when creation fails |
| Transfers.UploadAssertIgnoresOffset | src/vulkan/copy_data_to_buffer.rs:10-12 | the size assertion equals the bounds check only at offset 0; offset 4 with one float in a 4-byte buffer passes the assertion but writes out of bounds |
| Transfers.UploadFitsImpliesAssert | src/vulkan/copy_data_to_buffer.rs:10-12 | the corrected check is stronger than the assertion, and the two agree at offset 0 |
| Transfers.CopyDataToBuffer | src/vulkan/copy_data_to_buffer.rs:4-40 | Panic when the data does not fit; Err before any write when the memory cannot be mapped (a failing map or memory that is not host-visible); otherwise bytes [offset, offset + 4·len) hold the data, nothing else changes, and the memory is mapped and then unmapped |
| Transfers.UploadedRangeDecodes | src/vulkan/copy_data_to_buffer.rs:25-33 | the uploaded range reads back as the data |
| Transfers.UploadKeepsTheRest | src/vulkan/copy_data_to_buffer.rs:25-33 | every byte outside the uploaded range is unchanged |
| Transfers.ReadAssertIgnoresCount | src/vulkan/read_data_from_buffer.rs:11 | the assertion `size <= mem_buffer.size` lets through a read of N·N floats that exceeds `size`; both checks agree when `size` is 4·N·N |
| Transfers.SubmitCopyAndWait | src/vulkan/read_data_from_buffer.rs:26-58 | allocate, begin, record one copy from offset 0 to offset 0 of `size` bytes, end, submit, wait idle, in that order; each failing call gives its own Err |
| Transfers.CopyToStaging | src/vulkan/read_data_from_buffer.rs:26-75 | after the wait, the staging bytes equal the source bytes up to `size`; then the command buffer is freed and the pool reset |
| Transfers.CompleteCopy | src/vulkan/read_data_from_buffer.rs:32-40 | once the copy has executed, the first `size` bytes of the destination equal the source's and the rest of the destination is unchanged |
| Transfers.ReadAndReleaseStaging | src/vulkan/read_data_from_buffer.rs:79-105 | maps, reads `count` floats, unmaps, destroys the staging buffer and then its memory; Ok iff the staging memory can be mapped; a map failure returns Err and leaks the staging buffer |
| Transfers.ReadThroughStaging | src/vulkan/read_data_from_buffer.rs:26-105 | the result is the first N·N floats of the source buffer; the staging buffer is gone and no command buffer is left |
| Transfers.ReadDataFromBuffer | src/vulkan/read_data_from_buffer.rs:6-109 | Panic unless the read fits (corrected check); Ok iff every driver call succeeds; the result is exactly the first N·N floats of the source; live handles and pools are back where they were; the log is the read-back trace |
| Transfers.Overwrite | src/vulkan/copy_data_to_buffer.rs:25-33 | writing bytes into a region keeps its length |
| Transfers.ReadBackTraceOrder | src/vulkan/read_data_from_buffer.rs:14-105 | in the read-back trace, staging is created before the copy, the wait comes before mapping, unmapping before freeing, the buffer before its memory, and the free before the pool reset |
| Gpu.RoundUp | src/vulkan/create_mem_buffer.rs:104-113 | the allocation size is at least the requested size and less than one alignment above it |
| Gpu.ExecuteQueries | src/vulkan/vulkan_data.rs:246-264 | executing commands keeps the number of query slots |
| Gpu.ExecuteQueriesAppend | src/vulkan/vulkan_data.rs:246-264 | executing two command sequences one after the other is executing their concatenation |
| Gpu.TimestampPairAvailable | src/vulkan/vulkan_data.rs:246-264 | a reset followed by both timestamp writes leaves both slots available |
| Gpu.ExecuteQueriesNoReset | src/vulkan/vulkan_data.rs:249-264 | without a reset, slots only become available, and a written slot is available |
| Gpu.PrecedesWithin | src/vulkan/vulkan_data.rs:193-331 | an order inside one part of a trace holds in the whole trace |
| Gpu.PrecedesAcross | src/vulkan/vulkan_data.rs:193-331 | an event of an earlier part of a trace precedes every event of a later part |
| Gpu.Driver.constructor | src/vulkan/vulkan_data.rs:28-36 | the driver starts with only the instance live, nothing mapped and empty pools |
| Gpu.Driver.Create | src/vulkan/vulkan_data.rs:43-130 | a `create_*` call gives a fresh handle and logs it, or fails and changes nothing |
| Gpu.Driver.CreateBuffer | src/vulkan/create_mem_buffer.rs:41-59 | a fresh buffer with the given size and usage, or nothing on failure |
| Gpu.Driver.AllocateMemory | src/vulkan/create_mem_buffer.rs:104-123 | fresh memory of the given size from the given type, host-visible iff the type has HOST_VISIBLE, or nothing on failure |
| Gpu.Driver.BindBufferMemory | src/vulkan/create_mem_buffer.rs:34-38 | binds the memory to the buffer at the given offset, or nothing on failure |
| Gpu.Driver.CreateComputePipeline | src/vulkan/create_pipeline.rs:58-64 | a fresh pipeline recorded with its create-info, or nothing on failure |
| Gpu.Driver.Destroy | src/vulkan/vulkan_data.rs:155-191 | an unmapped live handle stops being live, and the destruction is logged |
| Gpu.Driver.MapMemory | src/vulkan/copy_data_to_buffer.rs:14-23 | succeeds iff the call does not fail and the memory is host-visible; the memory then becomes mapped, and nothing changes otherwise |
| Gpu.Driver.UnmapMemory | src/vulkan/copy_data_to_buffer.rs:35-37 | the memory stops being mapped |
| Gpu.Driver.AllocateCommandBuffer | src/vulkan/allocate_command_buffer.rs:5-20 | one more command buffer from the pool, in the Initial state, or nothing on failure |
| Gpu.Driver.BeginCommandBuffer | src/vulkan/begin_command_buffer.rs:5-21 | Initial becomes Recording, or nothing changes on failure |
| Gpu.Driver.Record | src/vulkan/vulkan_data.rs:206-264 | a command is appended to the buffer being recorded |
| Gpu.Driver.EndCommandBuffer | src/vulkan/vulkan_data.rs:266-268 | Recording becomes Executable, or nothing changes on failure |
| Gpu.Driver.Submit | src/vulkan/submit.rs:5-19 | Executable becomes Pending, or nothing changes on failure |
| Gpu.Driver.WaitIdle | src/vulkan/vulkan_data.rs:275-277 | pending work has executed: its timestamp commands have taken effect and the one-time-submit buffer is Invalid |
| Gpu.Driver.GetQueryPoolResults | src/vulkan/vulkan_data.rs:281-289 | succeeds only when every requested slot is available |
| Gpu.Driver.FreeCommandBuffer | src/vulkan/vulkan_data.rs:302-303 | one fewer command buffer is allocated |
| Gpu.Driver.ResetCommandPool | src/vulkan/vulkan_data.rs:306-311 | the command buffer returns to Initial with nothing recorded |
| Gpu.Driver.AllocateDescriptorSet | src/vulkan/allocate_descriptor_set.rs:5-23 | one more set, which fails once the pool's single set is taken |
| Gpu.Driver.UpdateDescriptorSet | src/vulkan/update_descriptor_set.rs:5-37 | the set's bindings 0, 1 and 2 point at the given buffers |
| Gpu.Driver.ResetDescriptorPool | src/vulkan/vulkan_data.rs:314-316 | no descriptor set remains allocated |
| Engine.CreateMatrixBuffers | src/vulkan/vulkan_data.rs:55-88 | A, B and C are created in that order: A and B for storage and transfer-destination, C for storage and transfer-source, all DEVICE_LOCAL with DATA_SIZE bytes and distinct memory, each in the first suitable type and host-visible iff that type is; Ok iff each step can succeed |
| Engine.CreatePipelineObjects | src/vulkan/vulkan_data.rs:94-117 | shader module, set layout, pipeline layout, pipeline; the shader module is destroyed right after the pipeline is created |
| Engine.CreatePools | src/vulkan/vulkan_data.rs:120-130 | command pool, descriptor pool, query pool, in that order |
| Engine.CreateDeviceAndBuffers | src/vulkan/vulkan_data.rs:43-88 | the device comes first, then buffers A, B and C |
| Engine.CreatePipelineAndPools | src/vulkan/vulkan_data.rs:94-130 | the pipeline objects come before the pools |
| Engine.AssembledEngineBuilt | src/vulkan/vulkan_data.rs:134-152 | the handles created in that order make a valid engine whose log is the construction trace |
| Engine.CreateRestOfEngine | src/vulkan/vulkan_data.rs:94-152 | once the device and buffers exist, the pipeline objects and pools are created; Ok iff each of those calls can succeed, and the engine is then built, with A, B and C still in their memory types |
| Engine.CreateResources | src/vulkan/vulkan_data.rs:43-152 | Ok iff every driver step can succeed; the engine then holds exactly the new handles, the construction trace and the specialised pipeline, and A, B and C sit in the first DEVICE_LOCAL type allowed to them, host-visible iff that type is; command buffers, descriptor sets, the command buffer's state and recording, query availability and the mapped set are untouched; on Err, what was created earlier is leaked |
| Engine.NewTraceOrder | src/vulkan/vulkan_data.rs:43-130 | the device is created first; the set layout precedes the pipeline layout, which precedes the pipeline; the shader module is destroyed after the pipeline is created, and nothing else is destroyed |
| Engine.FreshEngineValid | src/vulkan/vulkan_data.rs:134-152 | a freshly built engine satisfies the engine invariant |
| Engine.NewSucceedsOnChosen | src/vulkan/vulkan_data.rs:36-152 | `new` succeeds iff the first suitable device has a compute family and every driver step can succeed |
| Engine.ChooseDevice | src/vulkan/vulkan_data.rs:36-41 | picks the first device that passes the chain as written and its first compute family; each failure has its own Err |
| Engine.New | src/vulkan/vulkan_data.rs:28-153 | Ok iff the first device that passes the chain as written has a compute family and every driver step succeeds; the engine is built on that device and its first compute queue family, with A, B and C placed as `create_mem_buffer` places them; command buffers, descriptor sets, the command buffer's state and recording, query availability and the mapped set are untouched |
| Engine.TeardownRespectsDependencies | src/vulkan/vulkan_data.rs:159-189 | no handle is destroyed before a handle that depends on it |
| Engine.TeardownEvents | src/vulkan/vulkan_data.rs:159-189 | teardown order: query pool, descriptor pool, command pool, pipeline, pipeline layout, set layout, then A, B and C (each buffer before its memory), then device, then instance |
| Engine.ReleaseMemBuffer | src/vulkan/vulkan_data.rs:173-186 | a buffer is destroyed, then its memory is freed |
| Engine.ReleasePipelineObjects | src/vulkan/vulkan_data.rs:159-171 | the pools, the pipeline and the layouts are destroyed in source order |
| Engine.ReleaseStorageAndDevice | src/vulkan/vulkan_data.rs:173-189 | A, B and C are released (each buffer before its memory), then the device, then the instance |
| Engine.Clean | src/vulkan/vulkan_data.rs:155-191 | every owned handle stops being live, and the log gains exactly the teardown events in teardown order |
| Engine.NewThenCleanReleasesAll | src/vulkan/vulkan_data.rs:28-191 | `new` followed by `clean` leaves only the handles that existed before, minus the instance; every object `new` creates is destroyed by `clean` |
| Engine.GroupCount | src/vulkan/vulkan_data.rs:229 | GROUP_COUNT is at most N taken as `u32`, so it fits the `u32` dispatch argument |
| Engine.GroupCountCovers | src/vulkan/vulkan_data.rs:229 | GROUP_COUNT·WORKGROUP_SIZE ≤ N < (GROUP_COUNT+1)·WORKGROUP_SIZE (N as `u32`, division truncating); the grid covers N exactly iff WORKGROUP_SIZE divides N, which is not checked |
| Engine.PushConstantsFitLayout | src/vulkan/vulkan_data.rs:206-212 | the push constant is N as a `u32`, and it fits the 4-byte push range at offset 0 |
| Engine.TimestampsAvailable | src/vulkan/vulkan_data.rs:246-264 | executing the recorded commands leaves both timestamp slots available |
| Engine.BeginMultiply | src/vulkan/vulkan_data.rs:199-227 | allocates a command buffer and a descriptor set, begins, binds A, B and C, and records the push constant, the set bind and the pipeline bind |
| Engine.RecordTimedDispatch | src/vulkan/vulkan_data.rs:246-264 | records a reset of slots 0–1, timestamp 0, the dispatch (G, G, 1), then timestamp 1 |
| Engine.RecordMultiply | src/vulkan/vulkan_data.rs:199-264 | Panic (X before Y) unless GROUP_COUNT fits both limits; otherwise the setup and timed dispatch are recorded |
| Engine.ExecuteTimed | src/vulkan/vulkan_data.rs:266-289 | end, submit, wait idle, then read both query results, in that order |
| Engine.ReleaseCommandResources | src/vulkan/vulkan_data.rs:302-316 | after the free and the two resets, no command buffer is recording and no descriptor set is allocated |
| Engine.UploadInputs | src/vulkan/vulkan_data.rs:194-195 | A's bytes, then B's bytes, are overwritten at offset 0 with the inputs; Ok iff both fit and both memories can be mapped; nothing is allocated |
| Engine.RunTimedDispatch | src/vulkan/vulkan_data.rs:199-316 | the command buffer is recorded and run, and the pools are left as they were found |
| Engine.Multiply | src/vulkan/vulkan_data.rs:193-331 | Ok iff the uploads fit, A's and B's memory is host-visible, the grid fits the limits and every driver call succeeds; A's and B's host visibility is kept; the inputs are written into A and B; the result is the first N·N floats of C; no handle, command buffer or descriptor set is left over; the log is upload, run, read back |
| Engine.MultiplyTraceOrder | src/vulkan/vulkan_data.rs:194-327 | uploads and the descriptor update precede the submit; reset → timestamp 0 → dispatch → timestamp 1 → end; wait idle precedes the query read; the read-back comes after the descriptor pool reset and the wait |
| Engine.MultiplyUploadsBeforeSubmit | src/vulkan/vulkan_data.rs:194-203 | both uploads and the descriptor update precede the submit |
| Engine.MultiplyRunOrdered | src/vulkan/vulkan_data.rs:246-289 | reset → timestamp 0 → dispatch → timestamp 1 → end, and wait idle precedes the query read |
| Engine.MultiplyReadBackAfterRun | src/vulkan/vulkan_data.rs:314-327 | the staging buffer is created after the descriptor pool reset, and the copy is recorded after the wait |
| Engine.RunTraceOrder | src/vulkan/vulkan_data.rs:199-316 | the order of the run trace on its own, with the submit, the wait and the pool reset present in it |

## Left out

- Floating point: `f32` values are opaque 32-bit patterns. The model does not capture the shader's arithmetic or the CPU reference multiply in `src/matrix.rs`. C is read back as the device holds it.
- GPU and wall-clock timing: the `timestamp_period` conversion, the `u64` tick subtraction, `Instant` and the printing are left out, because they are floating point and I/O. The model keeps which query slots are available and reads the results.
- Logging, debug-utils object names and `src/main.rs` are left out: they only observe or are demo code.
- `create_shader_module` is a single `create_*` call that may fail. Reading the SPIR-V file is I/O and is left out.
- Entry loading, instance creation and `get_device_queue` are not part of this model. The instance exists before `new`, and the queue is implied by the queue-family index.
- The logical device's create-info (extensions, features, queue priorities) is not part of this model. Device creation is one call that may fail.
- `get_physical_device_properties`, `get_physical_device_features`, the memory properties and the queue-family properties are all taken as one `DeviceInfo` per device.
- The memory requirements of every buffer (type mask and alignment) are the driver's constants, not per buffer.
- MemBuffers.CreateMemBuffer: `create_mem_buffer` in `src/vulkan/create_mem_buffer.rs:11-16` takes only the memory flags and fixes DATA_SIZE and STORAGE_BUFFER usage, but its callers at `src/vulkan/vulkan_data.rs:55-62` and `src/vulkan/read_data_from_buffer.rs:14-23` pass size and usage too. The model takes size and usage as parameters, as the callers do.
- Transfers.CopyDataToBuffer: `copy_data_to_buffer` takes an offset, but the call sites at `src/vulkan/vulkan_data.rs:194-195` pass none. `multiply` is modelled with offset 0.
- Driver failures are static: each entry point either always fails or never fails (`Driver.failing`). Transient failures are not modelled.
- Aliasing between a host pointer and device memory is not modelled. The mapped range is written through the memory's byte array.
- Engine.PushConstantsFitLayout is a stated property that Dafny proves without further proof steps.
- The logical device's error message (`Engine.CreateDeviceMessage`) is a placeholder: the source of `create_logical_device` is not part of this model.
- Gpu.Driver.MapMemory: Vulkan makes mapping memory without HOST_VISIBLE invalid usage, with undefined behaviour. The model treats it as a failed map. On the engine's DEVICE_LOCAL buffers this means `multiply` fails unless the chosen type is also HOST_VISIBLE.
- Device selection (`GetPhysicalDevice`, `New`) runs the version guard as the source writes it. The intended guard is stated in `PhysicalDevices.CheckDeviceSuitabilityCorrected`, and no device selection is modelled with it.
- Gpu.RoundUp: the upper bound on the allocation size is this model driver's choice. Vulkan promises only the lower bound.
- Engine.Multiply: it does not state that the result is the product of A and B. The shader is not modelled, so the result is C's first N·N floats as the device holds them.

## Findings

| source | as written | input that shows it | evidently intended | confidence | as-written member | corrected member |
|---|---|---|---|---|---|---|
| src/vulkan/get_physical_device.rs:55-61 | a device is rejected only when `major < 1 && minor < 2` | API version 1.0.0 or 1.1.0 passes the guard, although the message says 1.2.0 is required | reject every version below 1.2.0 | not executed | PhysicalDevices.AsWrittenRejectsOnlyBelow0_2 | PhysicalDevices.CheckDeviceSuitabilityCorrected |
| src/vulkan/copy_data_to_buffer.rs:12 | `assert!(size <= mem_buffer.size)` ignores `offset` | offset 4, one float, buffer of 4 bytes: the assertion passes and bytes 4..8 are written out of bounds | `offset + size <= mem_buffer.size` | not executed | Transfers.UploadAssertIgnoresOffset | Transfers.CopyDataToBuffer |
| src/vulkan/read_data_from_buffer.rs:11 | `assert!(size <= mem_buffer.size)`, then N·N floats are read whatever `size` is (lines 89-91) | N = 2, size = 8, buffer of 8 bytes: the assertion passes and 16 bytes are read from an 8-byte staging buffer | also require `N·N·4 <= size` | not executed | Transfers.ReadAssertIgnoresCount | Transfers.ReadDataFromBuffer |
