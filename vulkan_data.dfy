/** The engine itself (src/vulkan/vulkan_data.rs): the resources it builds
    once, the matrix multiplication it drives through the driver, and the
    teardown. */
module Engine {
  import opened Common
  import opened Bytes
  import opened Gpu
  import opened MemoryTypes
  import opened MemBuffers
  import opened QueueFamilies
  import opened PhysicalDevices
  import opened Pipelines
  import opened Transfers

  /** The compile-time constants of the engine: the matrix dimension N, the
      workgroup tile WORKGROUP_SIZE and the byte size DATA_SIZE of one matrix. */
  datatype Constants = Constants(n: nat, workgroupSize: nat, dataSize: nat)

  /** The message of the logical-device step. The source of that step is not
      part of this model, so this text is a placeholder, not the source's. */
  const CreateDeviceMessage := "failed to create logical device"
  const CreateShaderModuleMessage := "failed to create shader module \"shaders/shader.comp.spv\""
  const CreateSetLayoutMessage := "failed to create descriptor set layout"
  const CreatePipelineLayoutMessage := "failed to create pipeline layout"
  const CreateCommandPoolMessage := "failed to create command pool"
  const CreateDescriptorPoolMessage := "failed to create descriptor pool"
  const CreateQueryPoolMessage := "failed to create query pool"
  const AllocateDescriptorSetMessage := "failed to allocate descriptor set"
  const QueryResultsMessage := "failed to get query pool results"
  const ResetDescriptorPoolMessage := "failed to reset descriptor pool"
  const GroupCountXMessage :=
    "assertion failed: GROUP_COUNT <= self.physical_device_properties.limits.max_compute_work_group_count[0]"
  const GroupCountYMessage :=
    "assertion failed: GROUP_COUNT <= self.physical_device_properties.limits.max_compute_work_group_count[1]"

  /** WORKGROUP_SIZE as the `u32` the pipeline's specialization carries. */
  function WorkgroupSizeBits(c: Constants): bv32
    requires c.workgroupSize < U32Limit
  {
    c.workgroupSize as bv32
  }

  /** Usage of the input matrices A and B, and of the output matrix C. */
  const InputUsage: bv32 := StorageBuffer | TransferDst
  const OutputUsage: bv32 := StorageBuffer | TransferSrc

  /** `VulkanData`: the driver the engine talks to and every handle it owns.
      `properties` is what the driver reports for the chosen physical device. */
  datatype VulkanData = VulkanData(
    gpu: Driver,
    constants: Constants,
    physicalDevice: nat,
    properties: DeviceInfo,
    queueFamily: nat,
    device: Obj,
    memBufferA: MemBuffer,
    memBufferB: MemBuffer,
    memBufferC: MemBuffer,
    descriptorSetLayout: Obj,
    pipelineLayout: Obj,
    pipeline: Obj,
    commandPool: Obj,
    descriptorPool: Obj,
    queryPool: Obj)

  /** No handle occurs twice. */
  predicate Distinct(s: seq<Obj>) {
    forall i, j :: 0 <= i < j < |s| ==> s[i] != s[j]
  }

  /** Every handle the engine owns, in the order clean releases them. */
  function TeardownOrder(vd: VulkanData): seq<Obj> {
    [ vd.queryPool, vd.descriptorPool, vd.commandPool,
      vd.pipeline, vd.pipelineLayout, vd.descriptorSetLayout,
      vd.memBufferA.buffer, vd.memBufferA.deviceMemory,
      vd.memBufferB.buffer, vd.memBufferB.deviceMemory,
      vd.memBufferC.buffer, vd.memBufferC.deviceMemory,
      vd.device, vd.gpu.Instance() ]
  }

  /** A matrix buffer was asked for DATA_SIZE bytes, and its memory holds at least that many. */
  predicate MatrixBuffer(vd: VulkanData, m: MemBuffer) {
    m.size == vd.constants.dataSize <= m.bytes.Length
  }

  /** The handles the engine owns, as a set. */
  function Owned(vd: VulkanData): set<Obj> {
    { vd.queryPool, vd.descriptorPool, vd.commandPool,
      vd.pipeline, vd.pipelineLayout, vd.descriptorSetLayout,
      vd.memBufferA.buffer, vd.memBufferA.deviceMemory,
      vd.memBufferB.buffer, vd.memBufferB.deviceMemory,
      vd.memBufferC.buffer, vd.memBufferC.deviceMemory,
      vd.device, vd.gpu.Instance() }
  }

  /** Each handle names an object of its own kind, and the three buffers (and
      the three memories) are three different objects; so no handle occurs twice. */
  predicate HandlesDistinct(vd: VulkanData) {
    && vd.queryPool.kind == QueryPoolObj && vd.descriptorPool.kind == DescriptorPoolObj
    && vd.commandPool.kind == CommandPoolObj && vd.pipeline.kind == PipelineObj
    && vd.pipelineLayout.kind == PipelineLayoutObj && vd.descriptorSetLayout.kind == SetLayoutObj
    && vd.device.kind == DeviceObj
    && vd.memBufferA.buffer.kind == BufferObj && vd.memBufferB.buffer.kind == BufferObj && vd.memBufferC.buffer.kind == BufferObj
    && vd.memBufferA.deviceMemory.kind == MemoryObj && vd.memBufferB.deviceMemory.kind == MemoryObj
    && vd.memBufferC.deviceMemory.kind == MemoryObj
    && vd.memBufferA.buffer != vd.memBufferB.buffer && vd.memBufferA.buffer != vd.memBufferC.buffer
    && vd.memBufferB.buffer != vd.memBufferC.buffer
    && vd.memBufferA.deviceMemory != vd.memBufferB.deviceMemory && vd.memBufferA.deviceMemory != vd.memBufferC.deviceMemory
    && vd.memBufferB.deviceMemory != vd.memBufferC.deviceMemory
  }

  /** No handle occurs twice in the teardown order. */
  lemma HandlesDistinctMeansDistinct(vd: VulkanData)
    requires HandlesDistinct(vd)
    ensures Distinct(TeardownOrder(vd))
  {
  }

  /** The driver still has `o` alive, and not mapped. */
  ghost predicate Alive(gpu: Driver, o: Obj)
    reads gpu
  {
    o in gpu.live && o !in gpu.mapped
  }

  /** Every handle the engine owns is alive and unmapped (spelled out handle
      by handle, which keeps the solver away from set reasoning). */
  ghost predicate OwnedAlive(vd: VulkanData)
    reads vd.gpu
  {
    && Alive(vd.gpu, vd.queryPool) && Alive(vd.gpu, vd.descriptorPool) && Alive(vd.gpu, vd.commandPool)
    && Alive(vd.gpu, vd.pipeline) && Alive(vd.gpu, vd.pipelineLayout) && Alive(vd.gpu, vd.descriptorSetLayout)
    && Alive(vd.gpu, vd.memBufferA.buffer) && Alive(vd.gpu, vd.memBufferA.deviceMemory)
    && Alive(vd.gpu, vd.memBufferB.buffer) && Alive(vd.gpu, vd.memBufferB.deviceMemory)
    && Alive(vd.gpu, vd.memBufferC.buffer) && Alive(vd.gpu, vd.memBufferC.deviceMemory)
    && Alive(vd.gpu, vd.device) && Alive(vd.gpu, vd.gpu.Instance())
  }

  /** What holds of the engine between calls: every handle is alive, distinct
      and unmapped, and the three matrices live in three different memories. */
  ghost predicate Valid(vd: VulkanData)
    reads vd.gpu
  {
    && vd.gpu.Valid()
    && 0 < vd.constants.workgroupSize < U32Limit
    && WellFormed(vd.properties)
    && HandlesDistinct(vd)
    && OwnedAlive(vd)
    && MatrixBuffer(vd, vd.memBufferA) && MatrixBuffer(vd, vd.memBufferB) && MatrixBuffer(vd, vd.memBufferC)
    && vd.memBufferA.bytes != vd.memBufferB.bytes
    && vd.memBufferA.bytes != vd.memBufferC.bytes
    && vd.memBufferB.bytes != vd.memBufferC.bytes
  }

  // ---------------------------------------------------------------- new

  /** The handles `new` creates besides the instance, which exists before it. */
  function DeviceObjects(vd: VulkanData): set<Obj> {
    { vd.device,
      vd.memBufferA.buffer, vd.memBufferA.deviceMemory,
      vd.memBufferB.buffer, vd.memBufferB.deviceMemory,
      vd.memBufferC.buffer, vd.memBufferC.deviceMemory,
      vd.descriptorSetLayout, vd.pipelineLayout, vd.pipeline,
      vd.commandPool, vd.descriptorPool, vd.queryPool }
  }

  /** The handles of `vd` are the ones `new` takes, in creation order, from
      serial number `k` on; `k + 7` is the shader module, destroyed in `new`. */
  predicate HandlesFrom(vd: VulkanData, k: nat) {
    && vd.device == Obj(DeviceObj, k)
    && vd.memBufferA.buffer == Obj(BufferObj, k + 1) && vd.memBufferA.deviceMemory == Obj(MemoryObj, k + 2)
    && vd.memBufferB.buffer == Obj(BufferObj, k + 3) && vd.memBufferB.deviceMemory == Obj(MemoryObj, k + 4)
    && vd.memBufferC.buffer == Obj(BufferObj, k + 5) && vd.memBufferC.deviceMemory == Obj(MemoryObj, k + 6)
    && vd.descriptorSetLayout == Obj(SetLayoutObj, k + 8) && vd.pipelineLayout == Obj(PipelineLayoutObj, k + 9)
    && vd.pipeline == Obj(PipelineObj, k + 10)
    && vd.commandPool == Obj(CommandPoolObj, k + 11) && vd.descriptorPool == Obj(DescriptorPoolObj, k + 12)
    && vd.queryPool == Obj(QueryPoolObj, k + 13)
  }

  /** Create the three matrix buffers in DEVICE_LOCAL memory, each of
      DATA_SIZE bytes: A and B as storage buffers the host copies into, C as
      a storage buffer the host copies out of. */
  method CreateMatrixBuffers(gpu: Driver, memoryTypes: seq<bv32>, dataSize: nat)
    returns (r: Result<(MemBuffer, MemBuffer, MemBuffer)>)
    requires gpu.Valid() && |memoryTypes| <= MaxMemoryTypes
    modifies gpu`live, gpu`nextId, gpu`log, gpu`bufferInfo, gpu`memoryTypeOf, gpu`hostVisible, gpu`boundMemory
    ensures gpu.Valid() && old(gpu.live) <= gpu.live
    ensures r.Ok? || r.Err?
    ensures r.Ok? <==>
      && Call.CreateBuffer !in gpu.failing && AnySuitable(memoryTypes, gpu.typeBits, DeviceLocal)
      && Call.AllocateMemory !in gpu.failing && Call.BindBufferMemory !in gpu.failing
    ensures r.Ok? ==>
      var k := old(gpu.nextId);
      && r.value.0.buffer == Obj(BufferObj, k) && r.value.0.deviceMemory == Obj(MemoryObj, k + 1)
      && r.value.1.buffer == Obj(BufferObj, k + 2) && r.value.1.deviceMemory == Obj(MemoryObj, k + 3)
      && r.value.2.buffer == Obj(BufferObj, k + 4) && r.value.2.deviceMemory == Obj(MemoryObj, k + 5)
      && gpu.live == old(gpu.live) + {Obj(BufferObj, k), Obj(MemoryObj, k + 1), Obj(BufferObj, k + 2),
                                      Obj(MemoryObj, k + 3), Obj(BufferObj, k + 4), Obj(MemoryObj, k + 5)}
      && gpu.nextId == k + 6
      && gpu.log == old(gpu.log) + CreateMemBufferTrace(k) + CreateMemBufferTrace(k + 2) + CreateMemBufferTrace(k + 4)
    ensures r.Ok? ==>
      && r.value.0.size == dataSize <= r.value.0.bytes.Length
      && r.value.1.size == dataSize <= r.value.1.bytes.Length
      && r.value.2.size == dataSize <= r.value.2.bytes.Length
      && fresh(r.value.0.bytes) && fresh(r.value.1.bytes) && fresh(r.value.2.bytes)
      && r.value.0.bytes != r.value.1.bytes && r.value.0.bytes != r.value.2.bytes && r.value.1.bytes != r.value.2.bytes
    ensures r.Ok? ==>
      gpu.bufferInfo == old(gpu.bufferInfo)[r.value.0.buffer := BufferCreateInfo(dataSize, InputUsage)]
                                           [r.value.1.buffer := BufferCreateInfo(dataSize, InputUsage)]
                                           [r.value.2.buffer := BufferCreateInfo(dataSize, OutputUsage)]
    ensures r.Ok? ==>
      && Placed(gpu, memoryTypes, r.value.0, DeviceLocal) && Placed(gpu, memoryTypes, r.value.1, DeviceLocal)
      && Placed(gpu, memoryTypes, r.value.2, DeviceLocal)
  {
    var a :- CreateMemBuffer(gpu, memoryTypes, dataSize, InputUsage, DeviceLocal);
    // The driver's failures depend only on the kind of call, so once A
    // exists the same calls for B and C succeed as well.
    ghost var visibleA := a.deviceMemory in gpu.hostVisible;
    var b := CreateMemBuffer(gpu, memoryTypes, dataSize, InputUsage, DeviceLocal);
    ghost var visibleB := b.value.deviceMemory in gpu.hostVisible;
    assert visibleA == (a.deviceMemory in gpu.hostVisible - {b.value.deviceMemory});
    var c := CreateMemBuffer(gpu, memoryTypes, dataSize, OutputUsage, DeviceLocal);
    assert visibleA == (a.deviceMemory in gpu.hostVisible - {c.value.deviceMemory});
    assert visibleB == (b.value.deviceMemory in gpu.hostVisible - {c.value.deviceMemory});
    return Ok((a, b.value, c.value));
  }

  /** Shader module, set layout, pipeline layout and pipeline take handles
      `k` to `k + 3`; the shader module is destroyed once the pipeline exists. */
  function PipelineObjectsTrace(k: nat): seq<Event> {
    [ Created(Obj(ShaderModuleObj, k)), Created(Obj(SetLayoutObj, k + 1)), Created(Obj(PipelineLayoutObj, k + 2)),
      Created(Obj(PipelineObj, k + 3)), Destroyed(Obj(ShaderModuleObj, k)) ]
  }

  /** Create the shader module, the descriptor set layout, the pipeline
      layout and the pipeline, then destroy the shader module. Returns the
      set layout, the pipeline layout and the pipeline. */
  method CreatePipelineObjects(gpu: Driver, workgroupSize: bv32) returns (r: Result<(Obj, Obj, Obj)>)
    requires gpu.Valid()
    modifies gpu`live, gpu`nextId, gpu`log, gpu`pipelineInfo
    ensures gpu.Valid() && old(gpu.live) <= gpu.live
    ensures r.Ok? || r.Err?
    ensures r.Ok? <==>
      && Call.CreateShaderModule !in gpu.failing && Call.CreateDescriptorSetLayout !in gpu.failing
      && Call.CreatePipelineLayout !in gpu.failing && Call.CreateComputePipelines !in gpu.failing
    ensures r.Err? ==>
      r.msg in {CreateShaderModuleMessage, CreateSetLayoutMessage, CreatePipelineLayoutMessage, CreatePipelinesMessage}
    ensures r.Ok? ==>
      var k := old(gpu.nextId);
      && r.value == (Obj(SetLayoutObj, k + 1), Obj(PipelineLayoutObj, k + 2), Obj(PipelineObj, k + 3))
      && gpu.live == old(gpu.live) + {r.value.0, r.value.1, r.value.2} && gpu.nextId == k + 4
      && gpu.pipelineInfo == old(gpu.pipelineInfo)[r.value.2 := ComputePipelineInfo(Obj(ShaderModuleObj, k), r.value.1, workgroupSize)]
      && gpu.log == old(gpu.log) + PipelineObjectsTrace(k)
  {
    var ok, shader := gpu.Create(ShaderModuleObj, CreateShaderModule);
    if !ok {
      return Err(CreateShaderModuleMessage);
    }
    var setLayout, layout;
    ok, setLayout := gpu.Create(SetLayoutObj, CreateDescriptorSetLayout);
    if !ok {
      return Err(CreateSetLayoutMessage);
    }
    ok, layout := gpu.Create(PipelineLayoutObj, CreatePipelineLayout);
    if !ok {
      return Err(CreatePipelineLayoutMessage);
    }
    var pipeline :- CreatePipeline(gpu, shader, layout, workgroupSize);
    gpu.Destroy(shader);
    return Ok((setLayout, layout, pipeline));
  }

  function PoolsTrace(k: nat): seq<Event> {
    [Created(Obj(CommandPoolObj, k)), Created(Obj(DescriptorPoolObj, k + 1)), Created(Obj(QueryPoolObj, k + 2))]
  }

  /** Create the command pool, the descriptor pool and the query pool. */
  method CreatePools(gpu: Driver) returns (r: Result<(Obj, Obj, Obj)>)
    requires gpu.Valid()
    modifies gpu`live, gpu`nextId, gpu`log
    ensures gpu.Valid() && old(gpu.live) <= gpu.live
    ensures r.Ok? || r.Err?
    ensures r.Ok? <==>
      Call.CreateCommandPool !in gpu.failing && Call.CreateDescriptorPool !in gpu.failing && Call.CreateQueryPool !in gpu.failing
    ensures r.Err? ==> r.msg in {CreateCommandPoolMessage, CreateDescriptorPoolMessage, CreateQueryPoolMessage}
    ensures r.Ok? ==>
      var k := old(gpu.nextId);
      && r.value == (Obj(CommandPoolObj, k), Obj(DescriptorPoolObj, k + 1), Obj(QueryPoolObj, k + 2))
      && gpu.live == old(gpu.live) + {r.value.0, r.value.1, r.value.2} && gpu.nextId == k + 3
      && gpu.log == old(gpu.log) + PoolsTrace(k)
  {
    var ok, commandPool := gpu.Create(CommandPoolObj, CreateCommandPool);
    if !ok {
      return Err(CreateCommandPoolMessage);
    }
    var descriptorPool, queryPool;
    ok, descriptorPool := gpu.Create(DescriptorPoolObj, CreateDescriptorPool);
    if !ok {
      return Err(CreateDescriptorPoolMessage);
    }
    ok, queryPool := gpu.Create(QueryPoolObj, CreateQueryPool);
    if !ok {
      return Err(CreateQueryPoolMessage);
    }
    return Ok((commandPool, descriptorPool, queryPool));
  }

  /** Everything `new` asks of the driver once it has chosen a device and a
      queue family succeeds, on a device that reports `memoryTypes`. */
  predicate DriverBuildSucceeds(gpu: Driver, memoryTypes: seq<bv32>)
    requires |memoryTypes| <= MaxMemoryTypes
  {
    var failing := gpu.failing;
    && Call.CreateDevice !in failing
    && Call.CreateBuffer !in failing && AnySuitable(memoryTypes, gpu.typeBits, DeviceLocal)
    && Call.AllocateMemory !in failing && Call.BindBufferMemory !in failing
    && Call.CreateShaderModule !in failing && Call.CreateDescriptorSetLayout !in failing
    && Call.CreatePipelineLayout !in failing && Call.CreateComputePipelines !in failing
    && Call.CreateCommandPool !in failing && Call.CreateDescriptorPool !in failing && Call.CreateQueryPool !in failing
  }

  /** What a successful `new` asks of the driver, in order, taking handles
      from `k` on: the device, the three matrix buffers, the pipeline objects
      (with the shader module) and the pools. */
  function NewTrace(k: nat): seq<Event> {
    [Created(Obj(DeviceObj, k))] + CreateMemBufferTrace(k + 1) + CreateMemBufferTrace(k + 3) + CreateMemBufferTrace(k + 5)
    + PipelineObjectsTrace(k + 7) + PoolsTrace(k + 11)
  }

  /** In the trace of `new`: the device comes first; the shader module, set
      layout and pipeline layout exist before the pipeline is created; the
      shader module is destroyed only after the pipeline exists, and it is
      the only handle `new` destroys. */
  lemma NewTraceOrder(k: nat)
    ensures var t := NewTrace(k);
      && t[0] == Created(Obj(DeviceObj, k))
      && Precedes(t, Created(Obj(ShaderModuleObj, k + 7)), Created(Obj(PipelineObj, k + 10)))
      && Precedes(t, Created(Obj(SetLayoutObj, k + 8)), Created(Obj(PipelineLayoutObj, k + 9)))
      && Precedes(t, Created(Obj(PipelineLayoutObj, k + 9)), Created(Obj(PipelineObj, k + 10)))
      && Precedes(t, Created(Obj(PipelineObj, k + 10)), Destroyed(Obj(ShaderModuleObj, k + 7)))
      && forall e :: e in t && e.Destroyed? ==> e == Destroyed(Obj(ShaderModuleObj, k + 7))
  {
    var buffers := [Created(Obj(DeviceObj, k))] + CreateMemBufferTrace(k + 1) + CreateMemBufferTrace(k + 3)
                   + CreateMemBufferTrace(k + 5);
    var pipelineObjects, pools := PipelineObjectsTrace(k + 7), PoolsTrace(k + 11);
    var t := NewTrace(k);
    assert t == buffers + pipelineObjects + pools;
    assert |buffers| == 10;
    assert t[13] == Created(Obj(PipelineObj, k + 10)) && t[14] == Destroyed(Obj(ShaderModuleObj, k + 7));
    assert t[10] == Created(Obj(ShaderModuleObj, k + 7));
    assert t[11] == Created(Obj(SetLayoutObj, k + 8)) && t[12] == Created(Obj(PipelineLayoutObj, k + 9));
    assert forall e :: e in buffers ==> !e.Destroyed?;
    assert forall e :: e in pools ==> !e.Destroyed?;
  }

  /** An engine whose handles were all freshly taken from `k` on by `new`
      is valid: the fresh handles are alive and were never mapped. */
  lemma FreshEngineValid(vd: VulkanData, k: nat, live0: set<Obj>)
    requires vd.gpu.Valid() && HandlesFrom(vd, k)
    requires forall o :: o in live0 ==> o.id < k
    requires vd.gpu.live == live0 + DeviceObjects(vd) && vd.gpu.mapped <= live0
    requires vd.gpu.Instance() in live0 && vd.gpu.Instance() !in vd.gpu.mapped
    requires 0 < vd.constants.workgroupSize < U32Limit && WellFormed(vd.properties)
    requires MatrixBuffer(vd, vd.memBufferA) && MatrixBuffer(vd, vd.memBufferB) && MatrixBuffer(vd, vd.memBufferC)
    requires vd.memBufferA.bytes != vd.memBufferB.bytes && vd.memBufferA.bytes != vd.memBufferC.bytes
    requires vd.memBufferB.bytes != vd.memBufferC.bytes
    ensures Valid(vd)
  {
    forall o | o in DeviceObjects(vd)
      ensures o !in vd.gpu.mapped
    {
      assert o.id >= k;
    }
  }

  /** The logical device, then the three matrix buffers. */
  method CreateDeviceAndBuffers(gpu: Driver, memoryTypes: seq<bv32>, dataSize: nat)
    returns (r: Result<(Obj, (MemBuffer, MemBuffer, MemBuffer))>)
    requires gpu.Valid() && |memoryTypes| <= MaxMemoryTypes
    modifies gpu`live, gpu`nextId, gpu`log, gpu`bufferInfo, gpu`memoryTypeOf, gpu`hostVisible, gpu`boundMemory
    ensures gpu.Valid() && old(gpu.live) <= gpu.live
    ensures r.Ok? || r.Err?
    ensures r.Ok? <==>
      && Call.CreateDevice !in gpu.failing
      && Call.CreateBuffer !in gpu.failing && AnySuitable(memoryTypes, gpu.typeBits, DeviceLocal)
      && Call.AllocateMemory !in gpu.failing && Call.BindBufferMemory !in gpu.failing
    ensures r.Ok? ==>
      var k := old(gpu.nextId);
      var (device, (a, b, c)) := r.value;
      && device == Obj(DeviceObj, k)
      && a.buffer == Obj(BufferObj, k + 1) && a.deviceMemory == Obj(MemoryObj, k + 2)
      && b.buffer == Obj(BufferObj, k + 3) && b.deviceMemory == Obj(MemoryObj, k + 4)
      && c.buffer == Obj(BufferObj, k + 5) && c.deviceMemory == Obj(MemoryObj, k + 6)
      && gpu.live == old(gpu.live) + {device, a.buffer, a.deviceMemory, b.buffer, b.deviceMemory, c.buffer, c.deviceMemory}
      && gpu.nextId == k + 7
      && gpu.log == old(gpu.log) + [Created(device)] + CreateMemBufferTrace(k + 1) + CreateMemBufferTrace(k + 3)
                    + CreateMemBufferTrace(k + 5)
      && a.size == dataSize <= a.bytes.Length && b.size == dataSize <= b.bytes.Length && c.size == dataSize <= c.bytes.Length
      && a.bytes != b.bytes && a.bytes != c.bytes && b.bytes != c.bytes
      && Placed(gpu, memoryTypes, a, DeviceLocal) && Placed(gpu, memoryTypes, b, DeviceLocal)
      && Placed(gpu, memoryTypes, c, DeviceLocal)
  {
    var ok, device := gpu.Create(DeviceObj, CreateDevice);
    if !ok {
      return Err(CreateDeviceMessage);
    }
    var buffers :- CreateMatrixBuffers(gpu, memoryTypes, dataSize);
    return Ok((device, buffers));
  }

  /** The pipeline objects, then the pools: set layout, pipeline layout,
      pipeline, command pool, descriptor pool, query pool. */
  method CreatePipelineAndPools(gpu: Driver, workgroupSize: bv32)
    returns (r: Result<((Obj, Obj, Obj), (Obj, Obj, Obj))>)
    requires gpu.Valid()
    modifies gpu`live, gpu`nextId, gpu`log, gpu`pipelineInfo
    ensures gpu.Valid() && old(gpu.live) <= gpu.live
    ensures r.Ok? || r.Err?
    ensures r.Ok? <==>
      && Call.CreateShaderModule !in gpu.failing && Call.CreateDescriptorSetLayout !in gpu.failing
      && Call.CreatePipelineLayout !in gpu.failing && Call.CreateComputePipelines !in gpu.failing
      && Call.CreateCommandPool !in gpu.failing && Call.CreateDescriptorPool !in gpu.failing
      && Call.CreateQueryPool !in gpu.failing
    ensures r.Ok? ==>
      var k := old(gpu.nextId);
      var ((setLayout, layout, pipeline), (commandPool, descriptorPool, queryPool)) := r.value;
      && setLayout == Obj(SetLayoutObj, k + 1) && layout == Obj(PipelineLayoutObj, k + 2) && pipeline == Obj(PipelineObj, k + 3)
      && commandPool == Obj(CommandPoolObj, k + 4) && descriptorPool == Obj(DescriptorPoolObj, k + 5)
      && queryPool == Obj(QueryPoolObj, k + 6)
      && gpu.live == old(gpu.live) + {setLayout, layout, pipeline, commandPool, descriptorPool, queryPool}
      && gpu.nextId == k + 7
      && gpu.log == old(gpu.log) + PipelineObjectsTrace(k) + PoolsTrace(k + 4)
      && pipeline in gpu.pipelineInfo
      && gpu.pipelineInfo[pipeline] == ComputePipelineInfo(Obj(ShaderModuleObj, k), layout, workgroupSize)
  {
    var pipelineObjects :- CreatePipelineObjects(gpu, workgroupSize);
    var pools :- CreatePools(gpu);
    return Ok((pipelineObjects, pools));
  }

  /** What a successful `new` leaves behind, for a driver that had `live0`
      alive, had logged `log0` and was about to hand out serial number `k`:
      a valid engine on the constants asked for, whose handles are fresh
      (from `k` on) and the only new live objects, the log extended by the
      trace of `new`, and the pipeline specialized with WORKGROUP_SIZE on the
      shader module (serial `k + 7`) and the pipeline layout. */
  ghost predicate Built(vd: VulkanData, constants: Constants, k: nat, live0: set<Obj>, log0: seq<Event>)
    reads vd.gpu
  {
    && Valid(vd) && vd.constants == constants
    && HandlesFrom(vd, k)
    && vd.gpu.live == live0 + DeviceObjects(vd)
    && vd.gpu.log == log0 + NewTrace(k)
    && vd.pipeline in vd.gpu.pipelineInfo
    && vd.gpu.pipelineInfo[vd.pipeline] ==
       ComputePipelineInfo(Obj(ShaderModuleObj, k + 7), vd.pipelineLayout, WorkgroupSizeBits(constants))
  }

  /** A, B and C live in the first memory type that is DEVICE_LOCAL and
      allowed to them, and each is host-visible exactly when that type is. */
  ghost predicate BuffersPlaced(vd: VulkanData)
    requires WellFormed(vd.properties)
    reads vd.gpu`memoryTypeOf, vd.gpu`hostVisible
  {
    && Placed(vd.gpu, vd.properties.memoryTypes, vd.memBufferA, DeviceLocal)
    && Placed(vd.gpu, vd.properties.memoryTypes, vd.memBufferB, DeviceLocal)
    && Placed(vd.gpu, vd.properties.memoryTypes, vd.memBufferC, DeviceLocal)
  }

  /** Appending to a log in two steps is appending the two parts at once. */
  lemma AppendAssoc(log: seq<Event>, u: seq<Event>, w: seq<Event>)
    ensures log + u + w == log + (u + w)
  {
  }

  /** The handles the two creation steps of `new` hand back, put together,
      make up a built engine. */
  lemma AssembledEngineBuilt(vd: VulkanData, constants: Constants, k: nat, live0: set<Obj>, log0: seq<Event>)
    requires vd.gpu.Valid() && HandlesFrom(vd, k) && vd.constants == constants
    requires forall o :: o in live0 ==> o.id < k
    requires vd.gpu.mapped <= live0 && vd.gpu.Instance() in live0 && vd.gpu.Instance() !in vd.gpu.mapped
    requires 0 < constants.workgroupSize < U32Limit && WellFormed(vd.properties)
    requires MatrixBuffer(vd, vd.memBufferA) && MatrixBuffer(vd, vd.memBufferB) && MatrixBuffer(vd, vd.memBufferC)
    requires vd.memBufferA.bytes != vd.memBufferB.bytes && vd.memBufferA.bytes != vd.memBufferC.bytes
    requires vd.memBufferB.bytes != vd.memBufferC.bytes
    requires vd.gpu.live == live0
      + {vd.device, vd.memBufferA.buffer, vd.memBufferA.deviceMemory, vd.memBufferB.buffer, vd.memBufferB.deviceMemory,
         vd.memBufferC.buffer, vd.memBufferC.deviceMemory}
      + {vd.descriptorSetLayout, vd.pipelineLayout, vd.pipeline, vd.commandPool, vd.descriptorPool, vd.queryPool}
    requires vd.gpu.log == log0 + [Created(vd.device)] + CreateMemBufferTrace(k + 1) + CreateMemBufferTrace(k + 3)
      + CreateMemBufferTrace(k + 5) + PipelineObjectsTrace(k + 7) + PoolsTrace(k + 11)
    requires vd.pipeline in vd.gpu.pipelineInfo
    requires vd.gpu.pipelineInfo[vd.pipeline] ==
      ComputePipelineInfo(Obj(ShaderModuleObj, k + 7), vd.pipelineLayout, WorkgroupSizeBits(constants))
    ensures Built(vd, constants, k, live0, log0)
  {
    assert vd.gpu.live == live0 + DeviceObjects(vd);
    var t0 := [Created(vd.device)];
    var t1 := t0 + CreateMemBufferTrace(k + 1);
    var t2 := t1 + CreateMemBufferTrace(k + 3);
    var t3 := t2 + CreateMemBufferTrace(k + 5);
    var t4 := t3 + PipelineObjectsTrace(k + 7);
    AppendAssoc(log0, t0, CreateMemBufferTrace(k + 1));
    AppendAssoc(log0, t1, CreateMemBufferTrace(k + 3));
    AppendAssoc(log0, t2, CreateMemBufferTrace(k + 5));
    AppendAssoc(log0, t3, PipelineObjectsTrace(k + 7));
    AppendAssoc(log0, t4, PoolsTrace(k + 11));
    FreshEngineValid(vd, k, live0);
  }

  /** The rest of `new` once the logical device and the matrix buffers exist
      (made from serial number `k` on, over a driver that had `live0` alive
      and had logged `log0`): the pipeline objects and the pools, and the
      engine put together from all of them. */
  method CreateRestOfEngine(gpu: Driver, constants: Constants, physicalDevice: nat, properties: DeviceInfo,
                            queueFamily: nat, device: Obj, buffers: (MemBuffer, MemBuffer, MemBuffer),
                            ghost k: nat, ghost live0: set<Obj>, ghost log0: seq<Event>)
    returns (r: Result<VulkanData>)
    requires gpu.Valid() && 0 < constants.workgroupSize < U32Limit && WellFormed(properties)
    requires forall o :: o in live0 ==> o.id < k
    requires gpu.mapped <= live0 && gpu.Instance() in live0 && gpu.Instance() !in gpu.mapped
    requires
      var (a, b, c) := buffers;
      && device == Obj(DeviceObj, k)
      && a.buffer == Obj(BufferObj, k + 1) && a.deviceMemory == Obj(MemoryObj, k + 2)
      && b.buffer == Obj(BufferObj, k + 3) && b.deviceMemory == Obj(MemoryObj, k + 4)
      && c.buffer == Obj(BufferObj, k + 5) && c.deviceMemory == Obj(MemoryObj, k + 6)
      && gpu.live == live0 + {device, a.buffer, a.deviceMemory, b.buffer, b.deviceMemory, c.buffer, c.deviceMemory}
      && gpu.nextId == k + 7
      && gpu.log == log0 + [Created(device)] + CreateMemBufferTrace(k + 1) + CreateMemBufferTrace(k + 3)
                    + CreateMemBufferTrace(k + 5)
      && a.size == constants.dataSize <= a.bytes.Length && b.size == constants.dataSize <= b.bytes.Length
      && c.size == constants.dataSize <= c.bytes.Length
      && a.bytes != b.bytes && a.bytes != c.bytes && b.bytes != c.bytes
      && Placed(gpu, properties.memoryTypes, a, DeviceLocal) && Placed(gpu, properties.memoryTypes, b, DeviceLocal)
      && Placed(gpu, properties.memoryTypes, c, DeviceLocal)
    modifies gpu`live, gpu`nextId, gpu`log, gpu`pipelineInfo
    ensures gpu.Valid() && old(gpu.live) <= gpu.live
    ensures r.Ok? || r.Err?
    ensures r.Ok? <==>
      && Call.CreateShaderModule !in gpu.failing && Call.CreateDescriptorSetLayout !in gpu.failing
      && Call.CreatePipelineLayout !in gpu.failing && Call.CreateComputePipelines !in gpu.failing
      && Call.CreateCommandPool !in gpu.failing && Call.CreateDescriptorPool !in gpu.failing
      && Call.CreateQueryPool !in gpu.failing
    ensures r.Ok? ==>
      && r.value.gpu == gpu && r.value.physicalDevice == physicalDevice
      && r.value.properties == properties && r.value.queueFamily == queueFamily
      && Built(r.value, constants, k, live0, log0) && BuffersPlaced(r.value)
  {
    var pipelineAndPools :- CreatePipelineAndPools(gpu, WorkgroupSizeBits(constants));
    assert Placed(gpu, properties.memoryTypes, buffers.0, DeviceLocal);
    assert Placed(gpu, properties.memoryTypes, buffers.1, DeviceLocal);
    assert Placed(gpu, properties.memoryTypes, buffers.2, DeviceLocal);
    var pipelineObjects, pools := pipelineAndPools.0, pipelineAndPools.1;
    var vd := VulkanData(gpu, constants, physicalDevice, properties, queueFamily, device,
                         buffers.0, buffers.1, buffers.2, pipelineObjects.0, pipelineObjects.1, pipelineObjects.2,
                         pools.0, pools.1, pools.2);
    AssembledEngineBuilt(vd, constants, k, live0, log0);
    r := Ok(vd);
  }

  /** The part of `new` after the device and the queue family are chosen:
      the logical device, the matrix buffers, the pipeline objects and the pools. */
  method CreateResources(gpu: Driver, constants: Constants, physicalDevice: nat, properties: DeviceInfo, queueFamily: nat)
    returns (r: Result<VulkanData>)
    requires gpu.Valid() && Alive(gpu, gpu.Instance())
    requires 0 < constants.workgroupSize < U32Limit && WellFormed(properties)
    modifies gpu`live, gpu`nextId, gpu`log, gpu`bufferInfo, gpu`memoryTypeOf, gpu`hostVisible, gpu`boundMemory
    modifies gpu`pipelineInfo
    ensures gpu.Valid() && old(gpu.live) <= gpu.live
    ensures gpu.commandBuffers == old(gpu.commandBuffers) && gpu.descriptorSets == old(gpu.descriptorSets)
    ensures gpu.cbState == old(gpu.cbState) && gpu.recorded == old(gpu.recorded)
    ensures gpu.queryAvailable == old(gpu.queryAvailable) && gpu.mapped == old(gpu.mapped)
    ensures r.Ok? || r.Err?
    ensures r.Ok? <==> DriverBuildSucceeds(gpu, properties.memoryTypes)
    ensures r.Ok? ==>
      && r.value.gpu == gpu && r.value.physicalDevice == physicalDevice
      && r.value.properties == properties && r.value.queueFamily == queueFamily
      && Built(r.value, constants, old(gpu.nextId), old(gpu.live), old(gpu.log)) && BuffersPlaced(r.value)
  {
    ghost var k, live0, log0 := gpu.nextId, gpu.live, gpu.log;
    var deviceAndBuffers :- CreateDeviceAndBuffers(gpu, properties.memoryTypes, constants.dataSize);
    r := CreateRestOfEngine(gpu, constants, physicalDevice, properties, queueFamily,
                            deviceAndBuffers.0, deviceAndBuffers.1, k, live0, log0);
  }

  /** The device `new` settles on: the first suitable one. */
  predicate ChosenDevice(devices: seq<DeviceInfo>, required: seq<string>, i: nat) {
    && i < |devices| && CheckDeviceSuitability(devices[i], required).Ok?
    && forall j :: 0 <= j < i ==> !CheckDeviceSuitability(devices[j], required).Ok?
  }

  /** Some queue family of the device can run compute work. */
  predicate HasComputeFamily(d: DeviceInfo) {
    exists f :: 0 <= f < |d.queueFamilies| && ComputeCapable(d.queueFamilies[f])
  }

  /** Every device the driver reports has at most 32 memory types. */
  predicate AllWellFormed(devices: Option<seq<DeviceInfo>>) {
    devices.Some? ==> forall i :: 0 <= i < |devices.value| ==> WellFormed(devices.value[i])
  }

  /** `new` succeeds: the devices can be enumerated, one is suitable, the
      first suitable one has a compute queue family, and the driver accepts
      every creation on it. */
  predicate NewSucceeds(gpu: Driver, devices: Option<seq<DeviceInfo>>, required: seq<string>)
    requires AllWellFormed(devices)
  {
    && devices.Some?
    && exists i :: 0 <= i < |devices.value| && ChosenDevice(devices.value, required, i)
         && HasComputeFamily(devices.value[i]) && DriverBuildSucceeds(gpu, devices.value[i].memoryTypes)
  }

  /** At most one device is the first suitable one. */
  lemma ChosenDeviceUnique(devices: seq<DeviceInfo>, required: seq<string>, i: nat, j: nat)
    requires ChosenDevice(devices, required, i) && ChosenDevice(devices, required, j)
    ensures i == j
  {
  }

  /** Once the first suitable device is known, `new` succeeds exactly when
      that device has a compute queue family and the driver accepts every
      creation on it. */
  lemma NewSucceedsOnChosen(gpu: Driver, devices: seq<DeviceInfo>, required: seq<string>, i: nat)
    requires AllWellFormed(Some(devices)) && ChosenDevice(devices, required, i)
    ensures NewSucceeds(gpu, Some(devices), required) <==>
      HasComputeFamily(devices[i]) && DriverBuildSucceeds(gpu, devices[i].memoryTypes)
  {
    if NewSucceeds(gpu, Some(devices), required) {
      var j :| 0 <= j < |devices| && ChosenDevice(devices, required, j)
        && HasComputeFamily(devices[j]) && DriverBuildSucceeds(gpu, devices[j].memoryTypes);
      ChosenDeviceUnique(devices, required, i, j);
    }
  }

  /** The first part of `new`: the first suitable device, and its first
      queue family that can run compute work. */
  method ChooseDevice(devices: Option<seq<DeviceInfo>>, required: seq<string>) returns (r: Result<(nat, nat)>)
    ensures r.Ok? || r.Err?
    ensures devices.None? ==> r == Err(EnumerateDevicesMessage)
    ensures r.Ok? <==>
      devices.Some? && exists i :: 0 <= i < |devices.value| && ChosenDevice(devices.value, required, i) && HasComputeFamily(devices.value[i])
    ensures r.Ok? ==>
      var (physicalDevice, queueFamily) := r.value;
      && devices.Some? && ChosenDevice(devices.value, required, physicalDevice)
      && queueFamily < |devices.value[physicalDevice].queueFamilies|
      && ComputeCapable(devices.value[physicalDevice].queueFamilies[queueFamily])
      && forall f :: 0 <= f < queueFamily ==> !ComputeCapable(devices.value[physicalDevice].queueFamilies[f])
    ensures r.Err? ==> r.msg in {EnumerateDevicesMessage, NoSuitableDeviceMessage, NoQueueFamilyMessage}
  {
    var physicalDevice :- GetPhysicalDevice(devices, required);
    var properties := devices.value[physicalDevice];
    forall i | 0 <= i < |devices.value| && ChosenDevice(devices.value, required, i)
      ensures i == physicalDevice
    {
      ChosenDeviceUnique(devices.value, required, i, physicalDevice);
    }
    var queueFamily :- GetQueueFamily(properties.queueFamilies);
    return Ok((physicalDevice, queueFamily));
  }

  /** VulkanData::new, from the physical-device choice on (the instance
      exists already): choose the first suitable device and its first compute
      queue family, then create the logical device and every resource. The
      first failure returns at once, leaking what was created before it. */
  method New(gpu: Driver, devices: Option<seq<DeviceInfo>>, required: seq<string>, constants: Constants)
    returns (r: Result<VulkanData>)
    requires gpu.Valid() && Alive(gpu, gpu.Instance())
    requires 0 < constants.workgroupSize < U32Limit && AllWellFormed(devices)
    modifies gpu
    ensures gpu.Valid() && old(gpu.live) <= gpu.live
    ensures gpu.commandBuffers == old(gpu.commandBuffers) && gpu.descriptorSets == old(gpu.descriptorSets)
    ensures gpu.cbState == old(gpu.cbState) && gpu.recorded == old(gpu.recorded)
    ensures gpu.queryAvailable == old(gpu.queryAvailable) && gpu.mapped == old(gpu.mapped)
    ensures r.Ok? || r.Err?
    ensures r.Ok? <==> NewSucceeds(gpu, devices, required)
    ensures devices.None? ==> r == Err(EnumerateDevicesMessage) && gpu.log == old(gpu.log)
    ensures r.Ok? ==>
      && devices.Some? && ChosenDevice(devices.value, required, r.value.physicalDevice)
      && r.value.properties == devices.value[r.value.physicalDevice]
      && r.value.queueFamily < |r.value.properties.queueFamilies|
      && ComputeCapable(r.value.properties.queueFamilies[r.value.queueFamily])
      && forall f :: 0 <= f < r.value.queueFamily ==> !ComputeCapable(r.value.properties.queueFamilies[f])
    ensures r.Ok? ==> r.value.gpu == gpu && Built(r.value, constants, old(gpu.nextId), old(gpu.live), old(gpu.log))
    ensures r.Ok? ==> BuffersPlaced(r.value)
  {
    var chosen :- ChooseDevice(devices, required);
    var (physicalDevice, queueFamily) := chosen;
    NewSucceedsOnChosen(gpu, devices.value, required, physicalDevice);
    r := CreateResources(gpu, constants, physicalDevice, devices.value[physicalDevice], queueFamily);
  }

  // ---------------------------------------------------------------- clean

  /** `x` is built on `y`, so `x` has to be released first: a pipeline on its
      layout, a pipeline layout on its set layout, a buffer on the memory
      bound to it, every device object on the device, and everything on the instance. */
  predicate DependsOn(vd: VulkanData, x: Obj, y: Obj) {
    || (x == vd.pipeline && y == vd.pipelineLayout)
    || (x == vd.pipelineLayout && y == vd.descriptorSetLayout)
    || (x == vd.memBufferA.buffer && y == vd.memBufferA.deviceMemory)
    || (x == vd.memBufferB.buffer && y == vd.memBufferB.deviceMemory)
    || (x == vd.memBufferC.buffer && y == vd.memBufferC.deviceMemory)
    || (x != vd.device && x != vd.gpu.Instance() && y == vd.device)
    || (x != vd.gpu.Instance() && y == vd.gpu.Instance())
  }

  /** clean releases nothing before something that is built on it. */
  lemma TeardownRespectsDependencies(vd: VulkanData)
    requires HandlesDistinct(vd)
    ensures forall i, j :: 0 <= i < j < |TeardownOrder(vd)| ==> !DependsOn(vd, TeardownOrder(vd)[j], TeardownOrder(vd)[i])
  {
    var t := TeardownOrder(vd);
    HandlesDistinctMeansDistinct(vd);
    forall i, j | 0 <= i < j < |t|
      ensures !DependsOn(vd, t[j], t[i])
    {
      assert t[j] != t[i];
      assert t[12] == vd.device && t[13] == vd.gpu.Instance();
      assert t[3] == vd.pipeline && t[4] == vd.pipelineLayout && t[5] == vd.descriptorSetLayout;
      assert t[6] == vd.memBufferA.buffer && t[7] == vd.memBufferA.deviceMemory;
      assert t[8] == vd.memBufferB.buffer && t[9] == vd.memBufferB.deviceMemory;
      assert t[10] == vd.memBufferC.buffer && t[11] == vd.memBufferC.deviceMemory;
    }
  }

  /** One destroy call per handle, in order. */
  function DestroyEvents(objs: seq<Obj>): seq<Event> {
    seq(|objs|, i requires 0 <= i < |objs| => Destroyed(objs[i]))
  }

  lemma TeardownEvents(vd: VulkanData)
    ensures DestroyEvents(TeardownOrder(vd)) == [
      Destroyed(vd.queryPool), Destroyed(vd.descriptorPool), Destroyed(vd.commandPool),
      Destroyed(vd.pipeline), Destroyed(vd.pipelineLayout), Destroyed(vd.descriptorSetLayout),
      Destroyed(vd.memBufferA.buffer), Destroyed(vd.memBufferA.deviceMemory),
      Destroyed(vd.memBufferB.buffer), Destroyed(vd.memBufferB.deviceMemory),
      Destroyed(vd.memBufferC.buffer), Destroyed(vd.memBufferC.deviceMemory),
      Destroyed(vd.device), Destroyed(vd.gpu.Instance()) ]
  {
  }

  /** Destroy a buffer, then free the memory bound to it. */
  method ReleaseMemBuffer(gpu: Driver, m: MemBuffer)
    requires gpu.Valid() && m.buffer in gpu.live && m.deviceMemory in gpu.live
    requires m.buffer !in gpu.mapped && m.deviceMemory !in gpu.mapped && m.buffer != m.deviceMemory
    modifies gpu`live, gpu`log
    ensures gpu.Valid()
    ensures gpu.live == old(gpu.live) - {m.buffer, m.deviceMemory}
    ensures gpu.log == old(gpu.log) + [Destroyed(m.buffer), Destroyed(m.deviceMemory)]
  {
    gpu.Destroy(m.buffer);
    gpu.Destroy(m.deviceMemory);
  }

  /** The first half of clean: the three pools, then the pipeline, its
      layout and the set layout. */
  method ReleasePipelineObjects(gpu: Driver, queryPool: Obj, descriptorPool: Obj, commandPool: Obj,
                                pipeline: Obj, pipelineLayout: Obj, setLayout: Obj)
    requires gpu.Valid()
    requires Alive(gpu, queryPool) && Alive(gpu, descriptorPool) && Alive(gpu, commandPool)
    requires Alive(gpu, pipeline) && Alive(gpu, pipelineLayout) && Alive(gpu, setLayout)
    requires queryPool.kind == QueryPoolObj && descriptorPool.kind == DescriptorPoolObj
    requires commandPool.kind == CommandPoolObj && pipeline.kind == PipelineObj
    requires pipelineLayout.kind == PipelineLayoutObj && setLayout.kind == SetLayoutObj
    modifies gpu`live, gpu`log
    ensures gpu.Valid()
    ensures gpu.live == old(gpu.live) - {queryPool, descriptorPool, commandPool, pipeline, pipelineLayout, setLayout}
    ensures gpu.log == old(gpu.log) + [Destroyed(queryPool), Destroyed(descriptorPool), Destroyed(commandPool),
                                       Destroyed(pipeline), Destroyed(pipelineLayout), Destroyed(setLayout)]
  {
    gpu.Destroy(queryPool);
    gpu.Destroy(descriptorPool);
    gpu.Destroy(commandPool);
    gpu.Destroy(pipeline);
    gpu.Destroy(pipelineLayout);
    gpu.Destroy(setLayout);
  }

  /** The second half of clean: the three matrix buffers, each before its
      memory, then the logical device and the instance. */
  method ReleaseStorageAndDevice(gpu: Driver, a: MemBuffer, b: MemBuffer, c: MemBuffer, device: Obj)
    requires gpu.Valid()
    requires Alive(gpu, a.buffer) && Alive(gpu, a.deviceMemory) && Alive(gpu, b.buffer) && Alive(gpu, b.deviceMemory)
    requires Alive(gpu, c.buffer) && Alive(gpu, c.deviceMemory) && Alive(gpu, device) && Alive(gpu, gpu.Instance())
    requires a.buffer.kind == b.buffer.kind == c.buffer.kind == BufferObj
    requires a.deviceMemory.kind == b.deviceMemory.kind == c.deviceMemory.kind == MemoryObj
    requires a.buffer != b.buffer && a.buffer != c.buffer && b.buffer != c.buffer
    requires a.deviceMemory != b.deviceMemory && a.deviceMemory != c.deviceMemory && b.deviceMemory != c.deviceMemory
    requires device.kind == DeviceObj
    modifies gpu`live, gpu`log
    ensures gpu.Valid()
    ensures gpu.live == old(gpu.live) - {a.buffer, a.deviceMemory, b.buffer, b.deviceMemory, c.buffer, c.deviceMemory,
                                         device, gpu.Instance()}
    ensures gpu.log == old(gpu.log) + [Destroyed(a.buffer), Destroyed(a.deviceMemory), Destroyed(b.buffer),
                                       Destroyed(b.deviceMemory), Destroyed(c.buffer), Destroyed(c.deviceMemory),
                                       Destroyed(device), Destroyed(gpu.Instance())]
  {
    ReleaseMemBuffer(gpu, a);
    ReleaseMemBuffer(gpu, b);
    ReleaseMemBuffer(gpu, c);
    gpu.Destroy(device);
    gpu.Destroy(gpu.Instance());
  }

  /** clean: destroy every handle the engine owns, from the query pool down
      to the instance, each buffer before its memory. */
  method Clean(vd: VulkanData)
    requires Valid(vd)
    modifies vd.gpu`live, vd.gpu`log
    ensures vd.gpu.Valid()
    ensures vd.gpu.live == old(vd.gpu.live) - Owned(vd)
    ensures vd.gpu.log == old(vd.gpu.log) + DestroyEvents(TeardownOrder(vd))
  {
    var gpu := vd.gpu;
    ReleasePipelineObjects(gpu, vd.queryPool, vd.descriptorPool, vd.commandPool,
                           vd.pipeline, vd.pipelineLayout, vd.descriptorSetLayout);
    ReleaseStorageAndDevice(gpu, vd.memBufferA, vd.memBufferB, vd.memBufferC, vd.device);
    TeardownEvents(vd);
  }

  /** `new` followed by clean leaks nothing: every handle `new` leaves alive
      is one clean destroys, each of them was created by `new`, and of the
      objects alive before `new` only the instance is gone afterwards. */
  lemma NewThenCleanReleasesAll(vd: VulkanData, k: nat, live0: set<Obj>)
    requires HandlesFrom(vd, k) && k > 0
    requires forall o :: o in live0 ==> o.id < k
    ensures (live0 + DeviceObjects(vd)) - Owned(vd) == live0 - {vd.gpu.Instance()}
    ensures forall o :: o in DeviceObjects(vd) ==>
      Created(o) in NewTrace(k) && Destroyed(o) in DestroyEvents(TeardownOrder(vd))
  {
    forall o | o in live0
      ensures o in Owned(vd) <==> o == vd.gpu.Instance()
    {
      assert o.id < k;
    }
    var t := NewTrace(k);
    assert t[0] == Created(vd.device) && t[1] == Created(vd.memBufferA.buffer) && t[2] == Created(vd.memBufferA.deviceMemory);
    assert t[4] == Created(vd.memBufferB.buffer) && t[5] == Created(vd.memBufferB.deviceMemory);
    assert t[7] == Created(vd.memBufferC.buffer) && t[8] == Created(vd.memBufferC.deviceMemory);
    assert t[11] == Created(vd.descriptorSetLayout) && t[12] == Created(vd.pipelineLayout) && t[13] == Created(vd.pipeline);
    assert t[15] == Created(vd.commandPool) && t[16] == Created(vd.descriptorPool) && t[17] == Created(vd.queryPool);
    TeardownEvents(vd);
  }

  // ---------------------------------------------------------------- multiply

  /** `GROUP_COUNT`: N cast to `u32` (so taken modulo 2^32), divided by
      WORKGROUP_SIZE and rounded down. */
  function GroupCount(c: Constants): (g: nat)
    requires c.workgroupSize != 0
    ensures g <= c.n % U32Limit < U32Limit
  {
    (c.n % U32Limit) / c.workgroupSize
  }

  /** The GROUP_COUNT x GROUP_COUNT grid of workgroups covers at most the
      N x N matrix (of N taken as `u32`), falls short of it by less than one
      workgroup, and covers all of it exactly when WORKGROUP_SIZE divides it. */
  lemma GroupCountCovers(c: Constants)
    requires c.workgroupSize != 0
    ensures GroupCount(c) * c.workgroupSize <= c.n % U32Limit
    ensures c.n % U32Limit < (GroupCount(c) + 1) * c.workgroupSize
    ensures GroupCount(c) * c.workgroupSize == c.n % U32Limit <==> (c.n % U32Limit) % c.workgroupSize == 0
  {
    var m, w := c.n % U32Limit, c.workgroupSize;
    assert m == (m / w) * w + m % w;
  }

  /** Both dispatch dimensions are within the device's limits (the two asserts of multiply). */
  predicate GroupCountFits(vd: VulkanData)
    requires vd.constants.workgroupSize != 0
  {
    && GroupCount(vd.constants) <= vd.properties.maxComputeWorkGroupCount.x
    && GroupCount(vd.constants) <= vd.properties.maxComputeWorkGroupCount.y
  }

  /** Push N (as `u32`, native byte order) at offset 0, bind the descriptor
      set and the pipeline. */
  function SetupCommands(vd: VulkanData): seq<Command> {
    [ PushConstants(0, ToNeBytes((vd.constants.n % U32Limit) as bv32)),
      BindDescriptorSet(0),
      BindPipeline(vd.pipeline) ]
  }

  /** The push-constant range of the pipeline layout: offset 0, 4 bytes. */
  const PushConstantRangeSize: nat := 4

  /** The one push constant of multiply lies inside the layout's range, and
      the shader reads back N as a `u32`. */
  lemma PushConstantsFitLayout(vd: VulkanData)
    ensures SetupCommands(vd)[0].PushConstants?
    ensures var p := SetupCommands(vd)[0];
      && p.offset + |p.bytes| <= PushConstantRangeSize
      && FromNeBytes(p.bytes) == (vd.constants.n % U32Limit) as bv32
  {
  }

  /** Reset both timestamp slots, stamp the top of the pipe, dispatch the
      grid, stamp the bottom of the pipe. */
  function TimedDispatch(groupCount: nat): seq<Command> {
    [ ResetQueryPool(0, QueryCount),
      WriteTimestamp(TopOfPipe, 0),
      Dispatch(groupCount, groupCount, 1),
      WriteTimestamp(BottomOfPipe, 1) ]
  }

  /** Once the recorded commands have executed, both timestamp slots hold a
      result, whatever they held before. */
  lemma TimestampsAvailable(vd: VulkanData, slots: seq<bool>)
    requires vd.constants.workgroupSize != 0 && |slots| == QueryCount
    ensures ExecuteQueries(SetupCommands(vd) + TimedDispatch(GroupCount(vd.constants)), slots) == [true, true]
  {
    var g := GroupCount(vd.constants);
    var pre := SetupCommands(vd) + [ResetQueryPool(0, QueryCount)];
    var post := [WriteTimestamp(TopOfPipe, 0), Dispatch(g, g, 1), WriteTimestamp(BottomOfPipe, 1)];
    assert SetupCommands(vd) + TimedDispatch(g) == pre + post;
    ExecuteQueriesAppend(pre, post, slots);
    TimestampPairAvailable(pre, post, slots);
  }

  /** The driver calls of the recording half of multiply, in order: the
      setup, then the timed dispatch. */
  function RecordTrace(vd: VulkanData, groupCount: nat): seq<Event> {
    SetupTrace(vd) + DispatchTrace(groupCount)
  }

  function SetupTrace(vd: VulkanData): seq<Event> {
    [ CommandBufferAllocated, DescriptorSetAllocated, CommandBufferBegun,
      DescriptorSetUpdated([vd.memBufferA.buffer, vd.memBufferB.buffer, vd.memBufferC.buffer]),
      Recorded(SetupCommands(vd)[0]), Recorded(SetupCommands(vd)[1]), Recorded(SetupCommands(vd)[2]) ]
  }

  function DispatchTrace(groupCount: nat): seq<Event> {
    [ Recorded(TimedDispatch(groupCount)[0]), Recorded(TimedDispatch(groupCount)[1]),
      Recorded(TimedDispatch(groupCount)[2]), Recorded(TimedDispatch(groupCount)[3]) ]
  }

  /** Allocate a command buffer and a descriptor set, begin, point the set's
      bindings 0, 1, 2 at A, B and C, and record the setup. */
  method BeginMultiply(vd: VulkanData) returns (r: Result<()>)
    requires vd.gpu.Valid()
    modifies vd.gpu`commandBuffers, vd.gpu`cbState, vd.gpu`recorded, vd.gpu`descriptorSets, vd.gpu`log
    ensures vd.gpu.Valid()
    ensures r.Ok? || r.Err?
    ensures r.Ok? <==>
      && Call.AllocateCommandBuffers !in vd.gpu.failing
      && Call.AllocateDescriptorSets !in vd.gpu.failing && old(vd.gpu.descriptorSets) < MaxDescriptorSets
      && Call.BeginCommandBuffer !in vd.gpu.failing
    ensures r.Err? ==> r.msg in {AllocateCommandBufferMessage, AllocateDescriptorSetMessage, BeginCommandBufferMessage}
    ensures r.Ok? ==>
      && vd.gpu.commandBuffers == old(vd.gpu.commandBuffers) + 1
      && vd.gpu.descriptorSets == old(vd.gpu.descriptorSets) + 1
      && vd.gpu.cbState == Recording && vd.gpu.recorded == SetupCommands(vd)
      && vd.gpu.log == old(vd.gpu.log) + SetupTrace(vd)
  {
    var gpu := vd.gpu;
    var ok := gpu.AllocateCommandBuffer();
    if !ok {
      return Err(AllocateCommandBufferMessage);
    }
    ok := gpu.AllocateDescriptorSet();
    if !ok {
      return Err(AllocateDescriptorSetMessage);
    }
    ok := gpu.BeginCommandBuffer();
    if !ok {
      return Err(BeginCommandBufferMessage);
    }
    gpu.UpdateDescriptorSet([vd.memBufferA.buffer, vd.memBufferB.buffer, vd.memBufferC.buffer]);
    var setup := SetupCommands(vd);
    gpu.Record(setup[0]);
    gpu.Record(setup[1]);
    gpu.Record(setup[2]);
    assert gpu.recorded == setup;
    return Ok(());
  }

  /** Record the timed dispatch of a `groupCount` x `groupCount` x 1 grid. */
  method RecordTimedDispatch(gpu: Driver, groupCount: nat)
    requires gpu.Valid() && gpu.cbState == Recording
    modifies gpu`recorded, gpu`log
    ensures gpu.Valid()
    ensures gpu.recorded == old(gpu.recorded) + TimedDispatch(groupCount)
    ensures gpu.log == old(gpu.log) + DispatchTrace(groupCount)
  {
    var timed := TimedDispatch(groupCount);
    gpu.Record(timed[0]);
    gpu.Record(timed[1]);
    gpu.Record(timed[2]);
    gpu.Record(timed[3]);
  }

  /** The recording half of multiply: the setup, then the two asserts that
      GROUP_COUNT is within the device's limits, then the timed dispatch. */
  method RecordMultiply(vd: VulkanData) returns (r: Result<()>)
    requires vd.gpu.Valid() && vd.constants.workgroupSize != 0
    modifies vd.gpu`commandBuffers, vd.gpu`cbState, vd.gpu`recorded, vd.gpu`descriptorSets, vd.gpu`log
    ensures vd.gpu.Valid()
    ensures r.Ok? <==>
      && Call.AllocateCommandBuffers !in vd.gpu.failing
      && Call.AllocateDescriptorSets !in vd.gpu.failing && old(vd.gpu.descriptorSets) < MaxDescriptorSets
      && Call.BeginCommandBuffer !in vd.gpu.failing
      && GroupCountFits(vd)
    ensures r.Panic? ==> !GroupCountFits(vd)
    ensures r.Panic? ==>
      r.msg == if GroupCount(vd.constants) > vd.properties.maxComputeWorkGroupCount.x then GroupCountXMessage else GroupCountYMessage
    ensures r.Err? ==> r.msg in {AllocateCommandBufferMessage, AllocateDescriptorSetMessage, BeginCommandBufferMessage}
    ensures r.Ok? ==>
      && vd.gpu.commandBuffers == old(vd.gpu.commandBuffers) + 1
      && vd.gpu.descriptorSets == old(vd.gpu.descriptorSets) + 1
      && vd.gpu.cbState == Recording
      && vd.gpu.recorded == SetupCommands(vd) + TimedDispatch(GroupCount(vd.constants))
      && vd.gpu.log == old(vd.gpu.log) + RecordTrace(vd, GroupCount(vd.constants))
  {
    var begun :- BeginMultiply(vd);
    var groupCount := (vd.constants.n % U32Limit) / vd.constants.workgroupSize;
    if !(groupCount <= vd.properties.maxComputeWorkGroupCount.x) {
      return Panic(GroupCountXMessage);
    }
    if !(groupCount <= vd.properties.maxComputeWorkGroupCount.y) {
      return Panic(GroupCountYMessage);
    }
    RecordTimedDispatch(vd.gpu, groupCount);
    return Ok(());
  }

  /** End the command buffer, submit it, wait for the device to go idle and
      read both timestamps. */
  method ExecuteTimed(gpu: Driver) returns (r: Result<()>)
    requires gpu.Valid() && gpu.cbState == Recording
    requires ExecuteQueries(gpu.recorded, gpu.queryAvailable) == [true, true]
    modifies gpu`cbState, gpu`queryAvailable, gpu`log
    ensures gpu.Valid()
    ensures r.Ok? || r.Err?
    ensures r.Ok? <==>
      && Call.EndCommandBuffer !in gpu.failing && Call.QueueSubmit !in gpu.failing
      && Call.DeviceWaitIdle !in gpu.failing && Call.GetQueryPoolResults !in gpu.failing
    ensures r.Err? ==> r.msg in {EndCommandBufferMessage, SubmitMessage, WaitIdleMessage, QueryResultsMessage}
    ensures r.Ok? ==>
      && gpu.cbState == Invalid && gpu.queryAvailable == [true, true]
      && gpu.log == old(gpu.log) + [CommandBufferEnded, Submitted, WaitedIdle, QueryResultsRead(0, QueryCount)]
  {
    var ok := gpu.EndCommandBuffer();
    if !ok {
      return Err(EndCommandBufferMessage);
    }
    ok := gpu.Submit();
    if !ok {
      return Err(SubmitMessage);
    }
    ok := gpu.WaitIdle();
    if !ok {
      return Err(WaitIdleMessage);
    }
    ok := gpu.GetQueryPoolResults(0, QueryCount);
    if !ok {
      return Err(QueryResultsMessage);
    }
    return Ok(());
  }

  /** Free the command buffer, reset the command pool, reset the descriptor
      pool (which frees the descriptor set). */
  method ReleaseCommandResources(gpu: Driver) returns (r: Result<()>)
    requires gpu.Valid() && gpu.commandBuffers > 0 && gpu.cbState != Pending
    modifies gpu`commandBuffers, gpu`cbState, gpu`recorded, gpu`descriptorSets, gpu`log
    ensures gpu.Valid()
    ensures r.Ok? || r.Err?
    ensures r.Ok? <==> Call.ResetCommandPool !in gpu.failing && Call.ResetDescriptorPool !in gpu.failing
    ensures r.Err? ==> r.msg in {ResetCommandPoolMessage, ResetDescriptorPoolMessage}
    ensures gpu.commandBuffers == old(gpu.commandBuffers) - 1
    ensures r.Ok? ==>
      && gpu.cbState == Initial && gpu.recorded == [] && gpu.descriptorSets == 0
      && gpu.log == old(gpu.log) + [CommandBufferFreed, CommandPoolReset, DescriptorPoolReset]
  {
    gpu.FreeCommandBuffer();
    var ok := gpu.ResetCommandPool();
    if !ok {
      return Err(ResetCommandPoolMessage);
    }
    ok := gpu.ResetDescriptorPool();
    if !ok {
      return Err(ResetDescriptorPoolMessage);
    }
    return Ok(());
  }

  /** Every step of multiply succeeds: both uploads fit and map, the command
      buffer and the (single) descriptor set can be allocated, GROUP_COUNT is
      within the device's limits, the submission runs and its timestamps can
      be read, both pools reset, and the read-back of C succeeds.
      `descriptorSets` is how many sets the pool had handed out beforehand,
      and `hostVisible` the memory the host could map beforehand. */
  predicate MultiplySucceeds(vd: VulkanData, countA: nat, countB: nat, descriptorSets: nat, hostVisible: set<Obj>)
    requires vd.constants.workgroupSize != 0 && WellFormed(vd.properties)
  {
    var failing := vd.gpu.failing;
    && UploadFits(0, countA, vd.memBufferA.size) && UploadFits(0, countB, vd.memBufferB.size)
    && Call.MapMemory !in failing
    && vd.memBufferA.deviceMemory in hostVisible && vd.memBufferB.deviceMemory in hostVisible
    && Call.AllocateCommandBuffers !in failing
    && Call.AllocateDescriptorSets !in failing && descriptorSets < MaxDescriptorSets
    && Call.BeginCommandBuffer !in failing
    && GroupCountFits(vd)
    && Call.EndCommandBuffer !in failing && Call.QueueSubmit !in failing
    && Call.DeviceWaitIdle !in failing && Call.GetQueryPoolResults !in failing
    && Call.ResetCommandPool !in failing && Call.ResetDescriptorPool !in failing
    && ReadFits(vd.constants.dataSize, vd.constants.n, vd.memBufferC.size)
    && Call.CreateBuffer !in failing && AnySuitable(vd.properties.memoryTypes, vd.gpu.typeBits, StagingMemoryFlags)
    && Call.AllocateMemory !in failing && Call.BindBufferMemory !in failing
  }

  /** What a successful multiply asks of the driver, in order; the staging
      buffer of the read-back takes the handles from `nextId` on. */
  function MultiplyTrace(vd: VulkanData, countA: nat, countB: nat, nextId: nat): seq<Event>
    requires vd.constants.workgroupSize != 0
  {
    UploadTrace(vd, countA, countB) + RunTrace(vd) + ReadBackTrace(vd.memBufferC.buffer, nextId, vd.constants.dataSize)
  }

  /** Map, fill and unmap A's memory, then B's. */
  function UploadTrace(vd: VulkanData, countA: nat, countB: nat): seq<Event> {
    [ MemoryMapped(vd.memBufferA.deviceMemory, 0, countA * SizeOfF32), MemoryUnmapped(vd.memBufferA.deviceMemory),
      MemoryMapped(vd.memBufferB.deviceMemory, 0, countB * SizeOfF32), MemoryUnmapped(vd.memBufferB.deviceMemory) ]
  }

  /** Record, run and time the dispatch, then release what it used. */
  function RunTrace(vd: VulkanData): seq<Event>
    requires vd.constants.workgroupSize != 0
  {
    RecordTrace(vd, GroupCount(vd.constants))
    + [ CommandBufferEnded, Submitted, WaitedIdle, QueryResultsRead(0, QueryCount),
        CommandBufferFreed, CommandPoolReset, DescriptorPoolReset ]
  }

  /** The two uploads of multiply, each at offset 0 of its buffer. */
  method UploadInputs(vd: VulkanData, a: seq<F32>, b: seq<F32>) returns (r: Result<()>)
    requires vd.gpu.Valid()
    requires Alive(vd.gpu, vd.memBufferA.deviceMemory) && Alive(vd.gpu, vd.memBufferB.deviceMemory)
    requires vd.memBufferA.size <= vd.memBufferA.bytes.Length && vd.memBufferB.size <= vd.memBufferB.bytes.Length
    requires vd.memBufferA.bytes != vd.memBufferB.bytes
    modifies vd.gpu`mapped, vd.gpu`log, vd.memBufferA.bytes, vd.memBufferB.bytes
    ensures vd.gpu.Valid() && vd.gpu.mapped == old(vd.gpu.mapped) && vd.gpu.live == old(vd.gpu.live)
    ensures vd.gpu.commandBuffers == old(vd.gpu.commandBuffers) && vd.gpu.nextId == old(vd.gpu.nextId)
    ensures r.Ok? <==>
      && UploadFits(0, |a|, vd.memBufferA.size) && UploadFits(0, |b|, vd.memBufferB.size)
      && vd.gpu.Mappable(vd.memBufferA.deviceMemory) && vd.gpu.Mappable(vd.memBufferB.deviceMemory)
    ensures !UploadFits(0, |a|, vd.memBufferA.size) ==> r == Panic(UploadAssertMessage) && vd.gpu.log == old(vd.gpu.log)
    ensures r.Ok? ==>
      && vd.memBufferA.bytes[..] == Overwrite(old(vd.memBufferA.bytes[..]), 0, EncodeF32s(a))
      && vd.memBufferB.bytes[..] == Overwrite(old(vd.memBufferB.bytes[..]), 0, EncodeF32s(b))
      && vd.gpu.log == old(vd.gpu.log) + UploadTrace(vd, |a|, |b|)
  {
    var uploadedA :- CopyDataToBuffer(vd.gpu, vd.memBufferA, 0, a);
    r := CopyDataToBuffer(vd.gpu, vd.memBufferB, 0, b);
  }

  /** Record the dispatch, run it, read its timestamps, and free the command
      buffer and the descriptor set again. */
  method RunTimedDispatch(vd: VulkanData) returns (r: Result<()>)
    requires vd.gpu.Valid() && vd.constants.workgroupSize != 0
    modifies vd.gpu`commandBuffers, vd.gpu`cbState, vd.gpu`recorded, vd.gpu`descriptorSets
    modifies vd.gpu`queryAvailable, vd.gpu`log
    ensures vd.gpu.Valid() && vd.gpu.live == old(vd.gpu.live) && vd.gpu.mapped == old(vd.gpu.mapped)
    ensures vd.gpu.nextId == old(vd.gpu.nextId)
    ensures r.Ok? <==>
      && Call.AllocateCommandBuffers !in vd.gpu.failing
      && Call.AllocateDescriptorSets !in vd.gpu.failing && old(vd.gpu.descriptorSets) < MaxDescriptorSets
      && Call.BeginCommandBuffer !in vd.gpu.failing
      && GroupCountFits(vd)
      && Call.EndCommandBuffer !in vd.gpu.failing && Call.QueueSubmit !in vd.gpu.failing
      && Call.DeviceWaitIdle !in vd.gpu.failing && Call.GetQueryPoolResults !in vd.gpu.failing
      && Call.ResetCommandPool !in vd.gpu.failing && Call.ResetDescriptorPool !in vd.gpu.failing
    ensures r.Ok? ==>
      && vd.gpu.commandBuffers == old(vd.gpu.commandBuffers) && vd.gpu.descriptorSets == 0
      && vd.gpu.log == old(vd.gpu.log) + RunTrace(vd)
  {
    var gpu := vd.gpu;
    var recordedOk :- RecordMultiply(vd);
    TimestampsAvailable(vd, gpu.queryAvailable);
    var executed :- ExecuteTimed(gpu);
    r := ReleaseCommandResources(gpu);
  }

  /** multiply: upload A and B, record and run the timed dispatch, read both
      timestamps, release the command buffer and the descriptor set, and read
      the N x N floats of C back through a staging buffer. The first failure
      returns at once. */
  method Multiply(vd: VulkanData, a: seq<F32>, b: seq<F32>) returns (r: Result<seq<F32>>)
    requires Valid(vd)
    modifies vd.gpu, vd.memBufferA.bytes, vd.memBufferB.bytes
    ensures Valid(vd)
    ensures r.Ok? <==> MultiplySucceeds(vd, |a|, |b|, old(vd.gpu.descriptorSets), old(vd.gpu.hostVisible))
    ensures vd.memBufferA.deviceMemory in vd.gpu.hostVisible <==> vd.memBufferA.deviceMemory in old(vd.gpu.hostVisible)
    ensures vd.memBufferB.deviceMemory in vd.gpu.hostVisible <==> vd.memBufferB.deviceMemory in old(vd.gpu.hostVisible)
    ensures !UploadFits(0, |a|, vd.memBufferA.size) ==> r == Panic(UploadAssertMessage) && vd.gpu.log == old(vd.gpu.log)
    ensures r.Ok? ==> r.value == DecodeF32s(vd.memBufferC.bytes[..], vd.constants.n * vd.constants.n)
    ensures r.Ok? ==>
      && vd.memBufferA.bytes[..] == Overwrite(old(vd.memBufferA.bytes[..]), 0, EncodeF32s(a))
      && vd.memBufferB.bytes[..] == Overwrite(old(vd.memBufferB.bytes[..]), 0, EncodeF32s(b))
    ensures r.Ok? ==>
      && vd.gpu.live == old(vd.gpu.live) && vd.gpu.descriptorSets == 0
      && vd.gpu.commandBuffers == old(vd.gpu.commandBuffers)
    ensures r.Ok? ==>
      vd.gpu.log == old(vd.gpu.log) + UploadTrace(vd, |a|, |b|) + RunTrace(vd)
                    + ReadBackTrace(vd.memBufferC.buffer, old(vd.gpu.nextId), vd.constants.dataSize)
  {
    var uploaded :- UploadInputs(vd, a, b);
    var ran :- RunTimedDispatch(vd);
    ghost var staging := Obj(MemoryObj, vd.gpu.nextId + 1);
    assert vd.memBufferA.deviceMemory != staging && vd.memBufferB.deviceMemory != staging;
    ghost var visible := vd.gpu.hostVisible;
    r := ReadDataFromBuffer(vd.gpu, vd.properties.memoryTypes, vd.memBufferC, vd.constants.dataSize, vd.constants.n);
    assert vd.gpu.hostVisible - {staging} == visible - {staging};
    assert vd.memBufferA.deviceMemory in vd.gpu.hostVisible <==> vd.memBufferA.deviceMemory in visible - {staging};
    assert vd.memBufferB.deviceMemory in vd.gpu.hostVisible <==> vd.memBufferB.deviceMemory in visible - {staging};
  }

  /** The order multiply relies on: both uploads are finished and the
      descriptor set points at A, B and C before the work is submitted; the
      query slots are reset before the first timestamp, and the dispatch sits
      between the two timestamps; the timestamps are read only after the
      device has gone idle; the descriptor pool is reset before the read-back
      creates its staging buffer, and C is copied out only after the device
      has gone idle. */
  lemma MultiplyTraceOrder(vd: VulkanData, countA: nat, countB: nat, nextId: nat)
    requires vd.constants.workgroupSize != 0
    ensures var t, g := MultiplyTrace(vd, countA, countB, nextId), GroupCount(vd.constants);
      && Precedes(t, MemoryUnmapped(vd.memBufferA.deviceMemory), Submitted)
      && Precedes(t, MemoryUnmapped(vd.memBufferB.deviceMemory), Submitted)
      && Precedes(t, DescriptorSetUpdated([vd.memBufferA.buffer, vd.memBufferB.buffer, vd.memBufferC.buffer]), Submitted)
      && Precedes(t, Recorded(ResetQueryPool(0, QueryCount)), Recorded(WriteTimestamp(TopOfPipe, 0)))
      && Precedes(t, Recorded(WriteTimestamp(TopOfPipe, 0)), Recorded(Dispatch(g, g, 1)))
      && Precedes(t, Recorded(Dispatch(g, g, 1)), Recorded(WriteTimestamp(BottomOfPipe, 1)))
      && Precedes(t, Recorded(WriteTimestamp(BottomOfPipe, 1)), CommandBufferEnded)
      && Precedes(t, WaitedIdle, QueryResultsRead(0, QueryCount))
      && Precedes(t, DescriptorPoolReset, Created(Obj(BufferObj, nextId)))
      && Precedes(t, WaitedIdle, Recorded(CopyBuffer(vd.memBufferC.buffer, Obj(BufferObj, nextId), 0, 0, vd.constants.dataSize)))
  {
    MultiplyUploadsBeforeSubmit(vd, countA, countB, nextId);
    MultiplyRunOrdered(vd, countA, countB, nextId);
    MultiplyReadBackAfterRun(vd, countA, countB, nextId);
  }

  /** Both uploads are unmapped, and the descriptor set updated, before the submit. */
  lemma MultiplyUploadsBeforeSubmit(vd: VulkanData, countA: nat, countB: nat, nextId: nat)
    requires vd.constants.workgroupSize != 0
    ensures var t := MultiplyTrace(vd, countA, countB, nextId);
      && Precedes(t, MemoryUnmapped(vd.memBufferA.deviceMemory), Submitted)
      && Precedes(t, MemoryUnmapped(vd.memBufferB.deviceMemory), Submitted)
      && Precedes(t, DescriptorSetUpdated([vd.memBufferA.buffer, vd.memBufferB.buffer, vd.memBufferC.buffer]), Submitted)
  {
    var u, run, back := UploadTrace(vd, countA, countB), RunTrace(vd), ReadBackTrace(vd.memBufferC.buffer, nextId, vd.constants.dataSize);
    RunTraceOrder(vd);
    assert u[1] == MemoryUnmapped(vd.memBufferA.deviceMemory) && u[3] == MemoryUnmapped(vd.memBufferB.deviceMemory);
    PrecedesAcross(u, run, back, MemoryUnmapped(vd.memBufferA.deviceMemory), Submitted);
    PrecedesAcross(u, run, back, MemoryUnmapped(vd.memBufferB.deviceMemory), Submitted);
    PrecedesWithin(u, run, back, DescriptorSetUpdated([vd.memBufferA.buffer, vd.memBufferB.buffer, vd.memBufferC.buffer]), Submitted);
  }

  /** The timestamps bracket the dispatch and are read after the device is idle. */
  lemma MultiplyRunOrdered(vd: VulkanData, countA: nat, countB: nat, nextId: nat)
    requires vd.constants.workgroupSize != 0
    ensures var t, g := MultiplyTrace(vd, countA, countB, nextId), GroupCount(vd.constants);
      && Precedes(t, Recorded(ResetQueryPool(0, QueryCount)), Recorded(WriteTimestamp(TopOfPipe, 0)))
      && Precedes(t, Recorded(WriteTimestamp(TopOfPipe, 0)), Recorded(Dispatch(g, g, 1)))
      && Precedes(t, Recorded(Dispatch(g, g, 1)), Recorded(WriteTimestamp(BottomOfPipe, 1)))
      && Precedes(t, Recorded(WriteTimestamp(BottomOfPipe, 1)), CommandBufferEnded)
      && Precedes(t, WaitedIdle, QueryResultsRead(0, QueryCount))
  {
    var u, run, back := UploadTrace(vd, countA, countB), RunTrace(vd), ReadBackTrace(vd.memBufferC.buffer, nextId, vd.constants.dataSize);
    var g := GroupCount(vd.constants);
    RunTraceOrder(vd);
    PrecedesWithin(u, run, back, Recorded(ResetQueryPool(0, QueryCount)), Recorded(WriteTimestamp(TopOfPipe, 0)));
    PrecedesWithin(u, run, back, Recorded(WriteTimestamp(TopOfPipe, 0)), Recorded(Dispatch(g, g, 1)));
    PrecedesWithin(u, run, back, Recorded(Dispatch(g, g, 1)), Recorded(WriteTimestamp(BottomOfPipe, 1)));
    PrecedesWithin(u, run, back, Recorded(WriteTimestamp(BottomOfPipe, 1)), CommandBufferEnded);
    PrecedesWithin(u, run, back, WaitedIdle, QueryResultsRead(0, QueryCount));
  }

  /** The read-back starts only after the run has released its descriptor
      set, and copies C out only after the device has gone idle. */
  lemma MultiplyReadBackAfterRun(vd: VulkanData, countA: nat, countB: nat, nextId: nat)
    requires vd.constants.workgroupSize != 0
    ensures var t := MultiplyTrace(vd, countA, countB, nextId);
      && Precedes(t, DescriptorPoolReset, Created(Obj(BufferObj, nextId)))
      && Precedes(t, WaitedIdle, Recorded(CopyBuffer(vd.memBufferC.buffer, Obj(BufferObj, nextId), 0, 0, vd.constants.dataSize)))
  {
    var u, run, back := UploadTrace(vd, countA, countB), RunTrace(vd), ReadBackTrace(vd.memBufferC.buffer, nextId, vd.constants.dataSize);
    assert run[13] == WaitedIdle && run[17] == DescriptorPoolReset;
    assert back[0] == Created(Obj(BufferObj, nextId));
    assert back[5] == Recorded(CopyBuffer(vd.memBufferC.buffer, Obj(BufferObj, nextId), 0, 0, vd.constants.dataSize));
    PrecedesAcross(u, run, back, DescriptorPoolReset, Created(Obj(BufferObj, nextId)));
    PrecedesAcross(u, run, back, WaitedIdle,
                   Recorded(CopyBuffer(vd.memBufferC.buffer, Obj(BufferObj, nextId), 0, 0, vd.constants.dataSize)));
  }

  /** The order inside the run of the dispatch: the descriptor set is updated
      before the submit, the query slots are reset before the first
      timestamp, the dispatch sits between the timestamps, the second
      timestamp is recorded before the command buffer ends, and the queries
      are read only after the device has gone idle. */
  lemma RunTraceOrder(vd: VulkanData)
    requires vd.constants.workgroupSize != 0
    ensures var t, g := RunTrace(vd), GroupCount(vd.constants);
      && Precedes(t, DescriptorSetUpdated([vd.memBufferA.buffer, vd.memBufferB.buffer, vd.memBufferC.buffer]), Submitted)
      && Precedes(t, Recorded(ResetQueryPool(0, QueryCount)), Recorded(WriteTimestamp(TopOfPipe, 0)))
      && Precedes(t, Recorded(WriteTimestamp(TopOfPipe, 0)), Recorded(Dispatch(g, g, 1)))
      && Precedes(t, Recorded(Dispatch(g, g, 1)), Recorded(WriteTimestamp(BottomOfPipe, 1)))
      && Precedes(t, Recorded(WriteTimestamp(BottomOfPipe, 1)), CommandBufferEnded)
      && Precedes(t, WaitedIdle, QueryResultsRead(0, QueryCount))
      && Submitted in t && WaitedIdle in t && DescriptorPoolReset in t
  {
    var t, g := RunTrace(vd), GroupCount(vd.constants);
    assert t[3] == DescriptorSetUpdated([vd.memBufferA.buffer, vd.memBufferB.buffer, vd.memBufferC.buffer]);
    assert t[7] == Recorded(ResetQueryPool(0, QueryCount)) && t[8] == Recorded(WriteTimestamp(TopOfPipe, 0));
    assert t[9] == Recorded(Dispatch(g, g, 1)) && t[10] == Recorded(WriteTimestamp(BottomOfPipe, 1));
    assert t[11] == CommandBufferEnded && t[12] == Submitted && t[13] == WaitedIdle;
    assert t[14] == QueryResultsRead(0, QueryCount) && t[17] == DescriptorPoolReset;
  }
}
