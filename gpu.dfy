/** The driver, as the engine sees it through its Vulkan bindings: objects it
    creates and destroys, device memory it maps, the command buffer it records
    and submits, the descriptor set it allocates and the two timestamp slots
    it resets and reads. The driver itself is foreign code, so each call is
    modelled by what it does to this abstract state; which calls are rejected
    is a parameter (`failing`). */
module Gpu {
  import opened Common

  datatype Kind =
    | InstanceObj | DeviceObj | BufferObj | MemoryObj | ShaderModuleObj
    | SetLayoutObj | PipelineLayoutObj | PipelineObj
    | CommandPoolObj | DescriptorPoolObj | QueryPoolObj

  /** A driver handle: what kind of object it names, and a serial number. */
  datatype Obj = Obj(kind: Kind, id: nat)

  /** The driver entry points that can return an error code. */
  datatype Call =
    | CreateDevice | CreateBuffer | AllocateMemory | BindBufferMemory | MapMemory
    | CreateShaderModule | CreateDescriptorSetLayout | CreatePipelineLayout
    | CreateComputePipelines | CreateCommandPool | CreateDescriptorPool | CreateQueryPool
    | AllocateCommandBuffers | AllocateDescriptorSets | BeginCommandBuffer | EndCommandBuffer
    | QueueSubmit | DeviceWaitIdle | GetQueryPoolResults | ResetCommandPool | ResetDescriptorPool

  datatype PipelineStage = TopOfPipe | BottomOfPipe

  /** Commands recorded into a command buffer (`cmd_*`). */
  datatype Command =
    | PushConstants(offset: nat, bytes: seq<bv8>)
    | BindDescriptorSet(firstSet: nat)
    | BindPipeline(pipeline: Obj)
    | ResetQueryPool(first: nat, count: nat)
    | WriteTimestamp(stage: PipelineStage, slot: nat)
    | Dispatch(x: nat, y: nat, z: nat)
    | CopyBuffer(src: Obj, dst: Obj, srcOffset: nat, dstOffset: nat, size: nat)

  /** The command-buffer lifecycle of the Command Buffers chapter of the Vulkan
      specification; a one-time-submit buffer becomes Invalid once executed. */
  datatype CommandBufferState = Initial | Recording | Executable | Pending | Invalid

  /** `vk::BufferCreateInfo` (sharing mode EXCLUSIVE). */
  datatype BufferCreateInfo = BufferCreateInfo(size: nat, usage: bv32)

  datatype SpecializationMapEntry = SpecializationMapEntry(constantId: nat, offset: nat, size: nat)
  datatype SpecializationInfo = SpecializationInfo(mapEntries: seq<SpecializationMapEntry>, data: seq<bv8>)
  datatype ShaderStage = ComputeStage
  datatype ComputePipelineCreateInfo = ComputePipelineCreateInfo(
    stage: ShaderStage, shaderModule: Obj, entryName: string, specialization: SpecializationInfo, layout: Obj)

  /** What the engine asked of the driver, in order. */
  datatype Event =
    | Created(obj: Obj)
    | Destroyed(obj: Obj)
    | MemoryBound(buffer: Obj, memory: Obj, offset: nat)
    | MemoryMapped(memory: Obj, offset: nat, size: nat)
    | MemoryUnmapped(memory: Obj)
    | CommandBufferAllocated
    | CommandBufferBegun
    | Recorded(cmd: Command)
    | CommandBufferEnded
    | Submitted
    | WaitedIdle
    | QueryResultsRead(first: nat, count: nat)
    | CommandBufferFreed
    | CommandPoolReset
    | DescriptorSetAllocated
    | DescriptorSetUpdated(bindings: seq<Obj>)
    | DescriptorPoolReset

  /** Timestamp slots in the query pool (create_query_pool.rs). */
  const QueryCount: nat := 2
  /** `max_sets` of the descriptor pool (create_descriptor_pool.rs). */
  const MaxDescriptorSets: nat := 1

  /** A size rounded up to the driver's required alignment: what
      `get_buffer_memory_requirements` reports as the size to allocate in this
      model. Vulkan promises only that the reported size is at least the
      buffer's size; staying below one alignment above it is this model
      driver's choice. */
  function RoundUp(size: nat, alignment: nat): (r: nat)
    requires alignment > 0
    ensures size <= r < size + alignment
  {
    if size % alignment == 0 then size else size + (alignment - size % alignment)
  }

  /** Availability of the timestamp slots after the device has executed `cmds`. */
  function ExecuteQueries(cmds: seq<Command>, slots: seq<bool>): (r: seq<bool>)
    ensures |r| == |slots|
  {
    if cmds == [] then slots
    else
      var next :=
        match cmds[0]
        case ResetQueryPool(first, count) =>
          seq(|slots|, i requires 0 <= i < |slots| => if first <= i < first + count then false else slots[i])
        case WriteTimestamp(_, slot) => if slot < |slots| then slots[slot := true] else slots
        case _ => slots;
      ExecuteQueries(cmds[1..], next)
  }

  /** `a` occurs in the trace before `b`. */
  predicate Precedes(t: seq<Event>, a: Event, b: Event) {
    exists i, j :: 0 <= i < j < |t| && t[i] == a && t[j] == b
  }

  /** An order inside one part of a trace holds in the whole trace. */
  lemma PrecedesWithin(p: seq<Event>, u: seq<Event>, q: seq<Event>, a: Event, b: Event)
    requires Precedes(u, a, b)
    ensures Precedes(p + u + q, a, b)
  {
    var i, j :| 0 <= i < j < |u| && u[i] == a && u[j] == b;
    var t := p + u + q;
    assert t[|p| + i] == a && t[|p| + j] == b;
  }

  /** An event in an earlier part of a trace precedes every event of a later part. */
  lemma PrecedesAcross(p: seq<Event>, u: seq<Event>, q: seq<Event>, a: Event, b: Event)
    requires (a in p && b in u) || (a in p && b in q) || (a in u && b in q)
    ensures Precedes(p + u + q, a, b)
  {
    var t := p + u + q;
    if a in p && b in u {
      var i, j :| 0 <= i < |p| && p[i] == a && 0 <= j < |u| && u[j] == b;
      assert t[i] == a && t[|p| + j] == b;
    } else if a in p {
      var i, j :| 0 <= i < |p| && p[i] == a && 0 <= j < |q| && q[j] == b;
      assert t[i] == a && t[|p| + |u| + j] == b;
    } else {
      var i, j :| 0 <= i < |u| && u[i] == a && 0 <= j < |q| && q[j] == b;
      assert t[|p| + i] == a && t[|p| + |u| + j] == b;
    }
  }

  /** Executing two command sequences one after the other is executing their concatenation. */
  lemma {:induction false} ExecuteQueriesAppend(p: seq<Command>, q: seq<Command>, slots: seq<bool>)
    ensures ExecuteQueries(p + q, slots) == ExecuteQueries(q, ExecuteQueries(p, slots))
  {
    if p == [] {
      assert p + q == q;
    } else {
      assert (p + q)[0] == p[0] && (p + q)[1..] == p[1..] + q;
      var next :=
        match p[0]
        case ResetQueryPool(first, count) =>
          seq(|slots|, i requires 0 <= i < |slots| => if first <= i < first + count then false else slots[i])
        case WriteTimestamp(_, slot) => if slot < |slots| then slots[slot := true] else slots
        case _ => slots;
      assert ExecuteQueries(p + q, slots) == ExecuteQueries(p[1..] + q, next);
      assert ExecuteQueries(p, slots) == ExecuteQueries(p[1..], next);
      ExecuteQueriesAppend(p[1..], q, next);
    }
  }

  class Driver {
    /** The entry points the driver rejects (every call of these kinds fails). */
    const failing: set<Call>
    /** `memory_requirements.alignment` of every buffer. */
    const alignment: nat
    /** `memory_requirements.memory_type_bits` of every buffer. */
    const typeBits: bv32

    var live: set<Obj>
    var nextId: nat
    var log: seq<Event>
    /** Buffer -> the memory bound to it (always at offset 0 here). */
    var boundMemory: map<Obj, Obj>
    /** Memory -> the memory-type index it was allocated from. */
    var memoryTypeOf: map<Obj, nat>
    /** Memory allocated from a HOST_VISIBLE memory type: the only memory the host may map. */
    var hostVisible: set<Obj>
    var bufferInfo: map<Obj, BufferCreateInfo>
    var pipelineInfo: map<Obj, ComputePipelineCreateInfo>
    var mapped: set<Obj>
    /** Command buffers allocated from the command pool, and the state of the latest. */
    var commandBuffers: nat
    var cbState: CommandBufferState
    var recorded: seq<Command>
    /** Descriptor sets allocated from the descriptor pool. */
    var descriptorSets: nat
    /** Whether each timestamp slot holds an available result. */
    var queryAvailable: seq<bool>

    ghost predicate Valid()
      reads this
    {
      && alignment > 0
      && |queryAvailable| == QueryCount
      && (forall o :: o in live ==> o.id < nextId)
      && descriptorSets <= MaxDescriptorSets
      && mapped <= live
    }

    /** The instance handle, created before the engine starts. */
    function Instance(): Obj {
      Obj(InstanceObj, 0)
    }

    /** The size `get_buffer_memory_requirements` reports for a buffer of `size` bytes. */
    function RequiredSize(size: nat): (r: nat)
      requires alignment > 0
      ensures size <= r
    {
      RoundUp(size, alignment)
    }

    constructor (failing: set<Call>, alignment: nat, typeBits: bv32)
      requires alignment > 0
      ensures Valid()
      ensures this.failing == failing && this.alignment == alignment && this.typeBits == typeBits
      ensures live == {Instance()} && log == [] && mapped == {} && hostVisible == {}
      ensures commandBuffers == 0 && descriptorSets == 0
    {
      this.failing := failing;
      this.alignment := alignment;
      this.typeBits := typeBits;
      live := {Obj(InstanceObj, 0)};
      nextId := 1;
      log := [];
      boundMemory := map[];
      memoryTypeOf := map[];
      hostVisible := {};
      bufferInfo := map[];
      pipelineInfo := map[];
      mapped := {};
      commandBuffers := 0;
      cbState := Invalid;
      recorded := [];
      descriptorSets := 0;
      queryAvailable := [false, false];
    }

    /** A `create_*` call: a fresh handle of `kind`, unless `call` is rejected. */
    method Create(kind: Kind, call: Call) returns (ok: bool, o: Obj)
      requires Valid()
      modifies this`live, this`nextId, this`log
      ensures Valid()
      ensures ok == (call !in failing)
      ensures ok ==> o == Obj(kind, old(nextId)) && o !in old(live)
      ensures ok ==> live == old(live) + {o} && nextId == old(nextId) + 1 && log == old(log) + [Created(o)]
      ensures !ok ==> live == old(live) && nextId == old(nextId) && log == old(log)
    {
      o := Obj(kind, nextId);
      ok := call !in failing;
      if ok {
        live := live + {o};
        nextId := nextId + 1;
        log := log + [Created(o)];
      }
    }

    /** `allocate_memory`: fresh memory of `size` bytes from memory type
        `typeIndex`, whose property flags include HOST_VISIBLE iff `visible`. */
    method AllocateMemory(size: nat, typeIndex: nat, visible: bool) returns (ok: bool, o: Obj, bytes: array<bv8>)
      requires Valid()
      modifies this`live, this`nextId, this`log, this`memoryTypeOf, this`hostVisible
      ensures Valid()
      ensures ok == (Call.AllocateMemory !in failing)
      ensures ok ==> o == Obj(MemoryObj, old(nextId)) && o !in old(live) && fresh(bytes) && bytes.Length == size
      ensures ok ==> live == old(live) + {o} && nextId == old(nextId) + 1 && log == old(log) + [Created(o)]
      ensures ok ==> memoryTypeOf == old(memoryTypeOf)[o := typeIndex]
      ensures ok ==> hostVisible == if visible then old(hostVisible) + {o} else old(hostVisible) - {o}
      ensures !ok ==> live == old(live) && nextId == old(nextId) && log == old(log)
      ensures !ok ==> memoryTypeOf == old(memoryTypeOf) && hostVisible == old(hostVisible)
    {
      o := Obj(MemoryObj, nextId);
      bytes := new bv8[size];
      ok := Call.AllocateMemory !in failing;
      if ok {
        live := live + {o};
        nextId := nextId + 1;
        log := log + [Created(o)];
        memoryTypeOf := memoryTypeOf[o := typeIndex];
        hostVisible := if visible then hostVisible + {o} else hostVisible - {o};
      }
    }

    /** `create_compute_pipelines` with one create-info. */
    method CreateComputePipeline(info: ComputePipelineCreateInfo) returns (ok: bool, o: Obj)
      requires Valid()
      modifies this`live, this`nextId, this`log, this`pipelineInfo
      ensures Valid()
      ensures ok == (Call.CreateComputePipelines !in failing)
      ensures ok ==> o == Obj(PipelineObj, old(nextId)) && o !in old(live)
      ensures ok ==> live == old(live) + {o} && nextId == old(nextId) + 1 && log == old(log) + [Created(o)]
      ensures ok ==> pipelineInfo == old(pipelineInfo)[o := info]
      ensures !ok ==> live == old(live) && nextId == old(nextId) && log == old(log) && pipelineInfo == old(pipelineInfo)
    {
      ok, o := Create(PipelineObj, CreateComputePipelines);
      if ok {
        pipelineInfo := pipelineInfo[o := info];
      }
    }

    /** `create_buffer` of `size` bytes for `usage`. */
    method CreateBuffer(size: nat, usage: bv32) returns (ok: bool, o: Obj)
      requires Valid()
      modifies this`live, this`nextId, this`log, this`bufferInfo
      ensures Valid()
      ensures ok == (Call.CreateBuffer !in failing)
      ensures ok ==> o == Obj(BufferObj, old(nextId)) && o !in old(live)
      ensures ok ==> live == old(live) + {o} && nextId == old(nextId) + 1 && log == old(log) + [Created(o)]
      ensures ok ==> bufferInfo == old(bufferInfo)[o := BufferCreateInfo(size, usage)]
      ensures !ok ==> live == old(live) && nextId == old(nextId) && log == old(log) && bufferInfo == old(bufferInfo)
    {
      ok, o := Create(BufferObj, Call.CreateBuffer);
      if ok {
        bufferInfo := bufferInfo[o := BufferCreateInfo(size, usage)];
      }
    }

    /** A `destroy_*` or `free_memory` call. */
    method Destroy(o: Obj)
      requires Valid() && o in live && o !in mapped
      modifies this`live, this`log
      ensures Valid()
      ensures live == old(live) - {o} && log == old(log) + [Destroyed(o)]
    {
      live := live - {o};
      log := log + [Destroyed(o)];
    }

    /** `bind_buffer_memory(buffer, memory, offset)`. */
    method BindBufferMemory(buffer: Obj, memory: Obj, offset: nat) returns (ok: bool)
      requires Valid() && buffer in live && memory in live
      modifies this`boundMemory, this`log
      ensures Valid()
      ensures ok == (Call.BindBufferMemory !in failing)
      ensures ok ==> boundMemory == old(boundMemory)[buffer := memory] && log == old(log) + [MemoryBound(buffer, memory, offset)]
      ensures !ok ==> boundMemory == old(boundMemory) && log == old(log)
    {
      ok := Call.BindBufferMemory !in failing;
      if ok {
        boundMemory := boundMemory[buffer := memory];
        log := log + [MemoryBound(buffer, memory, offset)];
      }
    }

    /** The host may map `memory`: it comes from a HOST_VISIBLE memory type and
        the driver does not reject `map_memory`. */
    predicate Mappable(memory: Obj)
      reads this
    {
      Call.MapMemory !in failing && memory in hostVisible
    }

    /** `map_memory(memory, offset, size)`. Mapping memory of a type without
        HOST_VISIBLE is not allowed by Vulkan; here it is a failed map. */
    method MapMemory(memory: Obj, offset: nat, size: nat) returns (ok: bool)
      requires Valid() && memory in live && memory !in mapped
      modifies this`mapped, this`log
      ensures Valid()
      ensures ok == Mappable(memory)
      ensures ok ==> mapped == old(mapped) + {memory} && log == old(log) + [MemoryMapped(memory, offset, size)]
      ensures !ok ==> mapped == old(mapped) && log == old(log)
    {
      ok := Mappable(memory);
      if ok {
        mapped := mapped + {memory};
        log := log + [MemoryMapped(memory, offset, size)];
      }
    }

    /** `unmap_memory(memory)`. */
    method UnmapMemory(memory: Obj)
      requires Valid() && memory in mapped
      modifies this`mapped, this`log
      ensures Valid()
      ensures mapped == old(mapped) - {memory} && log == old(log) + [MemoryUnmapped(memory)]
    {
      mapped := mapped - {memory};
      log := log + [MemoryUnmapped(memory)];
    }

    /** `allocate_command_buffers` with a count of one, from the command pool. */
    method AllocateCommandBuffer() returns (ok: bool)
      requires Valid()
      modifies this`commandBuffers, this`cbState, this`recorded, this`log
      ensures Valid()
      ensures ok == (Call.AllocateCommandBuffers !in failing)
      ensures ok ==> commandBuffers == old(commandBuffers) + 1 && cbState == Initial && recorded == []
      ensures ok ==> log == old(log) + [CommandBufferAllocated]
      ensures !ok ==> commandBuffers == old(commandBuffers) && cbState == old(cbState)
      ensures !ok ==> recorded == old(recorded) && log == old(log)
    {
      ok := Call.AllocateCommandBuffers !in failing;
      if ok {
        commandBuffers := commandBuffers + 1;
        cbState := Initial;
        recorded := [];
        log := log + [CommandBufferAllocated];
      }
    }

    /** `begin_command_buffer` with ONE_TIME_SUBMIT. */
    method BeginCommandBuffer() returns (ok: bool)
      requires Valid() && commandBuffers > 0 && cbState == Initial
      modifies this`cbState, this`log
      ensures Valid()
      ensures ok == (Call.BeginCommandBuffer !in failing)
      ensures ok ==> cbState == Recording && log == old(log) + [CommandBufferBegun]
      ensures !ok ==> cbState == old(cbState) && log == old(log)
    {
      ok := Call.BeginCommandBuffer !in failing;
      if ok {
        cbState := Recording;
        log := log + [CommandBufferBegun];
      }
    }

    /** A `cmd_*` call: appends to the buffer being recorded. */
    method Record(cmd: Command)
      requires Valid() && cbState == Recording
      modifies this`recorded, this`log
      ensures Valid()
      ensures recorded == old(recorded) + [cmd] && log == old(log) + [Recorded(cmd)]
    {
      recorded := recorded + [cmd];
      log := log + [Recorded(cmd)];
    }

    /** `end_command_buffer`. */
    method EndCommandBuffer() returns (ok: bool)
      requires Valid() && cbState == Recording
      modifies this`cbState, this`log
      ensures Valid()
      ensures ok == (Call.EndCommandBuffer !in failing)
      ensures ok ==> cbState == Executable && log == old(log) + [CommandBufferEnded]
      ensures !ok ==> cbState == old(cbState) && log == old(log)
    {
      ok := Call.EndCommandBuffer !in failing;
      if ok {
        cbState := Executable;
        log := log + [CommandBufferEnded];
      }
    }

    /** `queue_submit` of the latest command buffer, with no fence. */
    method Submit() returns (ok: bool)
      requires Valid() && cbState == Executable
      modifies this`cbState, this`log
      ensures Valid()
      ensures ok == (Call.QueueSubmit !in failing)
      ensures ok ==> cbState == Pending && log == old(log) + [Submitted]
      ensures !ok ==> cbState == old(cbState) && log == old(log)
    {
      ok := Call.QueueSubmit !in failing;
      if ok {
        cbState := Pending;
        log := log + [Submitted];
      }
    }

    /** `device_wait_idle`: once it returns, submitted work has executed. */
    method WaitIdle() returns (ok: bool)
      requires Valid()
      modifies this`cbState, this`queryAvailable, this`log
      ensures Valid()
      ensures ok == (Call.DeviceWaitIdle !in failing)
      ensures ok && old(cbState) == Pending ==>
        cbState == Invalid && queryAvailable == ExecuteQueries(recorded, old(queryAvailable))
      ensures ok && old(cbState) != Pending ==> cbState == old(cbState) && queryAvailable == old(queryAvailable)
      ensures ok ==> log == old(log) + [WaitedIdle]
      ensures !ok ==> cbState == old(cbState) && queryAvailable == old(queryAvailable) && log == old(log)
    {
      ok := Call.DeviceWaitIdle !in failing;
      if ok {
        if cbState == Pending {
          cbState := Invalid;
          queryAvailable := ExecuteQueries(recorded, queryAvailable);
        }
        log := log + [WaitedIdle];
      }
    }

    /** `get_query_pool_results` without the WAIT flag: a slot whose result is
        not available yet makes the call report NOT_READY, an error. */
    method GetQueryPoolResults(first: nat, count: nat) returns (ok: bool)
      requires Valid() && first + count <= QueryCount
      modifies this`log
      ensures Valid()
      ensures ok <==> Call.GetQueryPoolResults !in failing && forall i :: first <= i < first + count ==> queryAvailable[i]
      ensures ok ==> log == old(log) + [QueryResultsRead(first, count)]
      ensures !ok ==> log == old(log)
    {
      ok := Call.GetQueryPoolResults !in failing && forall i :: first <= i < first + count ==> queryAvailable[i];
      if ok {
        log := log + [QueryResultsRead(first, count)];
      }
    }

    /** `free_command_buffers` of the latest command buffer. */
    method FreeCommandBuffer()
      requires Valid() && commandBuffers > 0 && cbState != Pending
      modifies this`commandBuffers, this`log
      ensures Valid()
      ensures commandBuffers == old(commandBuffers) - 1 && log == old(log) + [CommandBufferFreed]
    {
      commandBuffers := commandBuffers - 1;
      log := log + [CommandBufferFreed];
    }

    /** `reset_command_pool` with RELEASE_RESOURCES: buffers still allocated go
        back to Initial; none is freed. */
    method ResetCommandPool() returns (ok: bool)
      requires Valid() && cbState != Pending
      modifies this`cbState, this`recorded, this`log
      ensures Valid()
      ensures ok == (Call.ResetCommandPool !in failing)
      ensures ok ==> cbState == Initial && recorded == [] && log == old(log) + [CommandPoolReset]
      ensures !ok ==> cbState == old(cbState) && recorded == old(recorded) && log == old(log)
    {
      ok := Call.ResetCommandPool !in failing;
      if ok {
        cbState := Initial;
        recorded := [];
        log := log + [CommandPoolReset];
      }
    }

    /** `allocate_descriptor_sets` of one set; the pool holds at most `MaxDescriptorSets`. */
    method AllocateDescriptorSet() returns (ok: bool)
      requires Valid()
      modifies this`descriptorSets, this`log
      ensures Valid()
      ensures ok == (Call.AllocateDescriptorSets !in failing && old(descriptorSets) < MaxDescriptorSets)
      ensures ok ==> descriptorSets == old(descriptorSets) + 1 && log == old(log) + [DescriptorSetAllocated]
      ensures !ok ==> descriptorSets == old(descriptorSets) && log == old(log)
    {
      ok := Call.AllocateDescriptorSets !in failing && descriptorSets < MaxDescriptorSets;
      if ok {
        descriptorSets := descriptorSets + 1;
        log := log + [DescriptorSetAllocated];
      }
    }

    /** `update_descriptor_sets`: the set's bindings 0, 1, 2, ... point at `buffers`. */
    method UpdateDescriptorSet(buffers: seq<Obj>)
      requires Valid() && descriptorSets > 0
      modifies this`log
      ensures Valid()
      ensures log == old(log) + [DescriptorSetUpdated(buffers)]
    {
      log := log + [DescriptorSetUpdated(buffers)];
    }

    /** `reset_descriptor_pool`: every set allocated from the pool is freed. */
    method ResetDescriptorPool() returns (ok: bool)
      requires Valid()
      modifies this`descriptorSets, this`log
      ensures Valid()
      ensures ok == (Call.ResetDescriptorPool !in failing)
      ensures ok ==> descriptorSets == 0 && log == old(log) + [DescriptorPoolReset]
      ensures !ok ==> descriptorSets == old(descriptorSets) && log == old(log)
    {
      ok := Call.ResetDescriptorPool !in failing;
      if ok {
        descriptorSets := 0;
        log := log + [DescriptorPoolReset];
      }
    }
  }

  /** Resetting both slots and then writing both timestamps leaves both
      results available, whatever the slots held before. */
  lemma {:induction false} TimestampPairAvailable(pre: seq<Command>, post: seq<Command>, slots: seq<bool>)
    requires |slots| == QueryCount
    requires forall c :: c in post ==> !c.ResetQueryPool?
    requires WriteTimestamp(TopOfPipe, 0) in post && WriteTimestamp(BottomOfPipe, 1) in post
    ensures ExecuteQueries(post, ExecuteQueries(pre, slots)) == [true, true]
  {
    ExecuteQueriesNoReset(post, ExecuteQueries(pre, slots));
  }

  /** Without resets, executing commands only ever makes slots available, and
      every slot written along the way ends up available. */
  lemma {:induction false} ExecuteQueriesNoReset(cmds: seq<Command>, slots: seq<bool>)
    requires forall c :: c in cmds ==> !c.ResetQueryPool?
    ensures forall i :: 0 <= i < |slots| && slots[i] ==> ExecuteQueries(cmds, slots)[i]
    ensures forall s, i: nat :: WriteTimestamp(s, i) in cmds && 0 <= i < |slots| ==> ExecuteQueries(cmds, slots)[i]
  {
    if cmds != [] {
      var next :=
        match cmds[0]
        case WriteTimestamp(_, slot) => if slot < |slots| then slots[slot := true] else slots
        case _ => slots;
      assert ExecuteQueries(cmds, slots) == ExecuteQueries(cmds[1..], next);
      ExecuteQueriesNoReset(cmds[1..], next);
      forall s, i: nat | WriteTimestamp(s, i) in cmds && 0 <= i < |slots|
        ensures ExecuteQueries(cmds, slots)[i]
      {
        if WriteTimestamp(s, i) != cmds[0] {
          assert WriteTimestamp(s, i) in cmds[1..];
        }
      }
    }
  }
}
