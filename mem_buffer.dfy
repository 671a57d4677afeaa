/** A buffer with its own dedicated device memory (src/vulkan/create_mem_buffer.rs). */
module MemBuffers {
  import opened Common
  import opened Gpu
  import opened MemoryTypes

  /** VkBufferUsageFlagBits. */
  const TransferSrc: bv32 := 0x1
  const TransferDst: bv32 := 0x2
  const StorageBuffer: bv32 := 0x20

  const CreateBufferMessage := "failed to create buffer"
  const AllocateMemoryMessage := "failed to allocate device memory"
  const BindMemoryMessage := "failed to bind buffer and memory"

  /** `MemBuffer`: the buffer handle, the handle of the memory bound to it, and
      the size the caller asked for. `bytes` is the content of that memory. */
  datatype MemBuffer = MemBuffer(buffer: Obj, deviceMemory: Obj, bytes: array<bv8>, size: nat)

  /** Some memory type of the table may back the buffer with the desired properties. */
  predicate AnySuitable(memoryTypes: seq<bv32>, typeBits: bv32, desired: bv32)
    requires |memoryTypes| <= MaxMemoryTypes
  {
    exists i :: 0 <= i < |memoryTypes| && Suitable(memoryTypes, typeBits, desired, i)
  }

  /** `i` is the index the first-fit search returns. */
  predicate FirstSuitable(memoryTypes: seq<bv32>, typeBits: bv32, desired: bv32, i: nat)
    requires |memoryTypes| <= MaxMemoryTypes
  {
    && i < |memoryTypes|
    && Suitable(memoryTypes, typeBits, desired, i)
    && forall j :: 0 <= j < i ==> !Suitable(memoryTypes, typeBits, desired, j)
  }

  /** `m`'s memory was allocated from the first memory type suitable for
      `flags`, and the host may map it exactly when that type is HOST_VISIBLE. */
  ghost predicate Placed(gpu: Driver, memoryTypes: seq<bv32>, m: MemBuffer, flags: bv32)
    requires |memoryTypes| <= MaxMemoryTypes
    reads gpu`memoryTypeOf, gpu`hostVisible
  {
    && m.deviceMemory in gpu.memoryTypeOf
    && FirstSuitable(memoryTypes, gpu.typeBits, flags, gpu.memoryTypeOf[m.deviceMemory])
    && (m.deviceMemory in gpu.hostVisible <==> Contains(memoryTypes[gpu.memoryTypeOf[m.deviceMemory]], HostVisible))
  }

  /** What a successful create_mem_buffer asks of the driver when the next
      free handle is `nextId`: the buffer, then its memory, then the binding. */
  function CreateMemBufferTrace(nextId: nat): seq<Event> {
    var buffer, memory := Obj(BufferObj, nextId), Obj(MemoryObj, nextId + 1);
    [Created(buffer), Created(memory), MemoryBound(buffer, memory, 0)]
  }

  /** create_mem_buffer, with the size, usage and memory flags its callers pass:
      create the buffer, pick the first suitable memory type for it, allocate
      the size the driver requires (which may exceed `size`) and bind it at
      offset 0. A failure returns at once; the buffer (and memory) created
      before it stay alive. */
  method CreateMemBuffer(gpu: Driver, memoryTypes: seq<bv32>, size: nat, usage: bv32, memoryFlags: bv32)
    returns (r: Result<MemBuffer>)
    requires gpu.Valid() && |memoryTypes| <= MaxMemoryTypes
    modifies gpu`live, gpu`nextId, gpu`log, gpu`bufferInfo, gpu`memoryTypeOf, gpu`hostVisible, gpu`boundMemory
    ensures gpu.Valid() && old(gpu.live) <= gpu.live
    ensures gpu.hostVisible - {Obj(MemoryObj, old(gpu.nextId) + 1)} == old(gpu.hostVisible) - {Obj(MemoryObj, old(gpu.nextId) + 1)}
    ensures r.Ok? || r.Err?
    ensures r.Ok? <==>
      && Call.CreateBuffer !in gpu.failing
      && AnySuitable(memoryTypes, gpu.typeBits, memoryFlags)
      && Call.AllocateMemory !in gpu.failing
      && Call.BindBufferMemory !in gpu.failing
    ensures r.Ok? ==>
      var m := r.value;
      var buffer, memory := Obj(BufferObj, old(gpu.nextId)), Obj(MemoryObj, old(gpu.nextId) + 1);
      && m.buffer == buffer && m.deviceMemory == memory && m.size == size
      && fresh(m.bytes) && m.bytes.Length == gpu.RequiredSize(size)
      && gpu.live == old(gpu.live) + {buffer, memory} && gpu.nextId == old(gpu.nextId) + 2
      && gpu.bufferInfo == old(gpu.bufferInfo)[buffer := BufferCreateInfo(size, usage)]
      && Placed(gpu, memoryTypes, m, memoryFlags)
      && gpu.memoryTypeOf == old(gpu.memoryTypeOf)[memory := gpu.memoryTypeOf[memory]]
      && gpu.boundMemory == old(gpu.boundMemory)[buffer := memory]
      && gpu.log == old(gpu.log) + CreateMemBufferTrace(old(gpu.nextId))
    ensures Call.CreateBuffer in gpu.failing ==>
      r == Err(CreateBufferMessage) && gpu.live == old(gpu.live) && gpu.log == old(gpu.log)
    ensures Call.CreateBuffer !in gpu.failing && !AnySuitable(memoryTypes, gpu.typeBits, memoryFlags) ==>
      r == Err(NoMemoryTypeMessage) && gpu.live == old(gpu.live) + {Obj(BufferObj, old(gpu.nextId))}
    ensures Call.CreateBuffer !in gpu.failing && AnySuitable(memoryTypes, gpu.typeBits, memoryFlags) && Call.AllocateMemory in gpu.failing ==>
      r == Err(AllocateMemoryMessage) && gpu.live == old(gpu.live) + {Obj(BufferObj, old(gpu.nextId))}
    ensures (Call.CreateBuffer !in gpu.failing && AnySuitable(memoryTypes, gpu.typeBits, memoryFlags)
             && Call.AllocateMemory !in gpu.failing && Call.BindBufferMemory in gpu.failing) ==>
      r == Err(BindMemoryMessage)
      && gpu.live == old(gpu.live) + {Obj(BufferObj, old(gpu.nextId)), Obj(MemoryObj, old(gpu.nextId) + 1)}
  {
    // create_buffer
    var ok, buffer := gpu.CreateBuffer(size, usage);
    if !ok {
      return Err(CreateBufferMessage);
    }
    // find_buffer_memory_type
    var memoryType := GetSupportedMemoryPropertyIndex(memoryTypes, gpu.typeBits, memoryFlags);
    if memoryType.Err? {
      return Err(memoryType.msg);
    }
    // create_device_memory: allocate the requirement's size, not the requested one
    var memory, bytes;
    ok, memory, bytes := gpu.AllocateMemory(gpu.RequiredSize(size), memoryType.value,
                                          Contains(memoryTypes[memoryType.value], HostVisible));
    if !ok {
      return Err(AllocateMemoryMessage);
    }
    ok := gpu.BindBufferMemory(buffer, memory, 0);
    if !ok {
      return Err(BindMemoryMessage);
    }
    return Ok(MemBuffer(buffer, memory, bytes, size));
  }
}
