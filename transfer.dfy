/** Moving floats between the host and device memory: the direct upload
    (src/vulkan/copy_data_to_buffer.rs) and the read-back through a
    host-visible staging buffer (src/vulkan/read_data_from_buffer.rs). */
module Transfers {
  import opened Common
  import opened Bytes
  import opened Gpu
  import opened MemoryTypes
  import opened MemBuffers

  const SizeOfF32: nat := 4
  const MapMemoryMessage := "failed to map buffer memory"
  const AllocateCommandBufferMessage := "failed to allocate command buffer"
  const BeginCommandBufferMessage := "failed to begin command buffer"
  const EndCommandBufferMessage := "failed to end command buffer"
  const SubmitMessage := "failed to submit graphics command buffer"
  const WaitIdleMessage := "failed to wait device idle"
  const ResetCommandPoolMessage := "failed to reset command pool"
  const UploadAssertMessage := "assertion failed: size <= mem_buffer.size"
  const ReadAssertMessage := "assertion failed: size <= mem_buffer.size"

  /** The staging buffer's memory: host visible, coherent and cached. */
  const StagingMemoryFlags: bv32 := HostVisible | HostCoherent | HostCached

  /** `s` with the bytes from `at` on replaced by `w`. */
  function Overwrite(s: seq<bv8>, at: nat, w: seq<bv8>): (r: seq<bv8>)
    requires at + |w| <= |s|
    ensures |r| == |s|
  {
    s[..at] + w + s[at + |w|..]
  }

  // ---------------------------------------------------------------- upload

  /** The check copy_data_to_buffer makes, as written: the byte count alone
      against the buffer size, whatever the offset. */
  predicate UploadAssertAsWritten(offset: nat, count: nat, bufferSize: nat) {
    count * SizeOfF32 <= bufferSize
  }

  /** The check it evidently means: the written range `offset .. offset + 4 * count` lies inside the buffer. */
  predicate UploadFits(offset: nat, count: nat, bufferSize: nat) {
    offset + count * SizeOfF32 <= bufferSize
  }

  /** The written range always fits when the offset is 0 (the only offset
      the engine passes), so there the two checks agree; at any other offset
      the check as written lets through a range that leaves the buffer. */
  lemma UploadAssertIgnoresOffset()
    ensures forall count, size :: UploadAssertAsWritten(0, count, size) <==> UploadFits(0, count, size)
    ensures UploadAssertAsWritten(4, 1, 4) && !UploadFits(4, 1, 4)
  {
  }

  /** The upload check that guards the model is never looser than the one written. */
  lemma UploadFitsImpliesAssert(offset: nat, count: nat, bufferSize: nat)
    ensures UploadFits(offset, count, bufferSize) ==> UploadAssertAsWritten(offset, count, bufferSize)
    ensures UploadAssertAsWritten(offset, count, bufferSize) && offset == 0 ==> UploadFits(offset, count, bufferSize)
  {
  }

  /** copy_data_to_buffer: map `4 * |data|` bytes of the buffer's memory at
      `offset`, copy the floats' bytes in, unmap. */
  method CopyDataToBuffer(gpu: Driver, mem: MemBuffer, offset: nat, data: seq<F32>) returns (r: Result<()>)
    requires gpu.Valid() && mem.deviceMemory in gpu.live && mem.deviceMemory !in gpu.mapped
    requires mem.size <= mem.bytes.Length
    modifies gpu`mapped, gpu`log, mem.bytes
    ensures gpu.Valid() && gpu.mapped == old(gpu.mapped)
    ensures !UploadFits(offset, |data|, mem.size) ==>
      r == Panic(UploadAssertMessage) && gpu.log == old(gpu.log) && mem.bytes[..] == old(mem.bytes[..])
    ensures UploadFits(offset, |data|, mem.size) && !gpu.Mappable(mem.deviceMemory) ==>
      r == Err(MapMemoryMessage) && gpu.log == old(gpu.log) && mem.bytes[..] == old(mem.bytes[..])
    ensures UploadFits(offset, |data|, mem.size) && gpu.Mappable(mem.deviceMemory) ==>
      && r == Ok(())
      && mem.bytes[..] == Overwrite(old(mem.bytes[..]), offset, EncodeF32s(data))
      && gpu.log == old(gpu.log) + [MemoryMapped(mem.deviceMemory, offset, |data| * SizeOfF32), MemoryUnmapped(mem.deviceMemory)]
  {
    var size := |data| * SizeOfF32;
    if !(offset + size <= mem.size) {
      return Panic(UploadAssertMessage);
    }
    var ok := gpu.MapMemory(mem.deviceMemory, offset, size);
    if !ok {
      return Err(MapMemoryMessage);
    }
    // `copy_from_slice` through the mapped pointer
    var bytes := EncodeF32s(data);
    forall i | offset <= i < offset + size {
      mem.bytes[i] := bytes[i - offset];
    }
    assert mem.bytes[..] == Overwrite(old(mem.bytes[..]), offset, bytes);
    gpu.UnmapMemory(mem.deviceMemory);
    return Ok(());
  }

  /** Round trip: the floats read back from the written range are the floats written. */
  lemma UploadedRangeDecodes(old_: seq<bv8>, offset: nat, data: seq<F32>)
    requires offset + 4 * |data| <= |old_|
    ensures DecodeF32s(Overwrite(old_, offset, EncodeF32s(data))[offset .. offset + 4 * |data|], |data|) == data
  {
    var w := EncodeF32s(data);
    assert Overwrite(old_, offset, w)[offset .. offset + |w|] == w;
    DecodeEncode(data);
  }

  /** Nothing outside the written range changes. */
  lemma UploadKeepsTheRest(old_: seq<bv8>, offset: nat, data: seq<F32>, i: nat)
    requires offset + 4 * |data| <= |old_| && i < |old_|
    requires i < offset || offset + 4 * |data| <= i
    ensures Overwrite(old_, offset, EncodeF32s(data))[i] == old_[i]
  {
    var w := EncodeF32s(data);
    if i < offset {
      assert Overwrite(old_, offset, w)[i] == old_[..offset][i];
    } else {
      assert Overwrite(old_, offset, w)[i] == old_[offset + |w|..][i - offset - |w|];
    }
  }

  // ------------------------------------------------------------- read-back

  /** The check read_data_from_buffer makes, as written: the copied size against the buffer size. */
  predicate ReadAssertAsWritten(size: nat, bufferSize: nat) {
    size <= bufferSize
  }

  /** What the read-back needs besides: the `n * n` floats it reads from the
      staging mapping lie within the `size` bytes copied and mapped. */
  predicate ReadFits(size: nat, n: nat, bufferSize: nat) {
    size <= bufferSize && n * n * SizeOfF32 <= size
  }

  /** The check as written lets through a read of more bytes than were copied:
      a 2 x 2 read of an 8-byte region passes it and reads 16 bytes. At the
      size the engine passes, `4 * n * n`, the two checks agree. */
  lemma ReadAssertIgnoresCount()
    ensures ReadAssertAsWritten(8, 8) && !ReadFits(8, 2, 8)
    ensures forall n: nat, bufferSize: nat :: ReadAssertAsWritten(n * n * SizeOfF32, bufferSize) <==> ReadFits(n * n * SizeOfF32, n, bufferSize)
  {
  }

  /** Record a copy of `size` bytes from `src` to `dst` into a fresh one-time
      command buffer, submit it and wait for the device to go idle. */
  method SubmitCopyAndWait(gpu: Driver, src: Obj, dst: Obj, size: nat) returns (r: Result<()>)
    requires gpu.Valid()
    modifies gpu`commandBuffers, gpu`cbState, gpu`recorded, gpu`queryAvailable, gpu`log
    ensures gpu.Valid()
    ensures r.Ok? || r.Err?
    ensures r.Ok? <==>
      && Call.AllocateCommandBuffers !in gpu.failing && Call.BeginCommandBuffer !in gpu.failing
      && Call.EndCommandBuffer !in gpu.failing && Call.QueueSubmit !in gpu.failing
      && Call.DeviceWaitIdle !in gpu.failing
    ensures r.Ok? ==>
      && gpu.commandBuffers == old(gpu.commandBuffers) + 1 && gpu.cbState == Invalid
      && gpu.recorded == [CopyBuffer(src, dst, 0, 0, size)]
      && gpu.log == old(gpu.log) + [CommandBufferAllocated, CommandBufferBegun, Recorded(CopyBuffer(src, dst, 0, 0, size)),
                                    CommandBufferEnded, Submitted, WaitedIdle]
    ensures r.Err? ==> r.msg in {AllocateCommandBufferMessage, BeginCommandBufferMessage, EndCommandBufferMessage, SubmitMessage, WaitIdleMessage}
  {
    var ok := gpu.AllocateCommandBuffer();
    if !ok {
      return Err(AllocateCommandBufferMessage);
    }
    ok := gpu.BeginCommandBuffer();
    if !ok {
      return Err(BeginCommandBufferMessage);
    }
    gpu.Record(CopyBuffer(src, dst, 0, 0, size));
    ok := gpu.EndCommandBuffer();
    if !ok {
      return Err(EndCommandBufferMessage);
    }
    ok := gpu.Submit();
    if !ok {
      return Err(SubmitMessage);
    }
    ok := gpu.WaitIdle();
    if !ok {
      return Err(WaitIdleMessage);
    }
    return Ok(());
  }

  /** The effect of a recorded `cmd_copy_buffer` of `size` bytes at offset 0,
      complete once the device has gone idle. */
  method CompleteCopy(src: array<bv8>, dst: array<bv8>, size: nat)
    requires src != dst && size <= src.Length && size <= dst.Length
    modifies dst
    ensures dst[..size] == src[..size]
    ensures forall i :: size <= i < dst.Length ==> dst[i] == old(dst[i])
  {
    forall i | 0 <= i < size {
      dst[i] := src[i];
    }
  }

  /** The part of read_data_from_buffer after the staging buffer exists:
      copy on the device, free the command buffer and reset the pool, map the
      staging memory, read `n * n` floats, unmap, destroy the staging buffer
      and free its memory. */
  method ReadThroughStaging(gpu: Driver, src: MemBuffer, staging: MemBuffer, n: nat) returns (r: Result<seq<F32>>)
    requires gpu.Valid()
    requires staging.buffer in gpu.live && staging.deviceMemory in gpu.live
    requires staging.buffer !in gpu.mapped && staging.deviceMemory !in gpu.mapped
    requires staging.buffer != staging.deviceMemory && staging.bytes != src.bytes
    requires staging.size <= src.bytes.Length && staging.size <= staging.bytes.Length
    requires n * n * SizeOfF32 <= staging.size
    modifies gpu`live, gpu`log, gpu`mapped, gpu`commandBuffers, gpu`cbState, gpu`recorded, gpu`queryAvailable
    modifies staging.bytes
    ensures gpu.Valid() && gpu.mapped == old(gpu.mapped)
    ensures r.Ok? || r.Err?
    ensures r.Ok? <==>
      && Call.AllocateCommandBuffers !in gpu.failing && Call.BeginCommandBuffer !in gpu.failing
      && Call.EndCommandBuffer !in gpu.failing && Call.QueueSubmit !in gpu.failing
      && Call.DeviceWaitIdle !in gpu.failing && Call.ResetCommandPool !in gpu.failing
      && gpu.Mappable(staging.deviceMemory)
    ensures r.Ok? ==>
      && r.value == DecodeF32s(src.bytes[..], n * n)
      && gpu.live == old(gpu.live) - {staging.buffer, staging.deviceMemory}
      && gpu.commandBuffers == old(gpu.commandBuffers) && gpu.cbState == Initial && gpu.recorded == []
    ensures r.Ok? ==> gpu.log == old(gpu.log) + StagingTrace(src.buffer, staging.buffer, staging.deviceMemory, staging.size)
    ensures r.Err? ==> gpu.live == old(gpu.live)
  {
    var copied := CopyToStaging(gpu, src, staging);
    if copied.Err? {
      return Err(copied.msg);
    }
    var count := n * n;
    r := ReadAndReleaseStaging(gpu, staging, count);
    if r.Ok? {
      assert staging.bytes[..][..count * SizeOfF32] == src.bytes[..][..count * SizeOfF32];
      DecodeF32sPrefix(staging.bytes[..], src.bytes[..], count);
    }
  }

  /** The head of the read-back: copy the first `staging.size` bytes of `src`
      into the staging buffer on the device, then free the command buffer and
      reset the command pool. */
  method CopyToStaging(gpu: Driver, src: MemBuffer, staging: MemBuffer) returns (r: Result<()>)
    requires gpu.Valid() && staging.bytes != src.bytes
    requires staging.size <= src.bytes.Length && staging.size <= staging.bytes.Length
    modifies gpu`log, gpu`commandBuffers, gpu`cbState, gpu`recorded, gpu`queryAvailable, staging.bytes
    ensures gpu.Valid()
    ensures r.Ok? || r.Err?
    ensures r.Ok? <==>
      && Call.AllocateCommandBuffers !in gpu.failing && Call.BeginCommandBuffer !in gpu.failing
      && Call.EndCommandBuffer !in gpu.failing && Call.QueueSubmit !in gpu.failing
      && Call.DeviceWaitIdle !in gpu.failing && Call.ResetCommandPool !in gpu.failing
    ensures r.Ok? ==>
      && staging.bytes[..staging.size] == src.bytes[..staging.size]
      && gpu.commandBuffers == old(gpu.commandBuffers) && gpu.cbState == Initial && gpu.recorded == []
      && gpu.log == old(gpu.log) + CopyAndResetTrace(src.buffer, staging.buffer, staging.size)
  {
    var copied := SubmitCopyAndWait(gpu, src.buffer, staging.buffer, staging.size);
    if copied.Err? {
      return Err(copied.msg);
    }
    CompleteCopy(src.bytes, staging.bytes, staging.size);
    gpu.FreeCommandBuffer();
    var ok := gpu.ResetCommandPool();
    if !ok {
      return Err(ResetCommandPoolMessage);
    }
    return Ok(());
  }

  /** The tail of the read-back: map the staging memory, read `count` floats
      from it, unmap it, and destroy the staging buffer and then its memory. */
  method ReadAndReleaseStaging(gpu: Driver, staging: MemBuffer, count: nat) returns (r: Result<seq<F32>>)
    requires gpu.Valid()
    requires staging.buffer in gpu.live && staging.deviceMemory in gpu.live
    requires staging.buffer !in gpu.mapped && staging.deviceMemory !in gpu.mapped
    requires staging.buffer != staging.deviceMemory
    requires count * SizeOfF32 <= staging.size <= staging.bytes.Length
    modifies gpu`live, gpu`log, gpu`mapped
    ensures gpu.Valid() && gpu.mapped == old(gpu.mapped)
    ensures r.Ok? <==> gpu.Mappable(staging.deviceMemory)
    ensures r.Ok? ==>
      && r.value == DecodeF32s(staging.bytes[..], count)
      && gpu.live == old(gpu.live) - {staging.buffer, staging.deviceMemory}
      && gpu.log == old(gpu.log) + ReleaseStagingTrace(staging.buffer, staging.deviceMemory, staging.size)
    ensures !r.Ok? ==> r == Err(MapMemoryMessage) && gpu.live == old(gpu.live) && gpu.log == old(gpu.log)
  {
    var ok := gpu.MapMemory(staging.deviceMemory, 0, staging.size);
    if !ok {
      return Err(MapMemoryMessage);
    }
    var data := DecodeF32s(staging.bytes[..], count);
    gpu.UnmapMemory(staging.deviceMemory);
    gpu.Destroy(staging.buffer);
    gpu.Destroy(staging.deviceMemory);
    return Ok(data);
  }

  /** read_data_from_buffer: copy `size` bytes of `src` into a fresh staging
      buffer on the device, then map the staging memory and read `n * n`
      floats from it. A failure returns at once and leaks the staging buffer
      (and the command buffer, if one was allocated). */
  method ReadDataFromBuffer(gpu: Driver, memoryTypes: seq<bv32>, src: MemBuffer, size: nat, n: nat)
    returns (r: Result<seq<F32>>)
    requires gpu.Valid() && |memoryTypes| <= MaxMemoryTypes
    requires src.size <= src.bytes.Length
    modifies gpu`live, gpu`nextId, gpu`log, gpu`bufferInfo, gpu`memoryTypeOf, gpu`hostVisible, gpu`boundMemory
    modifies gpu`mapped, gpu`commandBuffers, gpu`cbState, gpu`recorded, gpu`queryAvailable
    ensures gpu.Valid() && old(gpu.live) <= gpu.live && gpu.mapped == old(gpu.mapped)
    ensures gpu.hostVisible - {Obj(MemoryObj, old(gpu.nextId) + 1)} == old(gpu.hostVisible) - {Obj(MemoryObj, old(gpu.nextId) + 1)}
    ensures gpu.descriptorSets == old(gpu.descriptorSets)
    ensures !ReadFits(size, n, src.size) ==> r == Panic(ReadAssertMessage) && gpu.log == old(gpu.log)
    ensures r.Ok? <==>
      && ReadFits(size, n, src.size)
      && Call.CreateBuffer !in gpu.failing && AnySuitable(memoryTypes, gpu.typeBits, StagingMemoryFlags)
      && Call.AllocateMemory !in gpu.failing && Call.BindBufferMemory !in gpu.failing
      && Call.AllocateCommandBuffers !in gpu.failing && Call.BeginCommandBuffer !in gpu.failing
      && Call.EndCommandBuffer !in gpu.failing && Call.QueueSubmit !in gpu.failing
      && Call.DeviceWaitIdle !in gpu.failing && Call.ResetCommandPool !in gpu.failing
      && Call.MapMemory !in gpu.failing
    ensures r.Ok? ==>
      && n * n * SizeOfF32 <= src.bytes.Length && r.value == DecodeF32s(src.bytes[..], n * n)
      && gpu.live == old(gpu.live)
      && gpu.commandBuffers == old(gpu.commandBuffers) && gpu.cbState == Initial && gpu.recorded == []
      && gpu.log == old(gpu.log) + ReadBackTrace(src.buffer, old(gpu.nextId), size)
  {
    if !(size <= src.size) {
      return Panic(ReadAssertMessage);
    }
    if !(n * n * SizeOfF32 <= size) {
      return Panic(ReadAssertMessage);
    }
    var staging :- CreateMemBuffer(gpu, memoryTypes, size, TransferDst, StagingMemoryFlags);
    r := ReadThroughStaging(gpu, src, staging, n);
  }

  /** What a successful read-back asks of the driver, in order, with the
      staging buffer and memory taking the next two handles. */
  function ReadBackTrace(src: Obj, nextId: nat, size: nat): seq<Event> {
    CreateMemBufferTrace(nextId) + StagingTrace(src, Obj(BufferObj, nextId), Obj(MemoryObj, nextId + 1), size)
  }

  /** The calls after the staging buffer exists: copy, clean up the command
      buffer, read through a mapping, release the staging buffer. */
  function StagingTrace(src: Obj, buffer: Obj, memory: Obj, size: nat): seq<Event> {
    CopyAndResetTrace(src, buffer, size) + ReleaseStagingTrace(buffer, memory, size)
  }

  /** Copy on the device, wait, then free the command buffer and reset the pool. */
  function CopyAndResetTrace(src: Obj, dst: Obj, size: nat): seq<Event> {
    [ CommandBufferAllocated, CommandBufferBegun, Recorded(CopyBuffer(src, dst, 0, 0, size)),
      CommandBufferEnded, Submitted, WaitedIdle, CommandBufferFreed, CommandPoolReset ]
  }

  /** Read the staging memory through a mapping, then release the staging buffer. */
  function ReleaseStagingTrace(buffer: Obj, memory: Obj, size: nat): seq<Event> {
    [ MemoryMapped(memory, 0, size), MemoryUnmapped(memory), Destroyed(buffer), Destroyed(memory) ]
  }

  /** The staging buffer is created before anything uses it, its memory is
      unmapped before it is freed, and the buffer is destroyed before its memory. */
  lemma ReadBackTraceOrder(src: Obj, nextId: nat, size: nat)
    ensures var t := ReadBackTrace(src, nextId, size);
      var buffer, memory := Obj(BufferObj, nextId), Obj(MemoryObj, nextId + 1);
      && Precedes(t, Created(buffer), Recorded(CopyBuffer(src, buffer, 0, 0, size)))
      && Precedes(t, WaitedIdle, MemoryMapped(memory, 0, size))
      && Precedes(t, MemoryUnmapped(memory), Destroyed(memory))
      && Precedes(t, Destroyed(buffer), Destroyed(memory))
      && Precedes(t, CommandBufferFreed, CommandPoolReset)
  {
    var t := ReadBackTrace(src, nextId, size);
    assert t[0] == Created(Obj(BufferObj, nextId)) && t[5] == Recorded(CopyBuffer(src, Obj(BufferObj, nextId), 0, 0, size));
    assert t[8] == WaitedIdle && t[11] == MemoryMapped(Obj(MemoryObj, nextId + 1), 0, size);
    assert t[12] == MemoryUnmapped(Obj(MemoryObj, nextId + 1)) && t[14] == Destroyed(Obj(MemoryObj, nextId + 1));
    assert t[13] == Destroyed(Obj(BufferObj, nextId));
    assert t[9] == CommandBufferFreed && t[10] == CommandPoolReset;
  }
}
