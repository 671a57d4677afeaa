/** Building the compute pipeline (src/vulkan/create_pipeline.rs): the
    workgroup size is baked in through three specialization constants, whose
    values travel as one 12-byte blob described by three map entries. */
module Pipelines {
  import opened Common
  import opened Bytes
  import opened Gpu

  /** `std::mem::size_of::<u32>()`. */
  const SizeOfU32: nat := 4
  const EntryPointName := "main"
  const CreatePipelinesMessage := "failed to create pipelines"

  /** Constant ids 0, 1, 2 at offsets 0, 4, 8, each one `u32` wide. */
  function MapEntries(): seq<SpecializationMapEntry> {
    [ SpecializationMapEntry(0, 0, SizeOfU32),
      SpecializationMapEntry(1, SizeOfU32, SizeOfU32),
      SpecializationMapEntry(2, 2 * SizeOfU32, SizeOfU32) ]
  }

  /** `[WORKGROUP_SIZE.to_ne_bytes(), WORKGROUP_SIZE.to_ne_bytes(), 1u32.to_ne_bytes()].concat()`. */
  function SpecializationData(workgroupSize: bv32): seq<bv8> {
    ToNeBytes(workgroupSize) + ToNeBytes(workgroupSize) + ToNeBytes(1)
  }

  function Specialization(workgroupSize: bv32): SpecializationInfo {
    SpecializationInfo(MapEntries(), SpecializationData(workgroupSize))
  }

  /** The map entry for constant `id`: the first one that names it. */
  function FindEntry(entries: seq<SpecializationMapEntry>, id: nat): (r: Option<SpecializationMapEntry>)
    ensures r.Some? ==> r.value in entries && r.value.constantId == id
    ensures r.None? ==> forall e :: e in entries ==> e.constantId != id
  {
    if entries == [] then None
    else if entries[0].constantId == id then Some(entries[0])
    else FindEntry(entries[1..], id)
  }

  /** The value the shader reads for constant `id`: the 4 bytes its entry
      selects from the blob, read back as a `u32`. None when no entry names
      `id` or the entry does not describe 4 bytes inside the blob. */
  function ConstantValue(info: SpecializationInfo, id: nat): Option<bv32> {
    match FindEntry(info.mapEntries, id)
    case None => None
    case Some(e) =>
      if e.size == SizeOfU32 && e.offset + e.size <= |info.data|
      then Some(FromNeBytes(info.data[e.offset .. e.offset + e.size]))
      else None
  }

  /** The blob is 12 bytes, every entry's byte range lies inside it, and no two ranges overlap. */
  lemma LayoutInBoundsAndDisjoint(workgroupSize: bv32)
    ensures |SpecializationData(workgroupSize)| == 3 * SizeOfU32
    ensures forall e :: e in MapEntries() ==> e.offset + e.size <= |SpecializationData(workgroupSize)|
    ensures forall i, j :: 0 <= i < j < |MapEntries()| ==>
      MapEntries()[i].offset + MapEntries()[i].size <= MapEntries()[j].offset
      || MapEntries()[j].offset + MapEntries()[j].size <= MapEntries()[i].offset
  {
  }

  /** Round trip: the shader reads back WORKGROUP_SIZE for constants 0 and 1,
      1 for constant 2, and nothing for any other id. */
  lemma ConstantsDecode(workgroupSize: bv32, id: nat)
    ensures ConstantValue(Specialization(workgroupSize), 0) == Some(workgroupSize)
    ensures ConstantValue(Specialization(workgroupSize), 1) == Some(workgroupSize)
    ensures ConstantValue(Specialization(workgroupSize), 2) == Some(1)
    ensures id > 2 ==> ConstantValue(Specialization(workgroupSize), id) == None
  {
    var d := SpecializationData(workgroupSize);
    var es := MapEntries();
    assert d[0 .. 4] == ToNeBytes(workgroupSize);
    assert d[4 .. 8] == ToNeBytes(workgroupSize);
    assert d[8 .. 12] == ToNeBytes(1);
    assert es[1..][1..] == [es[2]];
    assert FindEntry(es, 0) == Some(es[0]);
    assert FindEntry(es, 1) == FindEntry(es[1..], 1) == Some(es[1]);
    assert FindEntry(es, 2) == FindEntry(es[1..][1..], 2) == Some(es[2]);
  }

  /** The create-info create_pipeline hands the driver: the COMPUTE stage of
      the shader module, entry point "main", the specialization above, and the layout. */
  function ComputePipelineInfo(shaderModule: Obj, layout: Obj, workgroupSize: bv32): ComputePipelineCreateInfo {
    ComputePipelineCreateInfo(ComputeStage, shaderModule, EntryPointName, Specialization(workgroupSize), layout)
  }

  /** create_pipeline: one compute pipeline, the first (only) one the driver returns. */
  method CreatePipeline(gpu: Driver, shaderModule: Obj, layout: Obj, workgroupSize: bv32) returns (r: Result<Obj>)
    requires gpu.Valid()
    modifies gpu`live, gpu`nextId, gpu`log, gpu`pipelineInfo
    ensures gpu.Valid()
    ensures r.Ok? || r == Err(CreatePipelinesMessage)
    ensures r.Ok? <==> Call.CreateComputePipelines !in gpu.failing
    ensures r.Ok? ==> r.value == Obj(PipelineObj, old(gpu.nextId)) && r.value !in old(gpu.live)
    ensures r.Ok? ==> gpu.live == old(gpu.live) + {r.value} && gpu.nextId == old(gpu.nextId) + 1
    ensures r.Ok? ==> gpu.log == old(gpu.log) + [Created(r.value)]
    ensures r.Ok? ==> gpu.pipelineInfo == old(gpu.pipelineInfo)[r.value := ComputePipelineInfo(shaderModule, layout, workgroupSize)]
    ensures r.Err? ==> gpu.live == old(gpu.live) && gpu.nextId == old(gpu.nextId) && gpu.log == old(gpu.log)
  {
    var info := ComputePipelineInfo(shaderModule, layout, workgroupSize);
    var ok, pipeline := gpu.CreateComputePipeline(info);
    if !ok {
      return Err(CreatePipelinesMessage);
    }
    return Ok(pipeline);
  }
}
