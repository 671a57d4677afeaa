/** Choosing the queue family the engine submits to (src/vulkan/get_queue_family.rs). */
module QueueFamilies {
  import opened Common

  /** VK_QUEUE_COMPUTE_BIT. */
  const QueueCompute: bv32 := 0x2

  /** The message names graphics and present support although the search is
      for compute; it is kept as the source has it. */
  const NoQueueFamilyMessage := "failed to find graphics queue with present support"

  /** `vk::QueueFamilyProperties`, the two fields the search reads. */
  datatype QueueFamilyProperties = QueueFamilyProperties(queueFlags: bv32, queueCount: nat)

  /** The family has at least one queue and its flags contain COMPUTE. */
  predicate ComputeCapable(p: QueueFamilyProperties) {
    p.queueCount > 0 && p.queueFlags & QueueCompute == QueueCompute
  }

  /** get_queue_family: the first family, in index order, that can run compute work. */
  method GetQueueFamily(props: seq<QueueFamilyProperties>) returns (r: Result<nat>)
    ensures r.Ok? || r == Err(NoQueueFamilyMessage)
    ensures r.Ok? ==> r.value < |props| && ComputeCapable(props[r.value])
    ensures r.Ok? ==> forall j :: 0 <= j < r.value ==> !ComputeCapable(props[j])
    ensures r.Err? <==> forall j :: 0 <= j < |props| ==> !ComputeCapable(props[j])
  {
    for ind := 0 to |props|
      invariant forall j :: 0 <= j < ind ==> !ComputeCapable(props[j])
    {
      var p := props[ind];
      if p.queueCount > 0 && p.queueFlags & QueueCompute == QueueCompute {
        return Ok(ind);
      }
    }
    return Err(NoQueueFamilyMessage);
  }
}
