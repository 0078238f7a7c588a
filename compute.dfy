/** `getComputeUsage` (oci.go): running instances reduced to ARM and AMD counts and ARM totals. */
module Compute {
  import opened Wrappers
  import opened Folds
  import opened Strings
  import opened Usage
  import opened Sdk

  datatype ShapeKind = Arm | Amd | Neither

  /** The substring tests on the shape name; the ARM test is made first. A shape is neither ARM nor
      AMD exactly when it mentions none of "A1", "Ampere" and "Micro". */
  function ShapeKindOf(shape: string): (k: ShapeKind)
    ensures k == Neither <==>
              !Contains(shape, "A1") && !Contains(shape, "Ampere") && !Contains(shape, "Micro")
  {
    MicroTestSubsumes(shape);
    if Contains(shape, "A1") || Contains(shape, "Ampere") then Arm
    else if Contains(shape, "Micro") || Contains(shape, "E2.1.Micro") then Amd
    else Neither
  }

  predicate IsArm(instance: Instance)
  {
    ShapeKindOf(instance.shape) == Arm
  }

  predicate IsAmd(instance: Instance)
  {
    ShapeKindOf(instance.shape) == Amd
  }

  /** What an instance adds to the ARM OCPU total: its OCPUs when it is ARM and reports them. */
  function ArmOcpusOf(instance: Instance): real
  {
    if IsArm(instance) && instance.shapeConfig.Some? && instance.shapeConfig.value.ocpus.Some?
    then instance.shapeConfig.value.ocpus.value else 0.0
  }

  /** What an instance adds to the ARM memory total: its memory when it is ARM and reports it. */
  function ArmMemoryOf(instance: Instance): real
  {
    if IsArm(instance) && instance.shapeConfig.Some? && instance.shapeConfig.value.memoryInGBs.Some?
    then instance.shapeConfig.value.memoryInGBs.value else 0.0
  }

  /** The usage left when the client or the listing fails: zero everywhere, the error recorded. */
  function ComputeFailure(error: string): ComputeUsage
  {
    ComputeUsage(ArmUsage(Unused, Unused, 0), AmdUsage(Unused), 0, error)
  }

  /** The usage computed from a successful listing. */
  function ComputeSummary(items: seq<Instance>, percent: Percent): ComputeUsage
  {
    var ocpus := SumReal(items, ArmOcpusOf);
    var memory := SumReal(items, ArmMemoryOf);
    var amd := Count(items, IsAmd) as real;
    ComputeUsage(
      ArmUsage(UsageMetric(ocpus, ArmOcpusLimit, percent(ocpus, ArmOcpusLimit)),
               UsageMetric(memory, ArmMemoryGBLimit, percent(memory, ArmMemoryGBLimit)),
               Count(items, IsArm)),
      AmdUsage(UsageMetric(amd, AmdMaxInstances as real, percent(amd, AmdMaxInstances as real))),
      |items|,
      "")
  }

  /** The compute usage of `compartment`, as `getComputeUsage` reports it. */
  function ComputeUsageOf(api: Api, compartment: string, percent: Percent): ComputeUsage
  {
    if api.computeClient.Fail? then ComputeFailure(api.computeClient.error)
    else match api.listInstances(compartment)
      case Err(e) => ComputeFailure(e)
      case Ok(items) => ComputeSummary(items, percent)
  }

  /** `getComputeUsage`: one pass over the running instances with four accumulators. */
  method GetComputeUsage(api: Api, compartment: string, percent: Percent) returns (usage: ComputeUsage)
    ensures usage == ComputeUsageOf(api, compartment, percent)
  {
    usage := ComputeUsage(ArmUsage(Unused, Unused, 0), AmdUsage(Unused), 0, "");
    if api.computeClient.Fail? {
      usage := usage.(error := api.computeClient.error);
      return;
    }
    var response := api.listInstances(compartment);
    if response.Err? {
      usage := usage.(error := response.error);
      return;
    }
    var items := response.value;

    var armOcpus, armMemoryGB := 0.0, 0.0;
    var armCount, amdCount := 0, 0;
    var i := 0;
    while i < |items|
      invariant 0 <= i <= |items|
      invariant armOcpus == SumReal(items[..i], ArmOcpusOf)
      invariant armMemoryGB == SumReal(items[..i], ArmMemoryOf)
      invariant armCount == Count(items[..i], IsArm)
      invariant amdCount == Count(items[..i], IsAmd)
    {
      var instance := items[i];
      var shape := instance.shape;
      if Contains(shape, "A1") || Contains(shape, "Ampere") {
        if instance.shapeConfig.Some? {
          if instance.shapeConfig.value.ocpus.Some? {
            armOcpus := armOcpus + instance.shapeConfig.value.ocpus.value;
          }
          if instance.shapeConfig.value.memoryInGBs.Some? {
            armMemoryGB := armMemoryGB + instance.shapeConfig.value.memoryInGBs.value;
          }
        }
        armCount := armCount + 1;
      } else if Contains(shape, "Micro") || Contains(shape, "E2.1.Micro") {
        amdCount := amdCount + 1;
      }
      assert items[..i + 1][..i] == items[..i];
      i := i + 1;
    }
    assert items[..i] == items;

    usage := usage.(arm := usage.arm.(ocpus := UsageMetric(armOcpus, ArmOcpusLimit, percent(armOcpus, ArmOcpusLimit))));
    usage := usage.(arm := usage.arm.(memoryGB := UsageMetric(armMemoryGB, ArmMemoryGBLimit, percent(armMemoryGB, ArmMemoryGBLimit))));
    usage := usage.(arm := usage.arm.(instances := armCount));
    usage := usage.(amd := AmdUsage(UsageMetric(amdCount as real, AmdMaxInstances as real,
                                                 percent(amdCount as real, AmdMaxInstances as real))));
    usage := usage.(totalInstances := |items|);
  }

  /** The redundant `E2.1.Micro` test never changes the outcome: AMD means "Micro" and not ARM. */
  lemma ShapeKindAmdIffMicro(shape: string)
    ensures ShapeKindOf(shape) == Amd <==>
              !Contains(shape, "A1") && !Contains(shape, "Ampere") && Contains(shape, "Micro")
  {
    MicroTestSubsumes(shape);
  }

  /** Every shape that passes the "E2.1.Micro" test also passes the "Micro" test. */
  lemma MicroTestSubsumes(shape: string)
    ensures Contains(shape, "E2.1.Micro") ==> Contains(shape, "Micro")
  {
    if Contains(shape, "E2.1.Micro") {
      assert Contains("E2.1.Micro", "Micro") by {
        assert "E2.1.Micro"[5..10] == "Micro";
        assert OccursAt("E2.1.Micro", "Micro", 5);
        ContainsIff("E2.1.Micro", "Micro");
      }
      ContainsTransitive(shape, "E2.1.Micro", "Micro");
    }
  }

  /** A shape that mentions A1 or Ampere is ARM even when it also mentions Micro. */
  lemma ArmTestWins(shape: string)
    requires Contains(shape, "A1") || Contains(shape, "Ampere")
    ensures ShapeKindOf(shape) == Arm
  {
  }

  /** Every instance is counted once in the total and at most once as ARM or AMD. */
  lemma CountsBoundedByTotal(items: seq<Instance>, percent: Percent)
    ensures var usage := ComputeSummary(items, percent);
      usage.totalInstances == |items| &&
      usage.arm.instances as real + usage.amd.instances.used <= usage.totalInstances as real
  {
    CountDisjoint(items, IsArm, IsAmd);
  }

  /** An ARM instance without a shape config adds one instance and no OCPUs or memory. */
  lemma ArmWithoutShapeConfig(items: seq<Instance>, instance: Instance, percent: Percent)
    requires IsArm(instance) && instance.shapeConfig.None?
    ensures var before, after := ComputeSummary(items, percent), ComputeSummary(items + [instance], percent);
      after.arm.instances == before.arm.instances + 1 &&
      after.arm.ocpus == before.arm.ocpus &&
      after.arm.memoryGB == before.arm.memoryGB &&
      after.amd == before.amd &&
      after.totalInstances == before.totalInstances + 1
  {
    assert (items + [instance])[..|items|] == items;
  }

  /** An instance that is not ARM leaves the ARM count and totals as they were. */
  lemma NonArmLeavesArmTotals(items: seq<Instance>, instance: Instance, percent: Percent)
    requires !IsArm(instance)
    ensures var before, after := ComputeSummary(items, percent), ComputeSummary(items + [instance], percent);
      after.arm == before.arm &&
      after.amd.instances.used == before.amd.instances.used + (if IsAmd(instance) then 1.0 else 0.0)
  {
    assert (items + [instance])[..|items|] == items;
  }

  /** A failed client or listing leaves every figure zero and records the error. */
  lemma ComputeFailureIsZero(api: Api, compartment: string, percent: Percent)
    requires api.computeClient.Fail? || api.listInstances(compartment).Err?
    ensures var usage := ComputeUsageOf(api, compartment, percent);
      usage.arm == ArmUsage(Unused, Unused, 0) && usage.amd == AmdUsage(Unused) &&
      usage.totalInstances == 0 &&
      usage.error == if api.computeClient.Fail? then api.computeClient.error else api.listInstances(compartment).error
  {
  }

  /** The free tier's ARM shape. */
  lemma ArmShapeExample()
    ensures ShapeKindOf("VM.Standard.A1.Flex") == Arm
  {
    assert OccursAt("VM.Standard.A1.Flex", "A1", 12);
    ContainsIff("VM.Standard.A1.Flex", "A1");
  }

  /** The Always Free AMD shape: no "A1" or "Ampere" in it, and "Micro" from position 17. */
  lemma AmdShapeExample(shape: string)
    requires shape == "VM.Standard.E2.1.Micro"
    ensures ShapeKindOf(shape) == Amd
  {
    LeadMissingNotContained(shape, "A1");
    LeadMissingNotContained(shape, "Ampere");
    assert OccursAt(shape, "Micro", 17);
    ContainsIff(shape, "Micro");
  }
}
