/** `getBlockStorageUsage` (oci.go): boot and block volumes reduced to counts and sizes. */
module BlockStorage {
  import opened Wrappers
  import opened Folds
  import opened Usage
  import opened Sdk

  /** What a volume adds to its group's size: its size when reported, 0 when absent. */
  function SizeOf(volume: Volume): int
  {
    if volume.sizeInGBs.Some? then volume.sizeInGBs.value else 0
  }

  /** A group of listed volumes: every item counts, only reported sizes add up. */
  function GroupOf(volumes: seq<Volume>): VolumeGroup
  {
    VolumeGroup(|volumes|, SumInt(volumes, SizeOf))
  }

  /** The storage usage of `compartment`, as `getBlockStorageUsage` reports it. */
  function StorageUsageOf(api: Api, compartment: string, percent: Percent): StorageUsage
  {
    if api.blockstorageClient.Fail? then StorageUsage(NoVolumes, NoVolumes, Unused, api.blockstorageClient.error)
    else match api.listBootVolumes(compartment)
      case Err(e) => StorageUsage(NoVolumes, NoVolumes, Unused, e)
      case Ok(boot) =>
        match api.listVolumes(compartment)
        case Err(e) => StorageUsage(GroupOf(boot), NoVolumes, Unused, e)
        case Ok(block) =>
          var total := SumInt(boot, SizeOf) + SumInt(block, SizeOf);
          StorageUsage(GroupOf(boot), GroupOf(block),
                       UsageMetric(total as real, BlockStorageTotalGB as real,
                                   percent(total as real, BlockStorageTotalGB as real)),
                       "")
  }

  /** Sums the reported sizes of `volumes`, as the two accumulator loops do. */
  method SumSizes(volumes: seq<Volume>) returns (total: int)
    ensures total == SumInt(volumes, SizeOf)
  {
    total := 0;
    var i := 0;
    while i < |volumes|
      invariant 0 <= i <= |volumes|
      invariant total == SumInt(volumes[..i], SizeOf)
    {
      if volumes[i].sizeInGBs.Some? {
        total := total + volumes[i].sizeInGBs.value;
      }
      assert volumes[..i + 1][..i] == volumes[..i];
      i := i + 1;
    }
    assert volumes[..i] == volumes;
  }

  /** `getBlockStorageUsage`: boot volumes first; a failure returns what was computed so far. */
  method GetBlockStorageUsage(api: Api, compartment: string, percent: Percent) returns (usage: StorageUsage)
    ensures usage == StorageUsageOf(api, compartment, percent)
  {
    usage := StorageUsage(NoVolumes, NoVolumes, Unused, "");
    if api.blockstorageClient.Fail? {
      usage := usage.(error := api.blockstorageClient.error);
      return;
    }
    var bootResponse := api.listBootVolumes(compartment);
    if bootResponse.Err? {
      usage := usage.(error := bootResponse.error);
      return;
    }
    var bootVolumeGB := SumSizes(bootResponse.value);
    usage := usage.(bootVolumes := VolumeGroup(|bootResponse.value|, bootVolumeGB));

    var blockResponse := api.listVolumes(compartment);
    if blockResponse.Err? {
      usage := usage.(error := blockResponse.error);
      return;
    }
    var blockVolumeGB := SumSizes(blockResponse.value);
    usage := usage.(blockVolumes := VolumeGroup(|blockResponse.value|, blockVolumeGB));

    var totalGB := bootVolumeGB + blockVolumeGB;
    usage := usage.(total := UsageMetric(totalGB as real, BlockStorageTotalGB as real,
                                         percent(totalGB as real, BlockStorageTotalGB as real)));
  }

  /** A volume whose size is absent is counted but adds nothing to the size, wherever it appears. */
  lemma AbsentSizeAddsNothing(before: seq<Volume>, after: seq<Volume>)
    ensures GroupOf(before + [Volume(None)] + after).count == GroupOf(before + after).count + 1
    ensures GroupOf(before + [Volume(None)] + after).sizeGB == GroupOf(before + after).sizeGB
  {
    SumIntAppend(before + [Volume(None)], after, SizeOf);
    SumIntAppend(before, [Volume(None)], SizeOf);
    SumIntAppend(before, after, SizeOf);
    assert SumInt([Volume(None)], SizeOf) == 0 by {
      assert [Volume(None)][..0] == [];
    }
  }

  /** When both listings succeed the total used is the boot size plus the block size. */
  lemma TotalIsBootPlusBlock(api: Api, compartment: string, percent: Percent)
    requires api.blockstorageClient.Pass?
    requires api.listBootVolumes(compartment).Ok? && api.listVolumes(compartment).Ok?
    ensures var usage := StorageUsageOf(api, compartment, percent);
      usage.total.used == (usage.bootVolumes.sizeGB + usage.blockVolumes.sizeGB) as real &&
      usage.total.limit == 200.0 &&
      usage.bootVolumes.count == |api.listBootVolumes(compartment).value| &&
      usage.blockVolumes.count == |api.listVolumes(compartment).value|
  {
  }

  /** A failed block listing keeps the boot figures, leaves the total at zero and records the error. */
  lemma BlockFailureKeepsBoot(api: Api, compartment: string, percent: Percent)
    requires api.blockstorageClient.Pass?
    requires api.listBootVolumes(compartment).Ok? && api.listVolumes(compartment).Err?
    ensures var usage := StorageUsageOf(api, compartment, percent);
      usage.bootVolumes == GroupOf(api.listBootVolumes(compartment).value) &&
      usage.blockVolumes == NoVolumes && usage.total == Unused &&
      usage.error == api.listVolumes(compartment).error
  {
  }

  /** A failed client or boot listing leaves every figure zero and records the error. */
  lemma BootFailureIsZero(api: Api, compartment: string, percent: Percent)
    requires api.blockstorageClient.Fail? || api.listBootVolumes(compartment).Err?
    ensures var usage := StorageUsageOf(api, compartment, percent);
      usage.bootVolumes == NoVolumes && usage.blockVolumes == NoVolumes && usage.total == Unused &&
      usage.error == if api.blockstorageClient.Fail? then api.blockstorageClient.error
                     else api.listBootVolumes(compartment).error
  {
  }
}
