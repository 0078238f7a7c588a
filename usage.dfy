/** The usage snapshot the service reports, and the free-tier limits it measures against (main.go). */
module Usage {

  /** One usage dimension: used amount, limit and the integer percentage derived from them. */
  datatype UsageMetric = UsageMetric(used: real, limit: real, percentage: int)

  /** The zero value of a metric, which is what a failed fetch leaves behind. */
  const Unused := UsageMetric(0.0, 0.0, 0)

  /**
    * The float64 computation `int((used / limit) * 100)`. Its truncation does not agree
    * with integer division, so the model keeps it as a parameter of the fetches.
    */
  type Percent = (real, real) -> int

  datatype ArmUsage = ArmUsage(ocpus: UsageMetric, memoryGB: UsageMetric, instances: int)
  datatype AmdUsage = AmdUsage(instances: UsageMetric)
  datatype ComputeUsage = ComputeUsage(arm: ArmUsage, amd: AmdUsage, totalInstances: int, error: string)

  datatype VolumeGroup = VolumeGroup(count: int, sizeGB: int)
  const NoVolumes := VolumeGroup(0, 0)
  datatype StorageUsage = StorageUsage(bootVolumes: VolumeGroup, blockVolumes: VolumeGroup, total: UsageMetric, error: string)

  /** A bucket and its approximate size, -1 when its details could not be read. */
  datatype BucketInfo = BucketInfo(name: string, sizeGB: real)
  datatype ObjectStorageUsage = ObjectStorageUsage(buckets: seq<BucketInfo>, total: UsageMetric, error: string)

  datatype LoadBalancerInfo = LoadBalancerInfo(name: string, shape: string, state: string)
  datatype LoadBalancerUsage = LoadBalancerUsage(count: UsageMetric, loadBalancers: seq<LoadBalancerInfo>, error: string)

  datatype AllUsage = AllUsage(
    compute: ComputeUsage,
    blockStorage: StorageUsage,
    publicIPs: UsageMetric,
    objectStorage: ObjectStorageUsage,
    loadBalancer: LoadBalancerUsage)

  /** The integer-valued free-tier limits the fetches use (the float ones are written as reals). */
  const ArmOcpusLimit: real := 4.0
  const ArmMemoryGBLimit: real := 24.0
  const AmdMaxInstances: int := 2
  const BlockStorageTotalGB: int := 200
  const ObjectStorageTotalGB: int := 10
  const LoadBalancerInstances: int := 1
  /** The reserved public IP quota, written into `getPublicIPsUsage` itself. */
  const PublicIpLimit: real := 2.0
}
