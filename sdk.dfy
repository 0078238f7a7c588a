/**
  * The cloud provider's SDK as the fetches see it: each client constructor and each
  * list or get call is an abstract response, a function of the request's parameters.
  */
module Sdk {
  import opened Wrappers

  datatype ShapeConfig = ShapeConfig(ocpus: Option<real>, memoryInGBs: Option<real>)
  datatype Instance = Instance(shape: string, shapeConfig: Option<ShapeConfig>)
  datatype Volume = Volume(sizeInGBs: Option<int>)
  datatype BucketSummary = BucketSummary(name: string)
  datatype LoadBalancer = LoadBalancer(displayName: string, shapeName: string, lifecycleState: string)
  datatype PublicIp = PublicIp(ipAddress: string)

  /** The responses of every SDK call the fetches make; list calls take the compartment id. */
  datatype Api = Api(
    computeClient: Outcome,
    listInstances: string -> Result<seq<Instance>>,
    blockstorageClient: Outcome,
    listBootVolumes: string -> Result<seq<Volume>>,
    listVolumes: string -> Result<seq<Volume>>,
    objectStorageClient: Outcome,
    getNamespace: Result<string>,
    /** (namespace, compartment) to the buckets listed */
    listBuckets: (string, string) -> Result<seq<BucketSummary>>,
    /** (namespace, bucket name) to the bucket's approximate size in bytes, which may be absent */
    getBucket: (string, string) -> Result<Option<int>>,
    loadBalancerClient: Outcome,
    listLoadBalancers: string -> Result<seq<LoadBalancer>>,
    virtualNetworkClient: Outcome,
    listPublicIps: string -> Result<seq<PublicIp>>)
}
