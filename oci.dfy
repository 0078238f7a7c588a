/** `getOCIUsage` (oci.go): the five fetches, run one after another, joined into one snapshot. */
module Oci {
  import opened Wrappers
  import opened Config
  import opened Usage
  import opened Sdk
  import opened Compute
  import opened BlockStorage
  import opened ObjectStorage
  import opened Network

  /** The snapshot of `compartment`: each field is the result of its own fetch. */
  function AllUsageOf(api: Api, compartment: string, percent: Percent): AllUsage
  {
    AllUsage(ComputeUsageOf(api, compartment, percent),
             StorageUsageOf(api, compartment, percent),
             PublicIpUsageOf(api, compartment, percent),
             ObjectStorageUsageOf(api, compartment, percent),
             LoadBalancerUsageOf(api, compartment, percent))
  }

  /**
    * `getOCIUsage`. `provider` is the outcome of creating the configuration provider (reading
    * the private key file); it is the only error this operation returns.
    */
  method GetOciUsage(env: Env, provider: Outcome, api: Api, percent: Percent) returns (result: Result<AllUsage>)
    ensures provider.Fail? ==> result == Err(provider.error)
    ensures provider.Pass? ==> result == Ok(AllUsageOf(api, CompartmentId(env), percent))
  {
    if provider.Fail? {
      return Err(provider.error);
    }
    var compartmentId := CompartmentId(env);
    var computeUsage := GetComputeUsage(api, compartmentId, percent);
    var blockStorageUsage := GetBlockStorageUsage(api, compartmentId, percent);
    var objectStorageUsage := GetObjectStorageUsage(api, compartmentId, percent);
    var loadBalancerUsage := GetLoadBalancerUsage(api, compartmentId, percent);
    var publicIpUsage := GetPublicIpsUsage(api, compartmentId, percent);
    return Ok(AllUsage(computeUsage, blockStorageUsage, publicIpUsage, objectStorageUsage, loadBalancerUsage));
  }

  /** Whatever the compute calls answer, the other four parts of the snapshot are unchanged. */
  lemma ComputeIsIsolated(api: Api, client: Outcome, list: string -> Result<seq<Instance>>,
                          compartment: string, percent: Percent)
    ensures var before := AllUsageOf(api, compartment, percent);
      var after := AllUsageOf(api.(computeClient := client, listInstances := list), compartment, percent);
      after.blockStorage == before.blockStorage && after.publicIPs == before.publicIPs &&
      after.objectStorage == before.objectStorage && after.loadBalancer == before.loadBalancer
  {
  }

  /** Whatever the public IP calls answer, the other four parts of the snapshot are unchanged. */
  lemma PublicIpsAreIsolated(api: Api, client: Outcome, list: string -> Result<seq<PublicIp>>,
                             compartment: string, percent: Percent)
    ensures var before := AllUsageOf(api, compartment, percent);
      var after := AllUsageOf(api.(virtualNetworkClient := client, listPublicIps := list), compartment, percent);
      after.compute == before.compute && after.blockStorage == before.blockStorage &&
      after.objectStorage == before.objectStorage && after.loadBalancer == before.loadBalancer
  {
  }
}
