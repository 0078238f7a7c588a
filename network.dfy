/** `getLoadBalancerUsage` and `getPublicIPsUsage` (oci.go). */
module Network {
  import opened Wrappers
  import opened Usage
  import opened Sdk

  /** The entry reported for one listed load balancer. */
  function LoadBalancerInfoOf(lb: LoadBalancer): LoadBalancerInfo
  {
    LoadBalancerInfo(lb.displayName, lb.shapeName, lb.lifecycleState)
  }

  /** The load-balancer list: one entry per listed item, in listing order. */
  function LoadBalancerInfos(items: seq<LoadBalancer>): (infos: seq<LoadBalancerInfo>)
    ensures |infos| == |items|
    ensures forall i :: 0 <= i < |items| ==> infos[i] == LoadBalancerInfoOf(items[i])
  {
    if items == [] then [] else LoadBalancerInfos(items[..|items| - 1]) + [LoadBalancerInfoOf(items[|items| - 1])]
  }

  /** The load-balancer usage of `compartment`, as `getLoadBalancerUsage` reports it. */
  function LoadBalancerUsageOf(api: Api, compartment: string, percent: Percent): LoadBalancerUsage
  {
    if api.loadBalancerClient.Fail? then LoadBalancerUsage(Unused, [], api.loadBalancerClient.error)
    else match api.listLoadBalancers(compartment)
      case Err(e) => LoadBalancerUsage(Unused, [], e)
      case Ok(items) =>
        var count := |items| as real;
        LoadBalancerUsage(UsageMetric(count, LoadBalancerInstances as real, percent(count, LoadBalancerInstances as real)),
                          LoadBalancerInfos(items), "")
  }

  /** `getLoadBalancerUsage`: the count metric, then the list built by appending. */
  method GetLoadBalancerUsage(api: Api, compartment: string, percent: Percent) returns (usage: LoadBalancerUsage)
    ensures usage == LoadBalancerUsageOf(api, compartment, percent)
  {
    usage := LoadBalancerUsage(Unused, [], "");
    if api.loadBalancerClient.Fail? {
      usage := usage.(error := api.loadBalancerClient.error);
      return;
    }
    var response := api.listLoadBalancers(compartment);
    if response.Err? {
      usage := usage.(error := response.error);
      return;
    }
    var items := response.value;
    var count := |items| as real;
    usage := usage.(count := UsageMetric(count, LoadBalancerInstances as real, percent(count, LoadBalancerInstances as real)));

    usage := usage.(loadBalancers := []);
    var i := 0;
    while i < |items|
      invariant 0 <= i <= |items|
      invariant usage.loadBalancers == LoadBalancerInfos(items[..i])
      invariant usage.count == UsageMetric(count, LoadBalancerInstances as real, percent(count, LoadBalancerInstances as real))
      invariant usage.error == ""
    {
      var lb := items[i];
      usage := usage.(loadBalancers := usage.loadBalancers + [LoadBalancerInfo(lb.displayName, lb.shapeName, lb.lifecycleState)]);
      assert items[..i + 1][..i] == items[..i];
      i := i + 1;
    }
    assert items[..i] == items;
  }

  /** The reserved public IP usage of `compartment`, as `getPublicIPsUsage` reports it. */
  function PublicIpUsageOf(api: Api, compartment: string, percent: Percent): UsageMetric
  {
    if api.virtualNetworkClient.Fail? then UsageMetric(0.0, PublicIpLimit, 0)
    else match api.listPublicIps(compartment)
      case Err(_) => UsageMetric(0.0, PublicIpLimit, 0)
      case Ok(items) => UsageMetric(|items| as real, PublicIpLimit, percent(|items| as real, PublicIpLimit))
  }

  /** `getPublicIPsUsage`: starts from the limit alone and fills in the count on success. */
  method GetPublicIpsUsage(api: Api, compartment: string, percent: Percent) returns (usage: UsageMetric)
    ensures usage == PublicIpUsageOf(api, compartment, percent)
  {
    usage := UsageMetric(0.0, PublicIpLimit, 0);
    if api.virtualNetworkClient.Fail? {
      return;
    }
    var response := api.listPublicIps(compartment);
    if response.Err? {
      return;
    }
    var count := |response.value|;
    usage := usage.(used := count as real);
    usage := usage.(percentage := percent(usage.used, usage.limit));
  }

  /** A failed client or listing leaves the metric at limit 2, nothing used, 0 percent; there is no error field. */
  lemma PublicIpFailure(api: Api, compartment: string, percent: Percent)
    requires api.virtualNetworkClient.Fail? || api.listPublicIps(compartment).Err?
    ensures PublicIpUsageOf(api, compartment, percent) == UsageMetric(0.0, 2.0, 0)
  {
  }

  /** A failed client or listing leaves no load balancer and a zero count, with the error recorded. */
  lemma LoadBalancerFailure(api: Api, compartment: string, percent: Percent)
    requires api.loadBalancerClient.Fail? || api.listLoadBalancers(compartment).Err?
    ensures var usage := LoadBalancerUsageOf(api, compartment, percent);
      usage.count == Unused && usage.loadBalancers == [] &&
      usage.error == if api.loadBalancerClient.Fail? then api.loadBalancerClient.error
                     else api.listLoadBalancers(compartment).error
  {
  }
}
