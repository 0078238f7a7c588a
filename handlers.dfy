/** The `/usage` and `/status` handlers (main.go): the response code and body each one chooses. */
module Handlers {
  import Wrappers
  import opened Config
  import opened Usage
  import opened Sdk
  import opened Classifier
  import opened Oci

  /** What a handler writes: `http.Error`'s plain text, or `writeJSON`'s encoded body. */
  datatype Reply<B> = PlainText(code: int, text: string) | Json(code: int, body: B)

  /** The `/usage` body; the timestamp and the free-tier limits table are left out. */
  datatype UsageResponse = UsageResponse(
    status: Status,
    maxUsagePercentage: int,
    warnings: seq<Reading>,
    configured: bool,
    usage: Wrappers.Option<AllUsage>,
    error: string,
    message: string)

  /** The `/status` body; the timestamp is left out. */
  datatype StatusResponse = StatusResponse(
    status: Status,
    maxUsagePercentage: int,
    warnings: seq<Reading>,
    message: string)

  /** The reply to any method other than GET. */
  function MethodNotAllowed<B>(): Reply<B>
  {
    PlainText(405, "Method not allowed")
  }

  /** `usageHandler`. `provider` is the outcome of creating the OCI configuration provider. */
  method UsageHandler(httpMethod: string, env: Env, provider: Wrappers.Outcome, api: Api, percent: Percent)
    returns (reply: Reply<UsageResponse>)
    ensures httpMethod != "GET" ==> reply == MethodNotAllowed()
    ensures httpMethod == "GET" && !Configured(env) ==>
      reply == Json(200, UsageResponse(NotConfigured, 0, [], false, Wrappers.None, "OCI not configured",
                                       "Please configure your OCI credentials in the .env file"))
    ensures httpMethod == "GET" && Configured(env) && provider.Fail? ==>
      reply == Json(500, UsageResponse(Error, 0, [], true, Wrappers.None, provider.error, ""))
    ensures httpMethod == "GET" && Configured(env) && provider.Pass? ==>
      var usage := AllUsageOf(api, CompartmentId(env), percent);
      var max := Max0(Positive(UsageReadings(usage)));
      reply == Json(200, UsageResponse(StatusOf(max), max, High(UsageReadings(usage)), true, Wrappers.Some(usage), "", ""))
  {
    if httpMethod != "GET" {
      return MethodNotAllowed();
    }
    var configured := IsConfigured(env);
    if !configured {
      return Json(200, UsageResponse(NotConfigured, 0, [], false, Wrappers.None, "OCI not configured",
                                     "Please configure your OCI credentials in the .env file"));
    }
    var result := GetOciUsage(env, provider, api, percent);
    if result.Err? {
      return Json(500, UsageResponse(Error, 0, [], true, Wrappers.None, result.error, ""));
    }
    var usage := result.value;
    var percentages, warnings := CollectUsage(usage);
    var maxPercentage := MaxPercentage(percentages);
    var status := StatusOf(maxPercentage);
    return Json(200, UsageResponse(status, maxPercentage, warnings, true, Wrappers.Some(usage), "", ""));
  }

  /** `statusHandler`. `provider` is the outcome of creating the OCI configuration provider. */
  method StatusHandler(httpMethod: string, env: Env, provider: Wrappers.Outcome, api: Api, percent: Percent)
    returns (reply: Reply<StatusResponse>)
    ensures httpMethod != "GET" ==> reply == MethodNotAllowed()
    ensures httpMethod == "GET" && !Configured(env) ==>
      reply == Json(503, StatusResponse(NotConfigured, 0, [], "OCI credentials not configured"))
    ensures httpMethod == "GET" && Configured(env) && provider.Fail? ==>
      reply == Json(500, StatusResponse(Error, 0, [], provider.error))
    ensures httpMethod == "GET" && Configured(env) && provider.Pass? ==>
      var ps := StatusPercentages(AllUsageOf(api, CompartmentId(env), percent));
      reply == Json(200, StatusResponse(StatusOf(Max0(ps)), Max0(ps), High(Resources(ps)), ""))
  {
    if httpMethod != "GET" {
      return MethodNotAllowed();
    }
    var configured := IsConfigured(env);
    if !configured {
      return Json(503, StatusResponse(NotConfigured, 0, [], "OCI credentials not configured"));
    }
    var result := GetOciUsage(env, provider, api, percent);
    if result.Err? {
      return Json(500, StatusResponse(Error, 0, [], result.error));
    }
    var usage := result.value;
    var percentages := [usage.compute.arm.ocpus.percentage, usage.compute.arm.memoryGB.percentage,
                        usage.blockStorage.total.percentage, usage.objectStorage.total.percentage,
                        usage.publicIPs.percentage];
    var maxPercentage, warnings := ScanPercentages(percentages);
    var status := StatusOf(maxPercentage);
    return Json(200, StatusResponse(status, maxPercentage, warnings, ""));
  }
}
