/** `getObjectStorageUsage` (oci.go): listed buckets with their approximate sizes. */
module ObjectStorage {
  import opened Wrappers
  import opened Usage
  import opened Sdk

  /** Bytes per GB in the size conversion (1024 * 1024 * 1024). */
  const BytesPerGB: real := 1073741824.0

  /** The entry for one bucket: -1 when its lookup failed, 0 when it reports no size. */
  function BucketInfoOf(name: string, lookup: Result<Option<int>>): BucketInfo
  {
    match lookup
    case Err(_) => BucketInfo(name, -1.0)
    case Ok(None) => BucketInfo(name, 0.0)
    case Ok(Some(bytes)) => BucketInfo(name, bytes as real / BytesPerGB)
  }

  /** What one bucket adds to the byte total: its size only when the lookup succeeded and reported one. */
  function BytesOf(lookup: Result<Option<int>>): int
  {
    if lookup.Ok? && lookup.value.Some? then lookup.value.value else 0
  }

  /** The bucket list: one entry per listed bucket, in listing order. */
  function BucketInfos(getBucket: (string, string) -> Result<Option<int>>, namespace: string, items: seq<BucketSummary>): (infos: seq<BucketInfo>)
    ensures |infos| == |items|
    ensures forall i :: 0 <= i < |items| ==>
              infos[i] == BucketInfoOf(items[i].name, getBucket(namespace, items[i].name))
  {
    if items == [] then []
    else
      var last := items[|items| - 1];
      BucketInfos(getBucket, namespace, items[..|items| - 1]) + [BucketInfoOf(last.name, getBucket(namespace, last.name))]
  }

  /** The byte total over the listed buckets. */
  function TotalBytes(getBucket: (string, string) -> Result<Option<int>>, namespace: string, items: seq<BucketSummary>): int
  {
    if items == [] then 0
    else
      var last := items[|items| - 1];
      TotalBytes(getBucket, namespace, items[..|items| - 1]) + BytesOf(getBucket(namespace, last.name))
  }

  /** The object storage usage of `compartment`, as `getObjectStorageUsage` reports it. */
  function ObjectStorageUsageOf(api: Api, compartment: string, percent: Percent): ObjectStorageUsage
  {
    if api.objectStorageClient.Fail? then ObjectStorageUsage([], Unused, api.objectStorageClient.error)
    else match api.getNamespace
      case Err(e) => ObjectStorageUsage([], Unused, e)
      case Ok(namespace) =>
        match api.listBuckets(namespace, compartment)
        case Err(e) => ObjectStorageUsage([], Unused, e)
        case Ok(items) =>
          var totalGB := TotalBytes(api.getBucket, namespace, items) as real / BytesPerGB;
          ObjectStorageUsage(BucketInfos(api.getBucket, namespace, items),
                             UsageMetric(totalGB, ObjectStorageTotalGB as real,
                                         percent(totalGB, ObjectStorageTotalGB as real)),
                             "")
  }

  /** `getObjectStorageUsage`: looks every listed bucket up; a failed lookup is marked and skipped. */
  method GetObjectStorageUsage(api: Api, compartment: string, percent: Percent) returns (usage: ObjectStorageUsage)
    ensures usage == ObjectStorageUsageOf(api, compartment, percent)
  {
    usage := ObjectStorageUsage([], Unused, "");
    if api.objectStorageClient.Fail? {
      usage := usage.(error := api.objectStorageClient.error);
      return;
    }
    var nsResponse := api.getNamespace;
    if nsResponse.Err? {
      usage := usage.(error := nsResponse.error);
      return;
    }
    var namespace := nsResponse.value;
    var bucketsResponse := api.listBuckets(namespace, compartment);
    if bucketsResponse.Err? {
      usage := usage.(error := bucketsResponse.error);
      return;
    }
    var items := bucketsResponse.value;

    var totalBytes := 0;
    usage := usage.(buckets := []);
    var i := 0;
    while i < |items|
      invariant 0 <= i <= |items|
      invariant totalBytes == TotalBytes(api.getBucket, namespace, items[..i])
      invariant usage == ObjectStorageUsage(BucketInfos(api.getBucket, namespace, items[..i]), Unused, "")
    {
      var bucket := items[i];
      assert items[..i + 1][..i] == items[..i];
      var bucketResponse := api.getBucket(namespace, bucket.name);
      if bucketResponse.Err? {
        usage := usage.(buckets := usage.buckets + [BucketInfo(bucket.name, -1.0)]);
        i := i + 1;
        continue;
      }
      var sizeGB := 0.0;
      if bucketResponse.value.Some? {
        var sizeBytes := bucketResponse.value.value;
        sizeGB := sizeBytes as real / BytesPerGB;
        totalBytes := totalBytes + sizeBytes;
      }
      usage := usage.(buckets := usage.buckets + [BucketInfo(bucket.name, sizeGB)]);
      i := i + 1;
    }
    assert items[..i] == items;

    var totalGB := totalBytes as real / BytesPerGB;
    usage := usage.(total := UsageMetric(totalGB, ObjectStorageTotalGB as real,
                                         percent(totalGB, ObjectStorageTotalGB as real)));
  }

  /** The byte total over a concatenation of listings is the sum of their totals. */
  lemma {:induction false} TotalBytesAppend(getBucket: (string, string) -> Result<Option<int>>, namespace: string, a: seq<BucketSummary>, b: seq<BucketSummary>)
    ensures TotalBytes(getBucket, namespace, a + b) == TotalBytes(getBucket, namespace, a) + TotalBytes(getBucket, namespace, b)
  {
    if b == [] {
      assert a + b == a;
    } else {
      TotalBytesAppend(getBucket, namespace, a, b[..|b| - 1]);
      assert (a + b)[..|a + b| - 1] == a + b[..|b| - 1];
    }
  }

  /** A bucket whose lookup fails adds nothing to the byte total, wherever it is listed. */
  lemma FailedLookupAddsNothing(getBucket: (string, string) -> Result<Option<int>>, namespace: string, before: seq<BucketSummary>,
                                bucket: BucketSummary, after: seq<BucketSummary>)
    requires getBucket(namespace, bucket.name).Err?
    ensures TotalBytes(getBucket, namespace, before + [bucket] + after) == TotalBytes(getBucket, namespace, before + after)
  {
    TotalBytesAppend(getBucket, namespace, before + [bucket], after);
    TotalBytesAppend(getBucket, namespace, before, [bucket]);
    TotalBytesAppend(getBucket, namespace, before, after);
    assert [bucket][..0] == [];
  }

  /** A failed lookup is listed under the bucket's name with size -1; a missing size shows as 0. */
  lemma BucketEntries(getBucket: (string, string) -> Result<Option<int>>, namespace: string, items: seq<BucketSummary>, i: nat)
    requires i < |items|
    ensures var info := BucketInfos(getBucket, namespace, items)[i];
      info.name == items[i].name &&
      (getBucket(namespace, items[i].name).Err? ==> info.sizeGB == -1.0) &&
      (getBucket(namespace, items[i].name) == Ok(None) ==> info.sizeGB == 0.0)
  {
  }

  /** A failure before the listing leaves no bucket, a zero total and the error recorded. */
  lemma EarlyFailureIsEmpty(api: Api, compartment: string, percent: Percent)
    requires api.objectStorageClient.Fail? || api.getNamespace.Err? ||
             api.listBuckets(api.getNamespace.value, compartment).Err?
    ensures var usage := ObjectStorageUsageOf(api, compartment, percent);
      usage.buckets == [] && usage.total == Unused &&
      usage.error == (if api.objectStorageClient.Fail? then api.objectStorageClient.error
                      else if api.getNamespace.Err? then api.getNamespace.error
                      else api.listBuckets(api.getNamespace.value, compartment).error)
  {
  }
}
