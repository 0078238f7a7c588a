# Oracle free-tier usage watcher — a Dafny model of its core

The watcher is a small HTTP service. It polls an Oracle Cloud (OCI) account for five kinds of resource:
compute instances, block and boot volumes, object-storage buckets, load balancers and reserved public IPs.
It then reports how close the account is to its free-tier quotas. This project models the part of the
service that can be stated as sequential logic:

- **Configuration** (`config.dfy`). `getEnv`, `isConfigured` and `getCompartmentID` are modelled over the
  environment as a `map<string, string>`. As with `os.Getenv`, an unset key reads as "".
- **The five fetches** (`compute.dfy`, `storage.dfy`, `objects.dfy`, `network.dfy`). Each SDK response
  is an abstract value in `Sdk.Api`. A client constructor is an `Outcome`. A list or get call is a
  function from its request parameters to a `Result`. Each fetch is a method with the source's
  accumulator loops and early returns. It is proved equal to a specification function (`ComputeUsageOf`,
  `StorageUsageOf`, ...). Lemmas state the counting, summing and failure properties of those functions.
- **The snapshot** (`oci.dfy`). `getOCIUsage` runs the five fetches one after another. The outcome of
  creating the configuration provider is its only error (`provider`).
- **The classifier and the handlers** (`classifier.dfy`, `handlers.dfy`). `/usage` and `/status` each
  reduce five percentages to a maximum (starting at 0), a warnings list (metrics at 80% or more) and a
  status: CRITICAL at 90, WARNING at 80, ATTENTION at 60, otherwise OK. The handlers' response codes
  are 405 for a non-GET request, 200 or 503 when not configured, and 500 when the fetch fails.

The fetches compute each percentage in float64 as `int((used / limit) * 100)`. That truncation does not
agree with integer arithmetic. The model therefore takes it as a parameter `percent: (real, real) -> int`
and makes no claim about its value. The classifier works on whatever integer percentages it is given.

## Model

| member | source | states |
|---|---|---|
| `Config.GetEnv` | main.go:183-188 | a set, non-empty value is returned; an unset or empty key gives the default |
| `Config.GetEnvExamples` | main_test.go:16-29 | the two test cases: unset key gives "default", set key gives "custom" |
| `Config.IsConfigured` | main.go:191-205 | the loop over the five required keys returns true iff every key maps to a non-empty value |
| `Config.MissingKeyNotConfigured` | main.go:199-203 | one required key that is unset or empty makes the configuration incomplete |
| `Config.ConfiguredExamples` | main_test.go:109-134 | all five keys set: configured; tenancy blank or absent: not; empty environment: not |
| `Config.CompartmentId` | oci.go:46-53 | `OCI_COMPARTMENT_ID` when non-empty, else the tenancy id |
| `Config.ConfiguredCompartmentNonEmpty` | oci.go:46-53 | under a complete configuration the compartment id queried is never empty |
| `Folds.Count` | oci.go:170-189 | a count of matching items never exceeds the number of items |
| `Compute.ShapeKindOf` | oci.go:176-188 | ARM if the shape contains "A1" or "Ampere", else AMD if it contains "Micro" or "E2.1.Micro", else neither; neither exactly when none of "A1", "Ampere", "Micro" occurs |
| `Compute.GetComputeUsage` | oci.go:145-211 | the loop's four accumulators and the metrics equal `ComputeUsageOf` (sums and counts over the listing) |
| `Compute.ArmTestWins` | oci.go:176 | a shape containing "A1" or "Ampere" is ARM, whatever else it contains |
| `Compute.ShapeKindAmdIffMicro` | oci.go:176-188 | AMD iff not ARM and the shape contains "Micro"; the extra "E2.1.Micro" test never matters |
| `Compute.ArmShapeExample` | oci.go:176 | "VM.Standard.A1.Flex" is ARM |
| `Compute.AmdShapeExample` | oci.go:186 | "VM.Standard.E2.1.Micro" is AMD |
| `Compute.CountsBoundedByTotal` | oci.go:170-208 | TotalInstances is the number listed, and ARM count + AMD count is at most that |
| `Compute.ArmWithoutShapeConfig` | oci.go:177-185 | an ARM instance without ShapeConfig adds one ARM instance and no OCPUs or memory |
| `Compute.NonArmLeavesArmTotals` | oci.go:176-188 | a non-ARM instance changes no ARM figure and adds one AMD instance exactly when it is AMD |
| `Compute.ComputeFailureIsZero` | oci.go:149-166 | a client or listing failure leaves every figure (limits included) zero and records the error |
| `BlockStorage.SumSizes` | oci.go:233-238 | the accumulator loop sums the non-nil sizes |
| `BlockStorage.GetBlockStorageUsage` | oci.go:214-270 | the method's early returns and loops equal `StorageUsageOf` |
| `BlockStorage.AbsentSizeAddsNothing` | oci.go:234-258 | a volume with nil size is counted but adds nothing to the size, wherever it appears |
| `BlockStorage.TotalIsBootPlusBlock` | oci.go:239-267 | on success: total used is boot size + block size, limit 200, counts are the listing lengths |
| `BlockStorage.BlockFailureKeepsBoot` | oci.go:239-250 | a failed block listing keeps the boot figures, leaves the total zero and records the error |
| `BlockStorage.BootFailureIsZero` | oci.go:217-231 | a failed client or boot listing leaves every figure zero and records the error |
| `ObjectStorage.BucketInfos` | oci.go:303-332 | one entry per listed bucket, in order, each from that bucket's own lookup |
| `ObjectStorage.GetObjectStorageUsage` | oci.go:273-342 | the lookup loop (with `continue` on failure) equals `ObjectStorageUsageOf` |
| `ObjectStorage.FailedLookupAddsNothing` | oci.go:312-319 | a bucket whose lookup fails adds nothing to the byte total, wherever it is listed |
| `ObjectStorage.BucketEntries` | oci.go:312-331 | entry i carries bucket i's name; a failed lookup records -1, a missing size records 0 |
| `ObjectStorage.EarlyFailureIsEmpty` | oci.go:276-300 | a client, namespace or listing failure leaves no bucket and a zero total, and records that failure's error |
| `Network.LoadBalancerInfos` | oci.go:371-378 | one entry per listed load balancer, in order, with its name, shape and state |
| `Network.GetLoadBalancerUsage` | oci.go:345-381 | the count metric and the append loop equal `LoadBalancerUsageOf` |
| `Network.LoadBalancerFailure` | oci.go:348-362 | a failure leaves a zero count, no entries and the error recorded |
| `Network.GetPublicIpsUsage` | oci.go:119-142 | the method equals `PublicIpUsageOf`: limit 2, used = number of IPs listed |
| `Network.PublicIpFailure` | oci.go:120-135 | a failure yields limit 2, used 0 and 0%, with no error recorded |
| `Oci.GetOciUsage` | oci.go:57-116 | only a provider failure is an error; otherwise each field is its own fetch on the compartment id |
| `Oci.ComputeIsIsolated` | oci.go:76-107 | whatever the compute calls answer, the other four parts of the snapshot do not change |
| `Oci.PublicIpsAreIsolated` | oci.go:76-107 | whatever the public IP calls answer, the other four parts of the snapshot do not change |
| `Classifier.Max0` | main.go:313-318 | the maximum is at least 0, at least every percentage, and either 0 or one of them |
| `Classifier.StatusOf` | main.go:320-327 | CRITICAL iff m >= 90, WARNING iff 80 <= m < 90, ATTENTION iff 60 <= m < 80, OK iff m < 60 |
| `Classifier.CollectUsage` | main.go:279-311 | `/usage` collects the positive percentages and the readings at 80% or more, in its order |
| `Classifier.MaxPercentage` | main.go:313-318 | the `/usage` loop computes `Max0` of the collected percentages |
| `Classifier.ScanPercentages` | main.go:375-384 | the `/status` loop computes `Max0` and one "Resource" warning per percentage >= 80, in order |
| `Classifier.Max0IgnoresNonPositive` | main.go:282-318 | leaving out percentages at 0 or below does not change a maximum that starts at 0 |
| `Classifier.UsageMaxAgreesWithStatusMax` | main.go:282-318 | `/usage` (positives only) and `/status` (all five, another order) report the same maximum |
| `Classifier.HighNonEmpty` | main.go:284-311 | the warnings are non-empty iff some reading is at 80% or more |
| `Classifier.UsageWarningsIffSevere` | main.go:282-327 | `/usage` has warnings iff its status is WARNING or CRITICAL |
| `Classifier.StatusWarningsIffSevere` | main.go:375-393 | `/status` has warnings iff its status is WARNING or CRITICAL |
| `Classifier.UsageWarningOrder` | main.go:282-311 | `/usage` warnings: ARM OCPUs, ARM Memory, Block Storage, Public IPs, Object Storage, each iff >= 80 |
| `Classifier.UsagePositiveOrder` | main.go:282-311 | `/usage` percentages: the five metrics in that order, each iff > 0 |
| `Classifier.StatusWarningOrder` | main.go:367-383 | `/status` warnings: OCPUs, Memory, Block, Object, Public IPs, each iff >= 80 |
| `Classifier.WarningsAgreeUpToOrder` | main.go:282-311 | both handlers warn about the same multiset of percentages, only ordered differently |
| `Handlers.UsageHandler` | main.go:247-338 | 405 for non-GET; 200 NOT_CONFIGURED when unconfigured; 500 ERROR on fetch error; else 200 with status, max, warnings, usage |
| `Handlers.StatusHandler` | main.go:341-401 | 405 for non-GET; 503 NOT_CONFIGURED when unconfigured; 500 ERROR on fetch error; else 200 with status, max, warnings |

Helpers without a row: `Strings` (a model of Go's `strings.Contains` with `ContainsIff`,
`ContainsTransitive`, `LeadMissingNotContained`), `Folds.SumInt`, `Folds.SumReal`,
`Folds.CountDisjoint`, `Folds.SumIntAppend`, `Config.Lookup`, `Config.Configured`,
`Compute.MicroTestSubsumes`, `BlockStorage.SizeOf`, `BlockStorage.GroupOf`,
`ObjectStorage.BucketInfoOf`, `ObjectStorage.BytesOf`, `ObjectStorage.TotalBytes`,
`ObjectStorage.TotalBytesAppend`, `Network.LoadBalancerInfoOf`, `Classifier.High`,
`Classifier.Positive`, `Classifier.UsageReadings`, `Classifier.StatusPercentages`,
`Classifier.Max0SameValues`, `Classifier.Max0ReachesThreshold`, `Classifier.HighAppend`,
`Classifier.PositiveAppend`, `Classifier.FiveReadings`, `Classifier.Percentages`,
`Classifier.Resources`, `Classifier.PercentagesAppend`, `Classifier.PercentagesOfFive`.

## Left out

- Floating point: the percentages are the abstract parameter `percent`. GB conversions (bytes / 1024^3)
  and the float32 OCPU and memory values are exact `real`s, so float64 rounding is not modelled.
- Integer width: the int64 size and byte sums are unbounded integers, so overflow is not modelled.
- The SDK clients and calls: they are the abstract responses in `Sdk.Api`.
- `createConfigProvider`, which reads the private key file: its outcome is the parameter `provider`.
- Nil pointers that the source dereferences without a check are modelled as present fields: the
  instance shape, bucket name, namespace value, and load balancer name and shape. A nil there
  panics in the source.
- Goroutines and the `done` channel: the five fetches run one after another. Each writes its own
  variable, and the join waits for all five.
- JSON and HTTP: `writeJSON`, JSON encoding, request routing, `main` and `ListenAndServe` are left out.
  A nil slice (encoded as `null`) and an empty one (encoded as `[]`) are both the empty sequence.
  `omitempty` is not modelled.
- Timestamps (`time.Now`) are left out of both response bodies.
- The `FreeTierLimits` table in responses: only the limits the fetches use are constants here.
- Warning text: a warning is `Reading(name, percentage)`, standing for "<name> at <percentage>%".
- `healthHandler` and `limitsHandler`: only their GET check matters, and it is the same one the
  modelled handlers make. Their bodies are a constant and the limits table.
- `strings.Contains` works on bytes and the model works on characters. The two agree for the ASCII
  patterns used here.
- The benchmark needs real credentials.
