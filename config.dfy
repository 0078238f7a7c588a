/** Configuration read from the process environment (main.go, oci.go). */
module Config {

  /** The process environment; a key that was never set is absent. */
  type Env = map<string, string>

  /** `os.Getenv`: the value of `key`, or the empty string when it is unset. */
  function Lookup(env: Env, key: string): string
  {
    if key in env then env[key] else ""
  }

  /** `getEnv`: the environment value when it is non-empty, the default otherwise. */
  function GetEnv(env: Env, key: string, default: string): (value: string)
    ensures key in env && env[key] != "" ==> value == env[key]
    ensures key !in env || env[key] == "" ==> value == default
  {
    var v := Lookup(env, key);
    if v != "" then v else default
  }

  /** The two cases of the `getEnv` tests. */
  lemma GetEnvExamples()
    ensures GetEnv(map[], "NON_EXISTENT_VAR", "default") == "default"
    ensures GetEnv(map["TEST_VAR" := "custom"], "TEST_VAR", "default") == "custom"
  {
  }

  /** The credentials `isConfigured` insists on, in the order it checks them. */
  const RequiredKeys: seq<string> :=
    ["OCI_TENANCY_ID", "OCI_USER_ID", "OCI_FINGERPRINT", "OCI_PRIVATE_KEY_PATH", "OCI_REGION"]

  /** Every required key is set to a non-empty value. */
  predicate Configured(env: Env)
  {
    forall k :: k in RequiredKeys ==> k in env && env[k] != ""
  }

  /** `isConfigured`: scans the required keys and stops at the first empty one. */
  method IsConfigured(env: Env) returns (ok: bool)
    ensures ok <==> Configured(env)
  {
    var i := 0;
    while i < |RequiredKeys|
      invariant 0 <= i <= |RequiredKeys|
      invariant forall j :: 0 <= j < i ==> Lookup(env, RequiredKeys[j]) != ""
    {
      if Lookup(env, RequiredKeys[i]) == "" {
        return false;
      }
      i := i + 1;
    }
    return true;
  }

  /** A single required key that is missing or empty makes the configuration incomplete. */
  lemma MissingKeyNotConfigured(env: Env, key: string)
    requires key in RequiredKeys
    requires Lookup(env, key) == ""
    ensures !Configured(env)
  {
  }

  /** The complete environment of the configuration tests. */
  const TestEnv: Env := map["OCI_TENANCY_ID" := "ocid1.tenancy.test", "OCI_USER_ID" := "ocid1.user.test",
                            "OCI_FINGERPRINT" := "aa:bb:cc:dd", "OCI_PRIVATE_KEY_PATH" := "/tmp/test.pem",
                            "OCI_REGION" := "us-ashburn-1"]

  /**
    * The configuration tests: all five keys set; the tenancy cleared to "" (the tests blank
    * every key before setting theirs) or never set; nothing set.
    */
  lemma ConfiguredExamples()
    ensures Configured(TestEnv)
    ensures !Configured(TestEnv["OCI_TENANCY_ID" := ""])
    ensures !Configured(TestEnv - {"OCI_TENANCY_ID"})
    ensures !Configured(map[])
  {
    MissingKeyNotConfigured(TestEnv["OCI_TENANCY_ID" := ""], "OCI_TENANCY_ID");
    MissingKeyNotConfigured(TestEnv - {"OCI_TENANCY_ID"}, "OCI_TENANCY_ID");
    MissingKeyNotConfigured(map[], "OCI_TENANCY_ID");
  }

  /** `getCompartmentID`: `OCI_COMPARTMENT_ID` when it is set, else the tenancy (the root compartment). */
  function CompartmentId(env: Env): (id: string)
    ensures Lookup(env, "OCI_COMPARTMENT_ID") != "" ==> id == env["OCI_COMPARTMENT_ID"]
    ensures Lookup(env, "OCI_COMPARTMENT_ID") == "" ==> id == Lookup(env, "OCI_TENANCY_ID")
  {
    var compartment := Lookup(env, "OCI_COMPARTMENT_ID");
    if compartment == "" then Lookup(env, "OCI_TENANCY_ID") else compartment
  }

  /** Under a complete configuration the compartment queried is never empty. */
  lemma ConfiguredCompartmentNonEmpty(env: Env)
    requires Configured(env)
    ensures CompartmentId(env) != ""
  {
    assert RequiredKeys[0] == "OCI_TENANCY_ID";
  }
}
