/** Orc8r service discovery and the synchronised root CA. */
module AgwTrust {
  import opened GoMaps
  import opened Objects
  import opened AgwModel
  import HashedJob

  const ROOT_CA := "rootCA.pem"
  const ROOT_CA_HASH := "magma.infra.don/rootca-sha256"

  function Orc8rCertKey(spec: Spec): ObjectKey {
    SecretKey(Orc8rNamespace(spec), NmsCertSecretName(spec))
  }

  function CertSecretName(release: string, values: StringMap): string {
    OrDefault(Get(values, "secret.certs"), release + "-secret-certs")
  }

  function CertSecretKey(agw: Agw, values: StringMap): ObjectKey {
    SecretKey(agw.namespace, CertSecretName(ReleaseName(agw), values))
  }

  function PvcKey(agw: Agw): ObjectKey {
    ObjectKey(PersistentVolumeClaim, agw.namespace, ReleaseName(agw) + "-claim")
  }

  function RootCAJobKey(agw: Agw): ObjectKey {
    JobKey(agw.namespace, ReleaseName(agw) + "-rootca-sync")
  }

  function ServiceKey(spec: Spec): ObjectKey {
    ObjectKey(Service, Orc8rNamespace(spec), OrDefault(spec.nmsAPIHost, Orc8rReleaseName(spec) + "-nginx-proxy"))
  }

  // ----- Host alias -----

  datatype Alias = AliasFailed | NoAlias | Alias(ip: string)

  function HostAlias(store: Store, spec: Spec, values: StringMap, failing: set<Call>): Alias {
    if Get(values, "orc8r.hostAliases.enabled") == "false" then NoAlias
    else if ServiceGet in failing then AliasFailed
    else if ServiceKey(spec) !in store then NoAlias
    else
      var ip := Get(store[ServiceKey(spec)].data, "clusterIP");
      if ip == "" || ip == "None" then NoAlias else Alias(ip)
  }

  function WithAlias(values: StringMap, alias: Alias): StringMap {
    if alias.Alias? then values["orc8r.hostAliases.enabled" := "true"]["orc8r.hostAliases.ip" := alias.ip] else values
  }

  // ----- Trust bundle -----

  function RootCA(store: Store, spec: Spec): string {
    if Orc8rCertKey(spec) in store then Get(store[Orc8rCertKey(spec)].data, ROOT_CA) else ""
  }

  /** The AGW certificate Secret holding this root CA, without leftovers of older installations. */
  function WithRootCA(secret: Object, rootCA: string, hash: string): Object {
    secret.(
      labels := secret.labels[LABEL_MANAGED_BY := MANAGED_BY_OPERATOR],
      annotations := secret.annotations[ROOT_CA_HASH := hash],
      data := secret.data[ROOT_CA := rootCA] - {"gateway.crt", "gateway.key", "controller.crt", "controller.key"})
  }

  datatype TrustStep = TrustStep(store: Store, hash: string, verdict: Verdict)

  datatype Verdict = Synced | NotSynced(reason: Reason) | Failed(reason: Reason)

  function JobFaults(failing: set<Call>): HashedJob.Faults {
    HashedJob.Faults(RootCAJobGet in failing, RootCAJobDelete in failing, RootCAJobCreate in failing)
  }

  function JobVerdict(outcome: HashedJob.Outcome): Verdict {
    match outcome
    case Credited => Synced
    case Broken => NotSynced(RootCASyncJobFailed)
    case Waiting => NotSynced(RootCASyncJobRunning)
    case Replacing => NotSynced(RootCASyncJobReplacing)
    case Created => NotSynced(RootCASyncJobCreated)
    case ReadFailed => Failed(RootCASyncJobReadFailed)
    case DeleteFailed => Failed(RootCASyncJobDeleteFailed)
    case CreateFailed => Failed(RootCASyncJobCreateFailed)
  }

  function SyncRootCA(store: Store, agw: Agw, values: StringMap, rootCA: string, crypto: Crypto): Store {
    store[CertSecretKey(agw, values) := WithRootCA(ObjectOrBlank(store, CertSecretKey(agw, values)), rootCA, crypto.sha(rootCA))]
  }

  function ReconcileTrustBundle(store: Store, agw: Agw, values: StringMap, crypto: Crypto, failing: set<Call>): TrustStep {
    var rootCA := RootCA(store, agw.spec);
    if Orc8rSecretGet in failing then TrustStep(store, "", Failed(Orc8rCertSecretReadFailed))
    else if Orc8rCertKey(agw.spec) !in store then TrustStep(store, "", NotSynced(WaitingForOrc8rCertSecret))
    else if rootCA == "" then TrustStep(store, "", NotSynced(Orc8rRootCAMissing))
    else
      var hash := crypto.sha(rootCA);
      if CertSecretWrite in failing then TrustStep(store, hash, Failed(AGWCertSecretSyncFailed))
      else
        var synced := SyncRootCA(store, agw, values, rootCA, crypto);
        if PvcGet in failing then TrustStep(synced, hash, Failed(AGWPVCReadFailed))
        else if PvcKey(agw) !in synced then TrustStep(synced, hash, Synced)
        else
          var step := HashedJob.Advance(synced, RootCAJobKey(agw), ROOT_CA_HASH, hash,
                                        CertSecretName(ReleaseName(agw), values), JobFaults(failing));
          TrustStep(step.store, hash, JobVerdict(step.outcome))
  }

  // ----- The certificate Secret -----

  lemma CertEntries()
    ensures "rootCA.pem" !in {"gateway.crt", "gateway.key", "controller.crt", "controller.key"}
  {
    assert |"rootCA.pem"| == 10 && |"gateway.crt"| == 11 && |"gateway.key"| == 11 && |"controller.crt"| == 14 && |"controller.key"| == 14;
  }

  /** Once written, the Secret has the root CA and its hash, none of the four older certificates and keys, and everything else that it had. */
  lemma WithRootCAExact(secret: Object, rootCA: string, hash: string, key: string)
    ensures var after := WithRootCA(secret, rootCA, hash);
      && Get(after.data, "rootCA.pem") == rootCA && Get(after.annotations, "magma.infra.don/rootca-sha256") == hash
      && Get(after.labels, "app.kubernetes.io/managed-by") == "magma-operator"
      && (key in {"gateway.crt", "gateway.key", "controller.crt", "controller.key"} ==> key !in after.data)
      && (key !in {"rootCA.pem", "gateway.crt", "gateway.key", "controller.crt", "controller.key"} ==> Get(after.data, key) == Get(secret.data, key))
      && after.body == secret.body
  {
    CertEntries();
  }

  /** It is the Secret that the values name, or else one named after the release, and nothing else is written. */
  lemma SyncedSecret(store: Store, agw: Agw, values: StringMap, crypto: Crypto)
    ensures var release := if agw.spec.releaseName != "" then agw.spec.releaseName else agw.name;
      var k := ObjectKey(Secret, agw.namespace, if Get(values, "secret.certs") != "" then Get(values, "secret.certs") else release + "-secret-certs");
      var rootCA := RootCA(store, agw.spec);
      SyncRootCA(store, agw, values, rootCA, crypto) == store[k := WithRootCA(if k in store then store[k] else BLANK, rootCA, crypto.sha(rootCA))]
  {
    hide WithRootCA;
  }
}
