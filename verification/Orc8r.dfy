/** One reconcile pass over a MagmaOrc8r: native apply, certificates, and their rollout. */
module Orc8r {
  import opened GoMaps
  import opened Objects
  import opened Rendering
  import opened NativeRelease
  import opened SecretBytes
  import opened AgwModel
  import ValidationKey

  // ----- The resource -----

  datatype Orc8rSpec = Orc8rSpec(
    releaseName: string, domainName: string, controllerHostname: string, nmsNodePort: Option<Int32>,
    nmsOrganization: string, nmsAdminEmail: string, nmsAdminPassword: string, nmsCustomDomains: seq<string>,
    networkID: string, networkName: string, subscriberIMSI: string, values: StringMap)

  datatype Orc8rReason =
    | NativeFailed | CertSecretFailed | SecretRolloutFailed | BootstrapJobFailed | BootstrapJobRecreated
    | MagmaltePatchFailed | ResourcesReady | DeleteFailed

  datatype Orc8rStatus = Orc8rStatus(
    observedGeneration: nat, releaseName: string, releaseNamespace: string, nmsURL: string,
    ready: bool, reason: Option<Orc8rReason>, readyGeneration: nat)

  datatype MagmaOrc8r = MagmaOrc8r(
    name: string, namespace: string, generation: nat, resourceVersion: nat,
    deleting: bool, finalizers: set<string>, spec: Orc8rSpec, status: Orc8rStatus)

  const ORC8R_FINALIZER := "magma.infra.don/magmaorc8r-finalizer"
  const CERT_SECRET := "orc8r-secrets-certs"
  const CERT_DOMAIN := "magma.infra.don/orc8r-cert-domain"
  const CERT_HASH := "magma.infra.don/orc8r-cert-hash"
  const SECRET_HASH := "magma.infra.don/orc8r-secret-hash"
  const ORC8R_ROOT_CA := "rootCA.pem"

  datatype Cluster = Cluster(cr: Option<MagmaOrc8r>, objects: Store)

  /** The embedded manifest, the hash, and what the HTTP node port mode does to a Deployment. */
  datatype Orc8rOperator = Orc8rOperator(manifest: Manifest, sha: string -> string, httpMode: string -> string)

  datatype Orc8rCall =
    | GetResource | PatchFinalizer | UpdateStatus | GetCerts | GenerateCerts | WriteCerts | GetSecret | ListDeployments
    | GetJob | DeleteJob | PatchJob | GetMagmalte | UpdateMagmalte

  /** What one pass meets; freshly generated certificate data always holds a root CA. */
  datatype Orc8rOracle = Orc8rOracle(
    failing: set<Orc8rCall>, newCerts: CertData, applyStop: Stop, immutable: set<ObjectKey>,
    annotated: ObjectKey -> bool, deleteStop: Stop, live: Option<MagmaOrc8r>)

  type CertData = d: StringMap | Get(d, ORC8R_ROOT_CA) != "" witness map[ORC8R_ROOT_CA := "-"]

  predicate Orc8rEvolves(a: Option<MagmaOrc8r>, b: Option<MagmaOrc8r>) {
    if a.None? then b.None?
    else if b.None? then ORC8R_FINALIZER !in a.value.finalizers
    else
      var x, y := a.value, b.value;
      && x.name == y.name && x.namespace == y.namespace && x.status == y.status
      && (x == y || x.resourceVersion < y.resourceVersion)
      && (if x.spec == y.spec && x.deleting == y.deleting then x.generation == y.generation else x.generation < y.generation)
      && (x.deleting ==> y.deleting)
      && (ORC8R_FINALIZER in x.finalizers <==> ORC8R_FINALIZER in y.finalizers)
  }

  function LiveOrc8r(cr: Option<MagmaOrc8r>, o: Orc8rOracle): (live: Option<MagmaOrc8r>)
    ensures Orc8rEvolves(cr, live)
  {
    if Orc8rEvolves(cr, o.live) then o.live else cr
  }

  function OwnRelease(r: MagmaOrc8r): string {
    OrDefault(r.spec.releaseName, r.name)
  }

  function Orc8rTarget(r: MagmaOrc8r): Target {
    Target(OwnRelease(r), r.namespace)
  }

  // ----- Values -----

  function SetIf(values: StringMap, key: string, value: string): StringMap {
    if value != "" then values[key := value] else values
  }

  function ListValues(values: StringMap, prefix: string, entries: seq<string>): StringMap {
    if entries == [] then values
    else
      var n := |entries| - 1;
      SetIf(ListValues(values, prefix, entries[..n]), prefix + "[" + ValidationKey.Decimal(n) + "]", entries[n])
  }

  function DomainValues(values: StringMap, spec: Orc8rSpec): StringMap {
    var v1 := SetIf(values, "global.domainName", spec.domainName);
    var v2 := SetIf(v1, "orc8r.controller.image.env.orc8r_domain_name", spec.domainName);
    var v3 := SetIf(v2, "lte-orc8r.controller.image.env.orc8r_domain_name", spec.domainName);
    var v4 := SetIf(v3, "orc8r.nms.controllerHostname", spec.controllerHostname);
    SetIf(v4, "orc8r.nginx.spec.hostname", spec.controllerHostname)
  }

  function AdminValues(values: StringMap, spec: Orc8rSpec): StringMap {
    var v1 := SetIf(values, "nmsAdmin.organization", spec.nmsOrganization);
    var v2 := SetIf(v1, "nmsAdmin.email", spec.nmsAdminEmail);
    var v3 := SetIf(v2, "nmsAdmin.password", spec.nmsAdminPassword);
    ListValues(v3, "nmsAdmin.customDomains", spec.nmsCustomDomains)
  }

  function ProvisioningValues(values: StringMap, spec: Orc8rSpec): StringMap {
    var v1 := SetIf(values, "provisioning.network.id", spec.networkID);
    var v2 := SetIf(v1, "provisioning.network.name", spec.networkName);
    var v3 := SetIf(v2, "provisioning.subscriber.imsi", spec.subscriberIMSI);
    if spec.nmsNodePort.None? then v3
    else v3["orc8r.nms.magmalte.service.http.nodePort" := ValidationKey.Decimal(spec.nmsNodePort.value)]
  }

  function Orc8rValues(spec: Orc8rSpec): StringMap {
    var v0: StringMap := map["orc8r.nms.magmalte.service.type" := "NodePort", "orc8r.nms.nginx.create" := "false"];
    ProvisioningValues(AdminValues(DomainValues(v0, spec), spec), spec) + spec.values
  }

  // ----- Certificates -----

  function Domain(spec: Orc8rSpec): string {
    OrDefault(spec.domainName, "magma.local")
  }

  function DomainKey(spec: Orc8rSpec): string {
    Domain(spec) + "|" + OrDefault(spec.controllerHostname, "controller." + Domain(spec))
  }

  function CertsKey(r: MagmaOrc8r): ObjectKey {
    SecretKey(r.namespace, CERT_SECRET)
  }

  /** The certificates are there and were made for this domain and host name. */
  predicate HasCerts(store: Store, r: MagmaOrc8r) {
    && CertsKey(r) in store
    && Get(store[CertsKey(r)].annotations, CERT_DOMAIN) == DomainKey(r.spec)
    && Get(store[CertsKey(r)].data, ORC8R_ROOT_CA) != ""
  }

  function WithCerts(secret: Object, domainKey: string, data: CertData, sha: string -> string): Object {
    secret.(labels := secret.labels[LABEL_MANAGED_BY := MANAGED_BY_OPERATOR],
            annotations := secret.annotations[CERT_DOMAIN := domainKey][CERT_HASH := sha(domainKey + Get(data, ORC8R_ROOT_CA))],
            data := data)
  }

  datatype CertStep = CertStep(store: Store, ok: bool)

  function ReconcileCerts(store: Store, r: MagmaOrc8r, sha: string -> string, o: Orc8rOracle): CertStep {
    if GetCerts in o.failing then CertStep(store, false)
    else if HasCerts(store, r) then CertStep(store, true)
    else if GenerateCerts in o.failing || WriteCerts in o.failing then CertStep(store, false)
    else CertStep(store[CertsKey(r) := WithCerts(ObjectOrBlank(store, CertsKey(r)), DomainKey(r.spec), o.newCerts, sha)], true)
  }

  // ----- Rolling the certificates out -----

  ghost function SecretHash(store: Store, r: MagmaOrc8r, sha: string -> string): string {
    if CertsKey(r) in store then sha(Canonical(store[CertsKey(r)].data)) else ""
  }

  predicate ReleaseDeployment(store: Store, r: MagmaOrc8r, k: ObjectKey) {
    k in store && k.kind.Deployment? && k.namespace == r.namespace && Carries(store[k].labels, map[LABEL_INSTANCE := OwnRelease(r)])
  }

  predicate CarriesHash(o: Object, hash: string) {
    Get(o.podAnnotations, SECRET_HASH) == hash
  }

  function Outdated(store: Store, r: MagmaOrc8r, hash: string): set<ObjectKey> {
    set k | k in store && ReleaseDeployment(store, r, k) && !CarriesHash(store[k], hash)
  }

  function PutHash(o: Object, hash: string): Object {
    o.(podAnnotations := o.podAnnotations[SECRET_HASH := hash], generation := o.generation + 1)
  }

  function PutHashes(store: Store, keys: set<ObjectKey>, hash: string): Store {
    map k | k in store :: if k in keys then PutHash(store[k], hash) else store[k]
  }

  /** An empty hash means that the Secret was not found, which is no error. */
  datatype RolloutStep = RolloutStep(store: Store, hash: string, ok: bool)

  ghost function RollOutCerts(store: Store, r: MagmaOrc8r, sha: string -> string, o: Orc8rOracle): RolloutStep {
    if GetSecret in o.failing then RolloutStep(store, "", false)
    else if CertsKey(r) !in store then RolloutStep(store, "", true)
    else
      var hash := SecretHash(store, r, sha);
      var outdated := Outdated(store, r, hash);
      if ListDeployments in o.failing then RolloutStep(store, "", false)
      else if Served(outdated, o.annotated) != outdated then RolloutStep(PutHashes(store, Served(outdated, o.annotated), hash), "", false)
      else RolloutStep(PutHashes(store, outdated, hash), hash, true)
  }

  // ----- Bootstrap Job -----

  function BootstrapKey(r: MagmaOrc8r): ObjectKey {
    JobKey(r.namespace, OwnRelease(r) + "-nms-admin")
  }

  predicate MustRecreate(job: Object, hash: string) {
    job.status.failed > 0 || (job.status.succeeded > 0 && Get(job.annotations, SECRET_HASH) != hash)
  }

  datatype BootstrapOutcome = BootstrapError | Recreated | Unchanged

  datatype BootstrapStep = BootstrapStep(store: Store, outcome: BootstrapOutcome)

  function ReconcileBootstrap(store: Store, r: MagmaOrc8r, hash: string, failing: set<Orc8rCall>): BootstrapStep {
    var key := BootstrapKey(r);
    if hash == "" then BootstrapStep(store, Unchanged)
    else if GetJob in failing then BootstrapStep(store, BootstrapError)
    else if key !in store then BootstrapStep(store, Unchanged)
    else if MustRecreate(store[key], hash) then
      if DeleteJob in failing then BootstrapStep(store, BootstrapError) else BootstrapStep(store - {key}, Recreated)
    else if Get(store[key].annotations, SECRET_HASH) == hash then BootstrapStep(store, Unchanged)
    else if PatchJob in failing then BootstrapStep(store, BootstrapError)
    else BootstrapStep(store[key := store[key].(annotations := store[key].annotations[SECRET_HASH := hash])], Unchanged)
  }

  // ----- HTTP node port -----

  function WebKey(r: MagmaOrc8r): ObjectKey {
    ObjectKey(Deployment, r.namespace, MAGMALTE)
  }

  /** The web Deployment is rewritten on every pass; one without containers is left alone. */
  function PatchMagmalte(store: Store, r: MagmaOrc8r, httpMode: string -> string, failing: set<Orc8rCall>): CertStep {
    if GetMagmalte in failing || WebKey(r) !in store then CertStep(store, false)
    else if Get(store[WebKey(r)].data, "image") == "" then CertStep(store, true)
    else if UpdateMagmalte in failing then CertStep(store, false)
    else
      var web := store[WebKey(r)];
      var body := httpMode(web.body);
      CertStep(store[WebKey(r) := web.(body := body, generation := if body == web.body then web.generation else web.generation + 1)], true)
  }

  // ----- Status -----

  datatype Orc8rWrite = Orc8rWrite(ready: bool, reason: Orc8rReason)

  datatype Orc8rOutcome = Orc8rOutcome(store: Store, write: Orc8rWrite)

  function Fails(store: Store, reason: Orc8rReason): Orc8rOutcome {
    Orc8rOutcome(store, Orc8rWrite(false, reason))
  }

  function NmsURL(spec: Orc8rSpec): string {
    if spec.nmsNodePort.None? then "http://<node-ip>:<magmalte-nodeport>/user/login"
    else "http://<node-ip>:" + ValidationKey.Decimal(spec.nmsNodePort.value) + "/user/login"
  }

  function WrittenStatus(r: MagmaOrc8r, write: Orc8rWrite): Orc8rStatus {
    Orc8rStatus(r.generation, OwnRelease(r), r.namespace, NmsURL(r.spec), write.ready, Some(write.reason), r.generation)
  }

  datatype Orc8rCommit = Orc8rCommit(cr: Option<MagmaOrc8r>, result: Result)

  function CommitOrc8r(live: Option<MagmaOrc8r>, r: MagmaOrc8r, write: Orc8rWrite, failing: set<Orc8rCall>): Orc8rCommit {
    if UpdateStatus in failing || live.None? then Orc8rCommit(live, ERROR)
    else if live.value.resourceVersion != r.resourceVersion then Orc8rCommit(live, Again(5))
    else
      Orc8rCommit(Some(live.value.(status := WrittenStatus(r, write), resourceVersion := live.value.resourceVersion + 1)),
                  if write.ready then DONE else Again(TWO_MINUTES))
  }

  /** A recreated bootstrap Job brings the pass back sooner. */
  function SoonAfter(c: Orc8rCommit, reason: Orc8rReason): Orc8rCommit {
    if reason.BootstrapJobRecreated? && !c.result.error then Orc8rCommit(c.cr, Again(10)) else c
  }

  // ----- The pass -----

  ghost function Orc8rObjects(r: MagmaOrc8r, values: StringMap, op: Orc8rOperator): seq<Desired> {
    ReleaseObjects(op.manifest, Orc8rTarget(r), values)
  }

  ghost function RolloutFlow(store: Store, r: MagmaOrc8r, op: Orc8rOperator, o: Orc8rOracle): Orc8rOutcome {
    var rolled := RollOutCerts(store, r, op.sha, o);
    if !rolled.ok then Fails(rolled.store, SecretRolloutFailed)
    else
      var boot := ReconcileBootstrap(rolled.store, r, rolled.hash, o.failing);
      if boot.outcome.BootstrapError? then Fails(boot.store, BootstrapJobFailed)
      else if boot.outcome.Recreated? then Fails(boot.store, BootstrapJobRecreated)
      else if r.spec.nmsNodePort.None? then Orc8rOutcome(boot.store, Orc8rWrite(true, ResourcesReady))
      else
        var web := PatchMagmalte(boot.store, r, op.httpMode, o.failing);
        if web.ok then Orc8rOutcome(web.store, Orc8rWrite(true, ResourcesReady)) else Fails(web.store, MagmaltePatchFailed)
  }

  ghost function Orc8rFlow(store: Store, r: MagmaOrc8r, op: Orc8rOperator, o: Orc8rOracle): Orc8rOutcome {
    var desired := Orc8rObjects(r, Orc8rValues(r.spec), op);
    var applied := ApplyUpTo(store, desired, Everything, o.immutable, o.applyStop);
    if !Completes(o.applyStop, |desired|) then Fails(applied, NativeFailed)
    else
      var certs := ReconcileCerts(applied, r, op.sha, o);
      if !certs.ok then Fails(certs.store, CertSecretFailed) else RolloutFlow(certs.store, r, op, o)
  }

  datatype Orc8rPassResult = Orc8rPassResult(cluster: Cluster, result: Result)

  function Finishes(store: Store, c: Orc8rCommit): Orc8rPassResult {
    Orc8rPassResult(Cluster(c.cr, store), c.result)
  }

  ghost function Orc8rDeletion(w: Cluster, r: MagmaOrc8r, live: Option<MagmaOrc8r>, op: Orc8rOperator, o: Orc8rOracle): Orc8rPassResult {
    var doomed := Orc8rObjects(r, map[], op);
    var left := Delete(w.objects, doomed[..Handled(o.deleteStop, |doomed|)]);
    if !Completes(o.deleteStop, |doomed|) then
      var c := CommitOrc8r(live, r, Orc8rWrite(false, DeleteFailed), o.failing);
      Finishes(left, if c.result.error then c else Orc8rCommit(c.cr, Again(30)))
    else if PatchFinalizer in o.failing || live.None? then Finishes(left, Orc8rCommit(live, ERROR))
    else
      var rest := r.finalizers - {ORC8R_FINALIZER};
      Finishes(left, Orc8rCommit(
        if rest == {} && live.value.deleting then None
        else Some(live.value.(finalizers := rest, resourceVersion := live.value.resourceVersion + 1)), DONE))
  }

  ghost function Orc8rPass(w: Cluster, op: Orc8rOperator, o: Orc8rOracle): Orc8rPassResult {
    if GetResource in o.failing then Orc8rPassResult(w.(cr := LiveOrc8r(w.cr, o)), ERROR)
    else if w.cr.None? then Orc8rPassResult(w, DONE)
    else
      var r, live := w.cr.value, LiveOrc8r(w.cr, o);
      if r.deleting then
        if ORC8R_FINALIZER !in r.finalizers then Orc8rPassResult(w.(cr := live), DONE)
        else Orc8rDeletion(w, r, live, op, o)
      else if ORC8R_FINALIZER !in r.finalizers then
        if PatchFinalizer in o.failing || live.None? || live.value.deleting then Finishes(w.objects, Orc8rCommit(live, ERROR))
        else
          Finishes(w.objects, Orc8rCommit(
            Some(live.value.(finalizers := r.finalizers + {ORC8R_FINALIZER}, resourceVersion := live.value.resourceVersion + 1)), Again(0)))
      else
        var out := Orc8rFlow(w.objects, r, op, o);
        Finishes(out.store, SoonAfter(CommitOrc8r(live, r, out.write, o.failing), out.write.reason))
  }
}
