/** The MagmaAGW resource, the cluster around it, and what can happen during one reconcile pass. */
module AgwModel {
  import opened GoMaps
  import opened Objects
  import opened NativeRelease
  import HardwareId

  // ----- The resource -----

  datatype IdentitySpec = IdentitySpec(
    secretName: string, importSecretName: string, importSecretKey: string,
    hardwareID: string, rotationPolicy: string)

  datatype RegistrationSpec = RegistrationSpec(
    enabled: Option<bool>, deleteOnRemoval: bool, name: string, description: string, tier: string)

  datatype DeletionPolicySpec = DeletionPolicySpec(deletePVC: bool, deleteIdentitySecret: bool)

  datatype ValidationSpec = ValidationSpec(
    enabled: Option<bool>, trigger: string, ueDeploymentName: string, pingHost: string,
    iperfServer: string, iperfPort: Int32, timeoutSeconds: Int32)

  datatype DatapathSpec = DatapathSpec(
    enabled: Option<bool>, readyLabelKey: string, readyLabelValue: string,
    requireMagmaOvsKmod: bool, ovsKmodUpgradePath: string)

  datatype Spec = Spec(
    releaseName: string, accessGatewayID: string, networkID: string,
    orc8rNamespace: string, orc8rReleaseName: string, nmsAPIHost: string, nmsAdminCertSecretName: string,
    identity: IdentitySpec, registration: RegistrationSpec, deletionPolicy: DeletionPolicySpec,
    agwNodeSelector: StringMap, agwNodeLabelSelector: StringMap,
    enableUERANSIM: bool, ueransimStartPolicy: string, ueransimReadyConfigMap: string,
    ueransimNodeSelector: StringMap, validation: ValidationSpec,
    s1Interface: string, sgiInterface: string, datapath: DatapathSpec, values: StringMap)

  datatype ConditionType =
    | Ready | IdentityReady | DatapathReady | TrustBundleSynced | GatewayRegistered
    | UERANSIMReady | UERANSIMValidated

  datatype ConditionStatus = True | False | Unknown

  datatype Reason =
    | IdentityReconcileFailed | IdentityReady
    | AGWNodeSelectorRequired | DatapathReadinessCheckFailed | DatapathReady | WaitingForDatapathReady
    | DatapathLabelReconcileFailed
    | Orc8rServiceDiscoveryFailed | WaitingForOrc8rCertSecret | Orc8rCertSecretReadFailed | Orc8rRootCAMissing
    | AGWCertSecretSyncFailed | AGWPVCReadFailed | TrustBundleSynced
    | RootCASyncJobDeleteFailed | RootCASyncJobReplacing | RootCASyncJobFailed | RootCASyncJobRunning
    | RootCASyncJobReadFailed | RootCASyncJobCreateFailed | RootCASyncJobCreated
    | GatewayRegistrationDisabled | NetworkIDRequired | AccessGatewayIDRequired
    | WaitingForNMSCertSecret | NMSCertSecretReadFailed | WaitingForMagmalte | MagmalteReadFailed
    | MagmalteImageUnavailable | GatewayPayloadInvalid | GatewayRegistered
    | GatewayRegistrationJobDeleteFailed | GatewayRegistrationJobReplacing | GatewayRegistrationJobFailed
    | GatewayRegistrationJobRunning | GatewayRegistrationJobReadFailed | GatewayRegistrationJobCreateFailed
    | GatewayRegistrationJobCreated
    | UERANSIMGateReadFailed | InvalidUERANSIMStartPolicy | WaitingForUERANSIMGate
    | NativeReconcileFailed | RootCARolloutAnnotationFailed | StalePodCleanupFailed | NativeResourcesReady
    | UERANSIMValidated | UERANSIMValidationFailed | UERANSIMValidationPending | UERANSIMValidationError
    | GatewayDeregistrationBlocked | GatewayDeregistrationPending | NativeDeleteFailed

  datatype Condition = Condition(status: ConditionStatus, reason: Reason, observedGeneration: nat)

  datatype AgwStatus = AgwStatus(
    observedGeneration: nat, releaseName: string, releaseNamespace: string,
    identitySecretName: string, hardwareID: string, challengePublicKeyHash: string,
    gatewayRegistered: bool, orc8rServiceIP: string, trustBundleHash: string,
    conditions: map<ConditionType, Condition>)

  datatype Agw = Agw(
    name: string, namespace: string, generation: nat, resourceVersion: nat,
    deleting: bool, finalizers: set<string>, spec: Spec, status: AgwStatus)

  const FINALIZER := "magma.infra.don/magmaagw-finalizer"

  function ReleaseName(agw: Agw): string {
    OrDefault(agw.spec.releaseName, agw.name)
  }

  function Orc8rNamespace(spec: Spec): string {
    OrDefault(spec.orc8rNamespace, "magma")
  }

  function Orc8rReleaseName(spec: Spec): string {
    OrDefault(spec.orc8rReleaseName, "magma-fullstack")
  }

  function NmsCertSecretName(spec: Spec): string {
    OrDefault(spec.nmsAdminCertSecretName, "orc8r-secrets-certs")
  }

  function IdentitySecretName(spec: Spec): string {
    OrDefault(spec.identity.secretName, "agw-bootstrap-challenge-key")
  }

  predicate RegistrationEnabled(spec: RegistrationSpec) {
    spec.enabled.None? || spec.enabled.value
  }

  predicate DatapathGateEnabled(spec: DatapathSpec) {
    spec.enabled.None? || spec.enabled.value
  }

  predicate ValidationEnabled(spec: ValidationSpec) {
    spec.enabled.Some? && spec.enabled.value
  }

  function ReadyLabelKey(spec: DatapathSpec): string {
    OrDefault(spec.readyLabelKey, "magma.io/agw-datapath-ready")
  }

  function ReadyLabelValue(spec: DatapathSpec): string {
    OrDefault(spec.readyLabelValue, "true")
  }

  /** Later selectors win where both name a key. */
  function NodeSelector(spec: Spec): StringMap {
    spec.agwNodeSelector + spec.agwNodeLabelSelector
  }

  function SetCondition(agw: Agw, t: ConditionType, status: ConditionStatus, reason: Reason): Agw {
    agw.(status := agw.status.(conditions := agw.status.conditions[t := Condition(status, reason, agw.generation)]))
  }

  function RemoveCondition(agw: Agw, t: ConditionType): Agw {
    agw.(status := agw.status.(conditions := agw.status.conditions - {t}))
  }

  predicate ConditionIs(status: AgwStatus, t: ConditionType, s: ConditionStatus) {
    t in status.conditions && status.conditions[t].status == s
  }

  // ----- The cluster -----

  datatype World = World(cr: Option<Agw>, objects: Store, nodes: seq<Node>)

  // ----- Code the operator calls but this model does not look into -----

  datatype Payload = Payload(id: string, name: string, description: string, tier: string, hardwareId: string, publicKey: string)

  /** Hashing, key parsing and encoding, as deterministic functions. */
  datatype Crypto = Crypto(
    sha: string -> string,
    normalizeKey: string -> Option<string>,
    publicKey: string -> Option<string>,
    base64: string -> string,
    unbase64: string -> Option<string>,
    json: Payload -> Option<string>)

  /** What is fixed for one operator: its embedded manifest and its crypto functions. */
  datatype Operator = Operator(manifest: Manifest, crypto: Crypto)

  // ----- What one pass meets -----

  /** API calls that may fail with an error other than "not found". */
  datatype Call =
    | ResourceGet | FinalizerPatch | StatusUpdate
    | ImportGet | KeyGeneration | IdentityWrite | IdentityGet
    | NodeList | PrepGet
    | ServiceGet | Orc8rSecretGet | CertSecretWrite | PvcGet
    | RootCAJobGet | RootCAJobDelete | RootCAJobCreate
    | NmsSecretGet | MagmalteGet | RegistrationJobGet | RegistrationJobDelete | RegistrationJobCreate
    | GateGet
    | DeploymentList | PodList | LabelNodeList | LabelPrepGet
    | ValidationAccountWrite | ValidationRoleWrite | ValidationBindingWrite | ValidationJobGet | ValidationJobDelete | RolloutList | ReadinessList | UePodList | ValidationJobCreate
    | DeregistrationJobGet | DeregistrationJobCreate | CleanupNodeList | PvcDelete | IdentityDelete

  type Random = r: seq<HardwareId.Byte> | |r| == 16 witness seq(16, _ => 0)

  /**
   Everything outside the operator's control during one pass: failing calls, where list loops
   are interrupted, which objects are served before an interruption, fresh randomness, and the
   resource as it stands at the moment the pass writes it.
   */
  datatype Oracle = Oracle(
    failing: set<Call>,
    newKey: string, random: Random,
    applyStop: Stop, immutable: set<ObjectKey>, annotated: ObjectKey -> bool, podsDeleted: ObjectKey -> bool,
    labelStop: nat, rolledOut: ObjectKey -> bool,
    deleteStop: Stop, unlabelStop: nat,
    live: Option<Agw>)

  /**
   How the resource may change while the operator is not writing it: edits bump the resource
   version, edits of the specification and deletion requests also bump the generation, the
   status and the operator's finalizer belong to the operator, and the resource cannot vanish
   while it carries that finalizer.
   */
  predicate CrEvolves(a: Option<Agw>, b: Option<Agw>) {
    if a.None? then b.None?
    else if b.None? then FINALIZER !in a.value.finalizers
    else
      var x, y := a.value, b.value;
      && x.name == y.name && x.namespace == y.namespace && x.status == y.status
      && (x == y || x.resourceVersion < y.resourceVersion)
      && (if x.spec == y.spec && x.deleting == y.deleting then x.generation == y.generation else x.generation < y.generation)
      && (x.deleting ==> y.deleting)
      && (FINALIZER in x.finalizers <==> FINALIZER in y.finalizers)
  }

  /** The resource at the moment of the pass's write. */
  function Live(cr: Option<Agw>, o: Oracle): (live: Option<Agw>)
    ensures CrEvolves(cr, live)
  {
    if CrEvolves(cr, o.live) then o.live else cr
  }

  /** How a pass ends. */
  datatype Result = Result(error: bool, requeueAfter: Option<nat>)

  const DONE := Result(false, None)
  const ERROR := Result(true, None)

  function Again(seconds: nat): Result {
    Result(false, Some(seconds))
  }

  /** The status a pass wants to write. */
  datatype Write = Write(status: ConditionStatus, reason: Reason, requeueAfter: Option<nat>)

  function NotReady(reason: Reason, seconds: nat): Write {
    Write(False, reason, Some(seconds))
  }

  /** The pass's working copy: cluster contents and its own copy of the resource. */
  datatype Local = Local(objects: Store, nodes: seq<Node>, agw: Agw)

  datatype Stage<T> = Go(local: Local, value: T) | Halt(local: Local, write: Write)

  const TWO_MINUTES: nat := 120
}
