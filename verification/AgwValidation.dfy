/** The one-shot UERANSIM validation: roll out, wait, run one Job, report. */
module AgwValidation {
  import opened GoMaps
  import opened Objects
  import opened AgwModel
  import HashedJob
  import ValidationKey

  const VALIDATION_HASH := "magma.infra.don/ueransim-validation-hash"
  const ROLLOUT_HASH := "magma.infra.don/ueransim-validation-rollout-hash"

  function ValidationJobKey(agw: Agw): ObjectKey {
    JobKey(agw.namespace, ReleaseName(agw) + "-ueransim-validation")
  }

  function ValidationFields(agw: Agw): ValidationKey.Fields {
    var v := agw.spec.validation;
    ValidationKey.Fields(ReleaseName(agw), v.trigger, v.ueDeploymentName, v.pingHost, v.iperfPort, v.timeoutSeconds, v.iperfServer)
  }

  function ValidationHashOf(agw: Agw, crypto: Crypto): string {
    crypto.sha(ValidationKey.Encode(ValidationFields(agw)))
  }

  function GnbKey(agw: Agw): ObjectKey {
    ObjectKey(Deployment, agw.namespace, ReleaseName(agw) + "-ueransim-gnb")
  }

  function UeKey(agw: Agw): ObjectKey {
    ObjectKey(Deployment, agw.namespace, ReleaseName(agw) + "-ueransim-ue")
  }

  function ReleaseLabels(agw: Agw): StringMap {
    map[LABEL_INSTANCE := ReleaseName(agw), LABEL_NAME := AGW_APP_NAME]
  }

  /** Listed among the release's Deployments. */
  predicate Listed(store: Store, agw: Agw, key: ObjectKey) {
    key in store && Carries(store[key].labels, ReleaseLabels(agw))
  }

  predicate RolledOut(o: Object, hash: string) {
    Get(o.podAnnotations, ROLLOUT_HASH) == hash
  }

  /** Observed by its controller, with enough ready and available replicas. */
  predicate DeploymentReady(o: Object) {
    var desired := if o.replicas.Some? then o.replicas.value else 1;
    o.status.observedGeneration >= o.generation && o.status.ready >= desired && o.status.available >= desired
  }

  /** Changing the pod template starts a new generation. */
  function RollOut(o: Object, hash: string): Object {
    o.(podAnnotations := o.podAnnotations[ROLLOUT_HASH := hash], generation := o.generation + 1)
  }

  /** The two simulator Deployments that are listed and not yet rolled out for the hash. */
  function Unrolled(store: Store, agw: Agw, hash: string): set<ObjectKey> {
    set k | k in {GnbKey(agw), UeKey(agw)} && Listed(store, agw, k) && !RolledOut(store[k], hash)
  }

  function RollOutAll(store: Store, keys: set<ObjectKey>, hash: string): Store {
    map k | k in store :: if k in keys then RollOut(store[k], hash) else store[k]
  }

  predicate RunningUePod(store: Store, agw: Agw, key: ObjectKey) {
    && key in store && key.kind.Pod? && key.namespace == agw.namespace
    && Carries(store[key].labels, map[LABEL_INSTANCE := ReleaseName(agw), LABEL_COMPONENT := "ueransim-ue"])
    && store[key].status.phase == "Running"
  }

  predicate HasUePod(store: Store, agw: Agw) {
    exists k :: k in store && RunningUePod(store, agw, k)
  }

  // ----- What the validation Job runs as; shared by the gateways of a namespace, and never deleted -----

  const VALIDATION_ACCOUNT := "magma-operator-ueransim-validation"
  const VALIDATION_COMPONENT := "ueransim-validation"

  function AccountKey(namespace: string): ObjectKey {
    ObjectKey(OtherKind("ServiceAccount"), namespace, VALIDATION_ACCOUNT)
  }

  function RoleKey(namespace: string): ObjectKey {
    ObjectKey(OtherKind("Role"), namespace, VALIDATION_ACCOUNT)
  }

  function BindingKey(namespace: string): ObjectKey {
    ObjectKey(OtherKind("RoleBinding"), namespace, VALIDATION_ACCOUNT)
  }

  predicate RbacKey(namespace: string, k: ObjectKey) {
    k == AccountKey(namespace) || k == RoleKey(namespace) || k == BindingKey(namespace)
  }

  datatype RbacStep = RbacStep(store: Store, ok: bool)

  /** The rules of the role and the ends of the binding are fixed texts. */
  function ReconcileRbac(store: Store, namespace: string, failing: set<Call>): RbacStep {
    if ValidationAccountWrite in failing then RbacStep(store, false)
    else
      var account := ObjectOrBlank(store, AccountKey(namespace));
      var labels := account.labels[LABEL_MANAGED_BY := MANAGED_BY_OPERATOR][LABEL_COMPONENT := VALIDATION_COMPONENT];
      var s1 := store[AccountKey(namespace) := account.(labels := labels)];
      if ValidationRoleWrite in failing then RbacStep(s1, false)
      else
        var s2 := s1[RoleKey(namespace) := ObjectOrBlank(s1, RoleKey(namespace)).(body := "role")];
        if ValidationBindingWrite in failing then RbacStep(s2, false)
        else RbacStep(s2[BindingKey(namespace) := ObjectOrBlank(s2, BindingKey(namespace)).(body := "binding")], true)
  }

  lemma RbacTouches(store: Store, namespace: string, failing: set<Call>, k: ObjectKey)
    requires !RbacKey(namespace, k)
    ensures var b := ReconcileRbac(store, namespace, failing).store;
      (k in store <==> k in b) && (k in store ==> b[k] == store[k])
  {
  }

  datatype ValidationStep = ValidationStep(store: Store, verdict: ValidationVerdict)

  datatype ValidationVerdict = Disabled | Skipped | Passed | RunFailed | Pending | ValidationError

  function ReconcileValidation(store: Store, agw: Agw, crypto: Crypto, o: Oracle): ValidationStep {
    if !ValidationEnabled(agw.spec.validation) then ValidationStep(store, Disabled)
    else if !agw.spec.enableUERANSIM then ValidationStep(store, Skipped)
    else
      var rbac := ReconcileRbac(store, agw.namespace, o.failing);
      if !rbac.ok || ValidationJobGet in o.failing then ValidationStep(rbac.store, ValidationError)
      else ReconcileValidationJob(rbac.store, agw, ValidationHashOf(agw, crypto), o)
  }

  function ReconcileValidationJob(store: Store, agw: Agw, hash: string, o: Oracle): ValidationStep {
    match HashedJob.Inspect(store, ValidationJobKey(agw), VALIDATION_HASH, hash)
    case Stale =>
      if ValidationJobDelete in o.failing then ValidationStep(store, ValidationError)
      else ValidationStep(store - {ValidationJobKey(agw)}, Pending)
    case Succeeded => ValidationStep(store, Passed)
    case Failed => ValidationStep(store, RunFailed)
    case Running => ValidationStep(store, Pending)
    case Missing => StartValidation(store, agw, hash, o)
  }

  /** No Job yet: roll both Deployments out, wait until they are ready, then create the Job. */
  function StartValidation(store: Store, agw: Agw, hash: string, o: Oracle): ValidationStep {
    var unrolled := Unrolled(store, agw, hash);
    if RolloutList in o.failing then ValidationStep(store, ValidationError)
    else if Served(unrolled, o.rolledOut) != unrolled then
      ValidationStep(RollOutAll(store, Served(unrolled, o.rolledOut), hash), ValidationError)
    else if !Listed(store, agw, GnbKey(agw)) || !Listed(store, agw, UeKey(agw)) || unrolled != {} then
      ValidationStep(RollOutAll(store, unrolled, hash), Pending)
    else if ReadinessList in o.failing then ValidationStep(store, ValidationError)
    else if !DeploymentReady(store[GnbKey(agw)]) || !DeploymentReady(store[UeKey(agw)]) then ValidationStep(store, Pending)
    else if UePodList in o.failing then ValidationStep(store, ValidationError)
    else if !HasUePod(store, agw) then ValidationStep(store, Pending)
    else if ValidationJobCreate in o.failing then ValidationStep(store, ValidationError)
    else ValidationStep(store[ValidationJobKey(agw) := HashedJob.NewJob(VALIDATION_HASH, hash, "validate")], Pending)
  }

  /** If no request fails, the three objects are there, labelled and bound. */
  lemma RbacThere(store: Store, namespace: string, failing: set<Call>)
    requires ReconcileRbac(store, namespace, failing).ok
    ensures var b := ReconcileRbac(store, namespace, failing).store;
      && AccountKey(namespace) in b && RoleKey(namespace) in b && BindingKey(namespace) in b
      && Get(b[AccountKey(namespace)].labels, "app.kubernetes.io/managed-by") == "magma-operator"
      && Get(b[AccountKey(namespace)].labels, "app.kubernetes.io/component") == "ueransim-validation"
      && b[RoleKey(namespace)].body == "role" && b[BindingKey(namespace)].body == "binding"
      && (AccountKey(namespace) in store ==> b[AccountKey(namespace)] == store[AccountKey(namespace)].(labels := b[AccountKey(namespace)].labels))
  {
    assert |LABEL_MANAGED_BY| == 28 && |LABEL_COMPONENT| == 27;
    assert |"ServiceAccount"| == 14 && |"Role"| == 4 && |"RoleBinding"| == 11;
  }
}
