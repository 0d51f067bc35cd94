/**
 One reconcile pass over a MagmaAGW, as a function of the cluster and of everything the pass
 meets.  Every exit after the finalizer step ends in one status write.
 */
module AgwPass {
  import opened GoMaps
  import opened Objects
  import opened Rendering
  import opened NativeRelease
  import opened AgwModel
  import opened AgwIdentity
  import opened AgwDatapath
  import opened AgwTrust
  import opened AgwRegistration
  import opened AgwValues
  import opened AgwValidation

  // ----- Identity -----

  function WithDetails(agw: Agw, id: Identity, registered: bool): Agw {
    agw.(status := agw.status.(identitySecretName := id.secretName, hardwareID := id.hardwareID,
                               challengePublicKeyHash := id.publicKeyHash, gatewayRegistered := registered))
  }

  function IdentityStage(l: Local, crypto: Crypto, o: Oracle): Stage<Identity> {
    var step := ReconcileIdentity(l.objects, l.agw, crypto, o);
    if step.identity.None? then
      Halt(l.(objects := step.store, agw := SetCondition(l.agw, ConditionType.IdentityReady, False, IdentityReconcileFailed)),
           NotReady(IdentityReconcileFailed, TWO_MINUTES))
    else
      var id := step.identity.value;
      Go(l.(objects := step.store,
            agw := SetCondition(WithDetails(l.agw, id, false), ConditionType.IdentityReady, True, Reason.IdentityReady)), id)
  }

  // ----- Datapath check -----

  datatype Gate = Gate(enabled: bool, ready: bool)

  function DatapathStage(l: Local, o: Oracle): Stage<Gate> {
    var dp, selector := l.agw.spec.datapath, NodeSelector(l.agw.spec);
    if !DatapathGateEnabled(dp) then Go(l, Gate(false, true))
    else if selector == map[] then Halt(l, NotReady(AGWNodeSelectorRequired, TWO_MINUTES))
    else
      match CheckNodes(l.nodes, l.objects, l.agw.namespace, selector, dp, o.failing)
      case CheckFailed =>
        Halt(l.(agw := SetCondition(l.agw, ConditionType.DatapathReady, False, DatapathReadinessCheckFailed)),
             NotReady(DatapathReadinessCheckFailed, TWO_MINUTES))
      case Prepared =>
        Go(l.(agw := SetCondition(l.agw, ConditionType.DatapathReady, True, Reason.DatapathReady)), Gate(true, true))
      case NotPrepared =>
        Go(l.(agw := SetCondition(l.agw, ConditionType.DatapathReady, False, WaitingForDatapathReady)), Gate(true, false))
  }

  // ----- Trust bundle -----

  function WithLifecycle(agw: Agw, ip: string, hash: string): Agw {
    agw.(status := agw.status.(orc8rServiceIP := ip, trustBundleHash := hash))
  }

  function TrustStage(l: Local, values: StringMap, crypto: Crypto, o: Oracle): Stage<Alias> {
    var alias := HostAlias(l.objects, l.agw.spec, values, o.failing);
    if alias.AliasFailed? then
      Halt(l.(agw := SetCondition(WithLifecycle(l.agw, "", ""), ConditionType.TrustBundleSynced, False, Orc8rServiceDiscoveryFailed)),
           NotReady(Orc8rServiceDiscoveryFailed, TWO_MINUTES))
    else
      var step := ReconcileTrustBundle(l.objects, l.agw, WithAlias(values, alias), crypto, o.failing);
      var agw := WithLifecycle(l.agw, if alias.Alias? then alias.ip else "", step.hash);
      match step.verdict
      case Failed(reason) =>
        Halt(l.(objects := step.store, agw := SetCondition(agw, ConditionType.TrustBundleSynced, False, reason)), NotReady(reason, TWO_MINUTES))
      case NotSynced(reason) =>
        Halt(l.(objects := step.store, agw := SetCondition(agw, ConditionType.TrustBundleSynced, False, reason)), NotReady(reason, 20))
      case Synced =>
        Go(l.(objects := step.store, agw := SetCondition(agw, ConditionType.TrustBundleSynced, True, Reason.TrustBundleSynced)), alias)
  }

  // ----- Registration -----

  function RegistrationStage(l: Local, id: Identity, crypto: Crypto, o: Oracle): Stage<bool> {
    var step := ReconcileRegistration(l.objects, l.agw, id, crypto, o.failing);
    match step.verdict
    case RegistrationFailed(reason) =>
      Halt(l.(objects := step.store, agw := SetCondition(l.agw, ConditionType.GatewayRegistered, False, reason)), NotReady(reason, TWO_MINUTES))
    case NotRegistered(reason) =>
      Halt(l.(objects := step.store, agw := SetCondition(WithDetails(l.agw, id, false), ConditionType.GatewayRegistered, False, reason)),
           NotReady(reason, 20))
    case Registered =>
      Go(l.(objects := step.store,
            agw := SetCondition(WithDetails(l.agw, id, true), ConditionType.GatewayRegistered, True, Reason.GatewayRegistered)), true)
    case Disabled =>
      Go(l.(objects := step.store,
            agw := SetCondition(WithDetails(l.agw, id, false), ConditionType.GatewayRegistered, False, GatewayRegistrationDisabled)), false)
  }

  // ----- Simulator gate -----

  function GateKey(agw: Agw): ObjectKey {
    ObjectKey(ConfigMap, agw.namespace, OrDefault(agw.spec.ueransimReadyConfigMap, ReleaseName(agw) + "-ueransim-ready"))
  }

  predicate GateOpen(store: Store, agw: Agw) {
    GateKey(agw) in store && EqualFold(Get(store[GateKey(agw)].data, "ready"), "true")
  }

  function StartPolicy(spec: Spec): string {
    OrDefault(spec.ueransimStartPolicy, "AfterAGWReady")
  }

  datatype Simulator = Off | On | Pending

  function SimulatorStage(l: Local, o: Oracle): Stage<Simulator> {
    var spec := l.agw.spec;
    if !spec.enableUERANSIM then Go(l, Off)
    else if StartPolicy(spec) == "Immediate" then Go(l, On)
    else if StartPolicy(spec) == "AfterAGWReady" then
      if GateGet in o.failing then Halt(l, NotReady(UERANSIMGateReadFailed, TWO_MINUTES))
      else Go(l, if GateOpen(l.objects, l.agw) then On else Simulator.Pending)
    else Halt(l, NotReady(InvalidUERANSIMStartPolicy, TWO_MINUTES))
  }

  // ----- Native apply, rollout annotations, stale pods -----

  function AgwTarget(agw: Agw): Target {
    Target(ReleaseName(agw), agw.namespace)
  }

  function SimulatorFilter(simulator: Simulator): Filter {
    if simulator.On? then Everything else WithoutSimulator
  }

  /** Core Deployments of the release that do not carry the root CA hash yet. */
  function Unannotated(store: Store, agw: Agw, hash: string): set<ObjectKey> {
    set k | k in store && k.kind.Deployment? && k.namespace == agw.namespace
      && Carries(store[k].labels, ReleaseLabels(agw)) && !Contains(ToLower(k.name), "ueransim")
      && Get(store[k].podAnnotations, ROOT_CA_HASH) != hash
  }

  function Annotate(o: Object, hash: string): Object {
    o.(podAnnotations := o.podAnnotations[ROOT_CA_HASH := hash], generation := o.generation + 1)
  }

  function AnnotateAll(store: Store, keys: set<ObjectKey>, hash: string): Store {
    map k | k in store :: if k in keys then Annotate(store[k], hash) else store[k]
  }

  function StalePods(store: Store, agw: Agw): set<ObjectKey> {
    set k | k in store && k.kind.Pod? && k.namespace == agw.namespace
      && Carries(store[k].labels, ReleaseLabels(agw)) && store[k].status.reason == "NodeAffinity"
  }

  /** The objects a pass applies. */
  ghost function AgwObjects(agw: Agw, values: StringMap, op: Operator): seq<Desired> {
    ReleaseObjects(op.manifest, AgwTarget(agw), values)
  }

  ghost function ApplyStage(l: Local, desired: seq<Desired>, simulator: Simulator, o: Oracle): Stage<()> {
    var l1 := l.(agw := RemoveCondition(l.agw, ConditionType.UERANSIMReady));
    var applied := ApplyUpTo(l.objects, desired, SimulatorFilter(simulator), o.immutable, o.applyStop);
    if !Completes(o.applyStop, |desired|) then Halt(l1.(objects := applied), NotReady(NativeReconcileFailed, TWO_MINUTES))
    else RolloutStage(l1.(objects := applied), o)
  }

  function RolloutStage(l: Local, o: Oracle): Stage<()> {
    var hash := l.agw.status.trustBundleHash;
    var targets := if hash == "" then {} else Unannotated(l.objects, l.agw, hash);
    if hash != "" && DeploymentList in o.failing then Halt(l, NotReady(RootCARolloutAnnotationFailed, TWO_MINUTES))
    else
      var l1 := l.(objects := AnnotateAll(l.objects, Served(targets, o.annotated), hash));
      if Served(targets, o.annotated) != targets then Halt(l1, NotReady(RootCARolloutAnnotationFailed, TWO_MINUTES))
      else
        var stale := StalePods(l1.objects, l1.agw);
        if PodList in o.failing then Halt(l1, NotReady(StalePodCleanupFailed, TWO_MINUTES))
        else
          var l2 := l1.(objects := l1.objects - Served(stale, o.podsDeleted));
          if Served(stale, o.podsDeleted) != stale then Halt(l2, NotReady(StalePodCleanupFailed, TWO_MINUTES)) else Go(l2, ())
  }

  // ----- Node labels -----

  function LabelStage(l: Local, gate: Gate, o: Oracle): Stage<()> {
    if !gate.enabled || gate.ready then Go(l, ())
    else
      var step := ReconcileLabels(l.nodes, l.objects, l.agw.namespace, NodeSelector(l.agw.spec), l.agw.spec.datapath, o);
      var l1 := l.(nodes := step.nodes);
      match step.outcome
      case LabelFailed => Halt(l1, NotReady(DatapathLabelReconcileFailed, TWO_MINUTES))
      case NowReady => Halt(l1, NotReady(Reason.DatapathReady, 5))
      case StillWaiting => Halt(l1, NotReady(WaitingForDatapathReady, TWO_MINUTES))
  }

  // ----- Validation and the final write -----

  function WithValidation(agw: Agw, verdict: ValidationVerdict): Agw {
    match verdict
    case Disabled => RemoveCondition(agw, ConditionType.UERANSIMValidated)
    case Skipped => agw
    case Passed => SetCondition(agw, ConditionType.UERANSIMValidated, True, Reason.UERANSIMValidated)
    case RunFailed => SetCondition(agw, ConditionType.UERANSIMValidated, False, UERANSIMValidationFailed)
    case Pending => SetCondition(agw, ConditionType.UERANSIMValidated, Unknown, UERANSIMValidationPending)
    case ValidationError => SetCondition(agw, ConditionType.UERANSIMValidated, False, UERANSIMValidationError)
  }

  predicate ValidationDone(verdict: ValidationVerdict) {
    verdict.Disabled? || verdict.Skipped? || verdict.Passed? || verdict.RunFailed?
  }

  datatype Outcome = Outcome(local: Local, write: Write)

  function FinishStage(l: Local, simulator: Simulator, crypto: Crypto, o: Oracle): Outcome {
    if simulator.Pending? then Outcome(l, NotReady(WaitingForUERANSIMGate, TWO_MINUTES))
    else
      var step := ReconcileValidation(l.objects, l.agw, crypto, o);
      Outcome(l.(objects := step.store, agw := WithValidation(l.agw, step.verdict)),
              Write(True, NativeResourcesReady, if ValidationDone(step.verdict) then None else Some(15)))
  }

  // ----- The flow between the finalizer and the status write -----

  ghost function ApplyFlow(l: Local, gate: Gate, simulator: Simulator, desired: seq<Desired>, crypto: Crypto, o: Oracle): Outcome {
    match ApplyStage(l, desired, simulator, o)
    case Halt(m, w) => Outcome(m, w)
    case Go(m, _) =>
      match LabelStage(m, gate, o)
      case Halt(n, w) => Outcome(n, w)
      case Go(n, _) => FinishStage(n, simulator, crypto, o)
  }

  ghost function TrustFlow(l: Local, id: Identity, gate: Gate, op: Operator, o: Oracle): Outcome {
    match TrustStage(l, PassValues(l.agw, id), op.crypto, o)
    case Halt(m, w) => Outcome(m, w)
    case Go(m, alias) =>
      match RegistrationStage(m, id, op.crypto, o)
      case Halt(n, w) => Outcome(n, w)
      case Go(n, _) =>
        match SimulatorStage(n, o)
        case Halt(p, w) => Outcome(p, w)
        case Go(p, simulator) =>
          ApplyFlow(p, gate, simulator, AgwObjects(l.agw, FinalValues(l.agw, id, alias, simulator.On?), op), op.crypto, o)
  }

  ghost function MainFlow(l: Local, op: Operator, o: Oracle): Outcome {
    match IdentityStage(l, op.crypto, o)
    case Halt(m, w) => Outcome(m, w)
    case Go(m, id) =>
      match DatapathStage(m, o)
      case Halt(n, w) => Outcome(n, w)
      case Go(n, gate) => TrustFlow(n, id, gate, op, o)
  }

  // ----- Writing the status -----

  function FinalStatus(agw: Agw, write: Write): AgwStatus {
    SetCondition(agw, ConditionType.Ready, write.status, write.reason).status.(
      observedGeneration := agw.generation, releaseName := ReleaseName(agw), releaseNamespace := agw.namespace)
  }

  datatype Commit = Commit(cr: Option<Agw>, result: Result)

  /** A status update succeeds only on the version of the resource that the pass has read. */
  function CommitStatus(live: Option<Agw>, agw: Agw, write: Write, failing: set<Call>): Commit {
    if StatusUpdate in failing || live.None? then Commit(live, ERROR)
    else if live.value.resourceVersion != agw.resourceVersion then Commit(live, Again(5))
    else
      Commit(Some(live.value.(status := FinalStatus(agw, write), resourceVersion := live.value.resourceVersion + 1)),
             Result(false, write.requeueAfter))
  }

  // ----- Deletion -----

  function RemoveFinalizer(live: Option<Agw>, agw: Agw, failing: set<Call>): Commit {
    if FinalizerPatch in failing || live.None? then Commit(live, ERROR)
    else
      var left := agw.finalizers - {FINALIZER};
      Commit(if left == {} && live.value.deleting then None
             else Some(live.value.(finalizers := left, resourceVersion := live.value.resourceVersion + 1)),
             DONE)
  }

  /** A deletion step that could not finish: report it, unless the report itself fails, and retry. */
  function DeletionRetry(live: Option<Agw>, agw: Agw, reason: Reason, failing: set<Call>, seconds: nat): Commit {
    var c := CommitStatus(live, agw, NotReady(reason, TWO_MINUTES), failing);
    if c.result.error then c else Commit(c.cr, Again(seconds))
  }

  /** Opt-in deletion of the volume claim and the identity Secret. */
  datatype Cleanup = Cleanup(store: Store, ok: bool)

  function CleanupDurable(store: Store, agw: Agw, failing: set<Call>): Cleanup {
    if agw.spec.deletionPolicy.deletePVC && PvcDelete in failing then Cleanup(store, false)
    else
      var s1 := if agw.spec.deletionPolicy.deletePVC then store - {PvcKey(agw)} else store;
      if agw.spec.deletionPolicy.deleteIdentitySecret && IdentityDelete in failing then Cleanup(s1, false)
      else Cleanup(if agw.spec.deletionPolicy.deleteIdentitySecret then s1 - {IdentityKey(agw)} else s1, true)
  }

  datatype PassResult = PassResult(world: World, result: Result)

  function Ends(objects: Store, nodes: seq<Node>, c: Commit): PassResult {
    PassResult(World(c.cr, objects, nodes), c.result)
  }

  ghost function DeletionPass(w: World, agw: Agw, live: Option<Agw>, op: Operator, o: Oracle): PassResult {
    var dereg := ReconcileDeregistration(w.objects, agw, o.failing);
    match dereg.verdict
    case DeregistrationFailed => Ends(dereg.store, w.nodes, DeletionRetry(live, agw, GatewayDeregistrationBlocked, o.failing, 30))
    case NotDeregistered => Ends(dereg.store, w.nodes, DeletionRetry(live, agw, GatewayDeregistrationPending, o.failing, 20))
    case Deregistered =>
      var doomed := AgwObjects(agw, map[], op);
      var left := Delete(dereg.store, doomed[..Handled(o.deleteStop, |doomed|)]);
      if !Completes(o.deleteStop, |doomed|) then Ends(left, w.nodes, DeletionRetry(live, agw, NativeDeleteFailed, o.failing, 30))
      else DeletionCleanup(left, w.nodes, agw, live, o)
  }

  function DeletionCleanup(store: Store, nodes: seq<Node>, agw: Agw, live: Option<Agw>, o: Oracle): PassResult {
    var selector, key := NodeSelector(agw.spec), ReadyLabelKey(agw.spec.datapath);
    if selector != map[] && CleanupNodeList in o.failing then Ends(store, nodes, Commit(live, ERROR))
    else
      var unlabelled := if selector != map[] then UnlabelUpTo(nodes, selector, key, o.unlabelStop) else nodes;
      if selector != map[] && !UnlabelCompletes(nodes, selector, key, o.unlabelStop) then Ends(store, unlabelled, Commit(live, ERROR))
      else
        var c := CleanupDurable(store, agw, o.failing);
        if !c.ok then Ends(c.store, unlabelled, Commit(live, ERROR))
        else Ends(c.store, unlabelled, RemoveFinalizer(live, agw, o.failing))
  }

  // ----- The pass -----

  /** Adding the finalizer is refused once the resource is being deleted. */
  function AddFinalizer(live: Option<Agw>, agw: Agw, failing: set<Call>): Commit {
    if FinalizerPatch in failing || live.None? || live.value.deleting then Commit(live, ERROR)
    else Commit(Some(live.value.(finalizers := agw.finalizers + {FINALIZER}, resourceVersion := live.value.resourceVersion + 1)), Again(0))
  }

  ghost function Pass(w: World, op: Operator, o: Oracle): PassResult {
    if ResourceGet in o.failing then PassResult(w.(cr := Live(w.cr, o)), ERROR)
    else if w.cr.None? then PassResult(w, DONE)
    else
      var agw, live := w.cr.value, Live(w.cr, o);
      if agw.deleting then
        if FINALIZER !in agw.finalizers then PassResult(w.(cr := live), DONE)
        else DeletionPass(w, agw, live, op, o)
      else if FINALIZER !in agw.finalizers then Ends(w.objects, w.nodes, AddFinalizer(live, agw, o.failing))
      else
        var out := MainFlow(Local(w.objects, w.nodes, agw), op, o);
        Ends(out.local.objects, out.local.nodes, CommitStatus(live, out.local.agw, out.write, o.failing))
  }
}
