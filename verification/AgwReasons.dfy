/** A status that is not Ready never lies: every reason it names was true of the cluster that the pass saw, and decides when the pass comes back. */
module AgwReasons {
  import opened GoMaps
  import opened Objects
  import opened NativeRelease
  import opened AgwModel
  import opened AgwIdentity
  import opened AgwDatapath
  import opened AgwTrust
  import opened AgwRegistration
  import opened AgwValues
  import opened AgwValidation
  import opened AgwPass
  import opened AgwRuns
  import opened AgwReady
  import opened AgwHistory
  import opened AgwTrail
  import opened AgwFootprint
  import opened AgwFinalizer
  import opened AgwJobs
  import opened AgwCarried
  import opened AgwSimulator
  import opened AgwPrepared
  import opened AgwEvidence
  import HashedJob

  /** When the pass comes back, by the reason it has written. */
  function Seconds(reason: Reason): nat {
    match reason
    case WaitingForOrc8rCertSecret | Orc8rRootCAMissing => 20
    case RootCASyncJobFailed | RootCASyncJobRunning | RootCASyncJobReplacing | RootCASyncJobCreated => 20
    case WaitingForNMSCertSecret | WaitingForMagmalte | MagmalteImageUnavailable => 20
    case GatewayRegistrationJobRunning | GatewayRegistrationJobReplacing | GatewayRegistrationJobCreated => 20
    case DatapathReady => 5
    case _ => 120
  }

  // ----- The state of a hash-keyed Job -----

  predicate Matches(store: Store, k: ObjectKey, annotation: string, hash: string) {
    k in store && Get(store[k].annotations, annotation) == hash
  }

  predicate HasFailed(store: Store, k: ObjectKey, annotation: string, hash: string) {
    Matches(store, k, annotation, hash) && store[k].status.succeeded == 0 && store[k].status.failed > 0
  }

  predicate IsRunning(store: Store, k: ObjectKey, annotation: string, hash: string) {
    Matches(store, k, annotation, hash) && store[k].status.succeeded == 0 && store[k].status.failed == 0
  }

  /** It was for another hash, and the pass has deleted it. */
  predicate WasReplaced(before: Store, after: Store, k: ObjectKey, annotation: string, hash: string) {
    k in before && !Matches(before, k, annotation, hash) && k !in after
  }

  /** It was missing, and the pass has created it for this hash. */
  predicate WasCreated(before: Store, after: Store, k: ObjectKey, annotation: string, hash: string) {
    k !in before && Matches(after, k, annotation, hash)
  }

  lemma NewJobMatches(store: Store, k: ObjectKey, annotation: string, hash: string, body: string)
    ensures Matches(store[k := HashedJob.NewJob(annotation, hash, body)], k, annotation, hash)
  {
  }

  /** Each outcome of a visit to the Job is what has happened. */
  lemma VisitMeans(store: Store, k: ObjectKey, annotation: string, hash: string, body: string, faults: HashedJob.Faults)
    ensures var step := HashedJob.Advance(store, k, annotation, hash, body, faults);
      match step.outcome
      case Credited => Matches(store, k, annotation, hash) && store[k].status.succeeded > 0
      case Broken => HasFailed(store, k, annotation, hash)
      case Waiting => IsRunning(store, k, annotation, hash)
      case Replacing => WasReplaced(store, step.store, k, annotation, hash)
      case Created => WasCreated(store, step.store, k, annotation, hash)
      case ReadFailed => faults.get
      case DeleteFailed => faults.delete && k in store && !Matches(store, k, annotation, hash)
      case CreateFailed => faults.create && k !in store
  {
    NewJobMatches(store, k, annotation, hash, body);
  }

  // ----- The causes -----

  /** The names of the objects that the reasons are about. */
  function CertsOf(spec: Spec): ObjectKey {
    ObjectKey(Secret, OrDefault(spec.orc8rNamespace, "magma"), OrDefault(spec.nmsAdminCertSecretName, "orc8r-secrets-certs"))
  }

  function WebOf(spec: Spec): ObjectKey {
    ObjectKey(Deployment, OrDefault(spec.orc8rNamespace, "magma"), "nms-magmalte")
  }

  function RootJobOf(agw: Agw): ObjectKey {
    ObjectKey(Job, agw.namespace, OrDefault(agw.spec.releaseName, agw.name) + "-rootca-sync")
  }

  function RegisterJobOf(agw: Agw): ObjectKey {
    ObjectKey(Job, OrDefault(agw.spec.orc8rNamespace, "magma"), agw.name + "-register-gateway")
  }

  const ROOT_MARK := "magma.infra.don/rootca-sha256"
  const PAYLOAD_MARK := "magma.infra.don/payload-sha256"

  ghost function RootHash(seen: Store, agw: Agw, crypto: Crypto): string {
    if CertsOf(agw.spec) in seen then crypto.sha(Get(seen[CertsOf(agw.spec)].data, "rootCA.pem")) else ""
  }

  /** Why the trust bundle is not synchronised. */
  ghost predicate TrustCause(reason: Reason, seen: Store, after: Store, agw: Agw, crypto: Crypto, failing: set<Call>) {
    || (reason.Orc8rServiceDiscoveryFailed? && ServiceGet in failing)
    || (reason.Orc8rCertSecretReadFailed? && Orc8rSecretGet in failing)
    || (reason.WaitingForOrc8rCertSecret? && CertsOf(agw.spec) !in seen)
    || (reason.Orc8rRootCAMissing? && CertsOf(agw.spec) in seen && Get(seen[CertsOf(agw.spec)].data, "rootCA.pem") == "")
    || (reason.AGWCertSecretSyncFailed? && CertSecretWrite in failing)
    || (reason.AGWPVCReadFailed? && PvcGet in failing)
    || RootJobReport(reason, seen, after, RootJobOf(agw), RootHash(seen, agw, crypto), failing)
  }

  predicate RootJobReport(reason: Reason, seen: Store, after: Store, job: ObjectKey, hash: string, failing: set<Call>) {
    || (reason.RootCASyncJobFailed? && HasFailed(seen, job, ROOT_MARK, hash))
    || (reason.RootCASyncJobRunning? && IsRunning(seen, job, ROOT_MARK, hash))
    || (reason.RootCASyncJobReplacing? && WasReplaced(seen, after, job, ROOT_MARK, hash))
    || (reason.RootCASyncJobCreated? && WasCreated(seen, after, job, ROOT_MARK, hash))
    || (reason.RootCASyncJobReadFailed? && RootCAJobGet in failing)
    || (reason.RootCASyncJobDeleteFailed? && RootCAJobDelete in failing)
    || (reason.RootCASyncJobCreateFailed? && RootCAJobCreate in failing)
  }

  /** Why the gateway is not registered. */
  ghost predicate RegistrationCause(reason: Reason, seen: Store, after: Store, agw: Agw, id: Identity, crypto: Crypto, failing: set<Call>) {
    var payload := crypto.json(PayloadFor(agw.spec, id.hardwareID, id.publicKeyB64));
    && agw.spec.registration.enabled != Some(false)
    && (|| (reason.NetworkIDRequired? && agw.spec.networkID == "")
        || (reason.AccessGatewayIDRequired? && agw.spec.accessGatewayID == "")
        || (reason.NMSCertSecretReadFailed? && NmsSecretGet in failing)
        || (reason.WaitingForNMSCertSecret? && CertsOf(agw.spec) !in seen)
        || (reason.MagmalteReadFailed? && MagmalteGet in failing)
        || (reason.WaitingForMagmalte? && WebOf(agw.spec) !in seen)
        || (reason.MagmalteImageUnavailable? && WebOf(agw.spec) in seen && Get(seen[WebOf(agw.spec)].data, "image") == "")
        || (reason.GatewayPayloadInvalid? && payload.None?)
        || (payload.Some? && RegisterJobReport(reason, seen, after, RegisterJobOf(agw), crypto.sha(payload.value), failing)))
  }

  predicate RegisterJobReport(reason: Reason, seen: Store, after: Store, job: ObjectKey, hash: string, failing: set<Call>) {
    || (reason.GatewayRegistrationJobFailed? && HasFailed(seen, job, PAYLOAD_MARK, hash))
    || (reason.GatewayRegistrationJobRunning? && IsRunning(seen, job, PAYLOAD_MARK, hash))
    || (reason.GatewayRegistrationJobReplacing? && WasReplaced(seen, after, job, PAYLOAD_MARK, hash))
    || (reason.GatewayRegistrationJobCreated? && WasCreated(seen, after, job, PAYLOAD_MARK, hash))
    || (reason.GatewayRegistrationJobReadFailed? && RegistrationJobGet in failing)
    || (reason.GatewayRegistrationJobDeleteFailed? && RegistrationJobDelete in failing)
    || (reason.GatewayRegistrationJobCreateFailed? && RegistrationJobCreate in failing)
  }

  /** Why the apply, or what follows it, did not end in Ready. */
  ghost predicate ApplyCause(reason: Reason, spec: Spec, namespace: string, nodes: seq<Node>, after: Store, count: nat, o: Oracle) {
    || (reason.NativeReconcileFailed? && o.applyStop.Stop? && o.applyStop.at < count)
    || (reason.RootCARolloutAnnotationFailed? && (DeploymentList in o.failing || exists k :: !o.annotated(k)))
    || (reason.StalePodCleanupFailed? && (PodList in o.failing || exists k :: !o.podsDeleted(k)))
    || LabelReport(reason, spec, namespace, nodes, after, o)
  }

  ghost predicate LabelReport(reason: Reason, spec: Spec, namespace: string, nodes: seq<Node>, after: Store, o: Oracle) {
    && Gated(spec)
    && (|| (reason.DatapathLabelReconcileFailed? && (LabelNodeList in o.failing || LabelPrepGet in o.failing || o.labelStop < |nodes|))
        || (reason.DatapathReady? && EveryPrepPodReady(after, namespace))
        || (reason.WaitingForDatapathReady? &&
              (!EveryPrepPodReady(after, namespace) || !exists i :: 0 <= i < |nodes| && GatewayNode(nodes[i], spec))))
  }

  predicate Delays(write: Write) {
    write.status.False? && write.requeueAfter == Some(Seconds(write.reason))
  }

  // ----- Stage by stage -----

  lemma IdentityCause(l: Local, crypto: Crypto, o: Oracle)
    requires IdentityStage(l, crypto, o).Halt?
    ensures var s := IdentityStage(l, crypto, o);
      s.write.reason == IdentityReconcileFailed && Delays(s.write) && ReconcileIdentity(l.objects, l.agw, crypto, o).identity.None?
  {
    hide ReconcileIdentity;
  }

  lemma DatapathCause(l: Local, o: Oracle)
    requires DatapathStage(l, o).Halt?
    ensures var s := DatapathStage(l, o);
      && Delays(s.write) && Gated(l.agw.spec)
      && match s.write.reason
         case AGWNodeSelectorRequired => l.agw.spec.agwNodeSelector + l.agw.spec.agwNodeLabelSelector == map[]
         case DatapathReadinessCheckFailed => NodeList in o.failing || PrepGet in o.failing
         case _ => false
  {
    hide AnySelected, AllLabelled, PrepReady;
  }

  lemma NamesOf(agw: Agw)
    ensures CertsOf(agw.spec) == Orc8rCertKey(agw.spec) && WebOf(agw.spec) == MagmalteKey(agw.spec)
    ensures RootJobOf(agw) == RootCAJobKey(agw) && RegisterJobOf(agw) == RegistrationJobKey(agw)
  {
  }

  lemma RootJobCause(store: Store, synced: Store, job: ObjectKey, hash: string, body: string, failing: set<Call>)
    requires Same(store, synced, job)
    ensures var step := HashedJob.Advance(synced, job, ROOT_CA_HASH, hash, body, JobFaults(failing));
      match JobVerdict(step.outcome)
      case Synced => true
      case NotSynced(reason) => Seconds(reason) == 20 && RootJobReport(reason, store, step.store, job, hash, failing)
      case Failed(reason) => Seconds(reason) == 120 && RootJobReport(reason, store, step.store, job, hash, failing)
  {
    hide HashedJob.Advance, HasFailed, IsRunning;
    VisitMeans(synced, job, ROOT_CA_HASH, hash, body, JobFaults(failing));
    SameMatch(store, synced, job, ROOT_CA_HASH, hash);
  }

  lemma BundleCause(store: Store, agw: Agw, values: StringMap, crypto: Crypto, failing: set<Call>)
    ensures var step := ReconcileTrustBundle(store, agw, values, crypto, failing);
      match step.verdict
      case Synced => true
      case NotSynced(reason) => Seconds(reason) == 20 && TrustCause(reason, store, step.store, agw, crypto, failing)
      case Failed(reason) => Seconds(reason) == 120 && TrustCause(reason, store, step.store, agw, crypto, failing)
  {
    hide HashedJob.Advance, SyncRootCA, CertSecretName, Matches, RootJobReport, RootJobOf, JobVerdict, ReleaseName, Orc8rCertKey, CertsOf, RootCAJobKey;
    NamesOf(agw);
    var rootCA := RootCA(store, agw.spec);
    SyncTouches(store, agw, values, rootCA, crypto);
    if Orc8rCertKey(agw.spec) in store {
      RootJobCause(store, SyncRootCA(store, agw, values, rootCA, crypto), RootCAJobKey(agw), crypto.sha(rootCA), CertSecretName(ReleaseName(agw), values), failing);
    }
  }

  lemma SameMatch(a: Store, b: Store, k: ObjectKey, annotation: string, hash: string)
    requires Same(a, b, k)
    ensures Matches(a, k, annotation, hash) <==> Matches(b, k, annotation, hash)
    ensures HasFailed(a, k, annotation, hash) <==> HasFailed(b, k, annotation, hash)
    ensures IsRunning(a, k, annotation, hash) <==> IsRunning(b, k, annotation, hash)
  {
  }

  lemma TrustStageCause(l: Local, values: StringMap, crypto: Crypto, o: Oracle)
    requires TrustStage(l, values, crypto, o).Halt?
    ensures var s := TrustStage(l, values, crypto, o);
      Delays(s.write) && TrustCause(s.write.reason, l.objects, s.local.objects, l.agw, crypto, o.failing)
  {
    hide ReconcileTrustBundle, HostAlias;
    var alias := HostAlias(l.objects, l.agw.spec, values, o.failing);
    AliasFails(l.objects, l.agw.spec, values, o.failing);
    BundleCause(l.objects, l.agw, WithAlias(values, alias), crypto, o.failing);
  }

  lemma AliasFails(store: Store, spec: Spec, values: StringMap, failing: set<Call>)
    ensures HostAlias(store, spec, values, failing).AliasFailed? ==> ServiceGet in failing
  {
  }

  lemma RegisterJobCause(store: Store, job: ObjectKey, payload: string, hash: string, failing: set<Call>)
    ensures var step := HashedJob.Advance(store, job, PAYLOAD_HASH, hash, payload, RegistrationFaults(failing));
      match RegistrationVerdictOf(step.outcome)
      case Registered => true
      case Disabled => true
      case NotRegistered(reason) => Seconds(reason) == 20 && RegisterJobReport(reason, store, step.store, job, hash, failing)
      case RegistrationFailed(reason) => Seconds(reason) == 120 && RegisterJobReport(reason, store, step.store, job, hash, failing)
  {
    hide HashedJob.Advance, HasFailed, IsRunning, Matches, WasReplaced, WasCreated;
    VisitMeans(store, job, PAYLOAD_HASH, hash, payload, RegistrationFaults(failing));
  }

  /** The checks before the Job. */
  lemma PrerequisiteCause(store: Store, agw: Agw, id: Identity, crypto: Crypto, failing: set<Call>)
    requires RegistrationEnabled(agw.spec.registration)
    requires agw.spec.networkID == "" || agw.spec.accessGatewayID == "" || NmsSecretGet in failing || Orc8rCertKey(agw.spec) !in store
      || MagmalteGet in failing || MagmalteKey(agw.spec) !in store || MagmalteImage(store, agw.spec) == "" || crypto.json(GatewayPayload(agw, id)).None?
    ensures var step := ReconcileRegistration(store, agw, id, crypto, failing);
      match step.verdict
      case Registered => false
      case Disabled => false
      case NotRegistered(reason) => Seconds(reason) == 20 && RegistrationCause(reason, store, step.store, agw, id, crypto, failing)
      case RegistrationFailed(reason) => Seconds(reason) == 120 && RegistrationCause(reason, store, step.store, agw, id, crypto, failing)
  {
    hide HashedJob.Advance, RegisterJobReport, RegisterJobOf, RegistrationJobKey, CertsOf, WebOf, Orc8rCertKey, MagmalteKey;
    NamesOf(agw);
    assert GatewayPayload(agw, id) == PayloadFor(agw.spec, id.hardwareID, id.publicKeyB64);
    hide GatewayPayload, PayloadFor;
  }

  lemma RegistrationStepCause(store: Store, agw: Agw, id: Identity, crypto: Crypto, failing: set<Call>)
    ensures var step := ReconcileRegistration(store, agw, id, crypto, failing);
      match step.verdict
      case Registered => true
      case Disabled => true
      case NotRegistered(reason) => Seconds(reason) == 20 && RegistrationCause(reason, store, step.store, agw, id, crypto, failing)
      case RegistrationFailed(reason) => Seconds(reason) == 120 && RegistrationCause(reason, store, step.store, agw, id, crypto, failing)
  {
    hide HashedJob.Advance, RegistrationVerdictOf, RegisterJobReport, RegisterJobOf, RegistrationJobKey, CertsOf, WebOf, Orc8rCertKey, MagmalteKey, MagmalteImage, Seconds;
    NamesOf(agw);
    assert GatewayPayload(agw, id) == PayloadFor(agw.spec, id.hardwareID, id.publicKeyB64);
    hide GatewayPayload, PayloadFor;
    if RegistrationEnabled(agw.spec.registration) {
      if agw.spec.networkID == "" || agw.spec.accessGatewayID == "" || NmsSecretGet in failing || Orc8rCertKey(agw.spec) !in store
        || MagmalteGet in failing || MagmalteKey(agw.spec) !in store || MagmalteImage(store, agw.spec) == "" || crypto.json(GatewayPayload(agw, id)).None? {
        PrerequisiteCause(store, agw, id, crypto, failing);
      } else {
        var payload := crypto.json(GatewayPayload(agw, id)).value;
        RegisterJobCause(store, RegistrationJobKey(agw), payload, crypto.sha(payload), failing);
      }
    }
  }

  lemma RegistrationStageCause(l: Local, id: Identity, crypto: Crypto, o: Oracle)
    requires RegistrationStage(l, id, crypto, o).Halt?
    ensures var s := RegistrationStage(l, id, crypto, o);
      Delays(s.write) && RegistrationCause(s.write.reason, l.objects, s.local.objects, l.agw, id, crypto, o.failing)
  {
    hide ReconcileRegistration;
    RegistrationStepCause(l.objects, l.agw, id, crypto, o.failing);
  }

  lemma SimulatorCause(l: Local, o: Oracle)
    requires SimulatorStage(l, o).Halt?
    ensures var s := SimulatorStage(l, o);
      && Delays(s.write) && l.agw.spec.enableUERANSIM
      && match s.write.reason
         case UERANSIMGateReadFailed => GateGet in o.failing && WaitsForGate(l.agw.spec)
         case InvalidUERANSIMStartPolicy => l.agw.spec.ueransimStartPolicy != "Immediate" && !WaitsForGate(l.agw.spec)
         case _ => false
  {
    hide GateOpen;
  }

  lemma RolloutCause(l: Local, o: Oracle)
    requires RolloutStage(l, o).Halt?
    ensures var s := RolloutStage(l, o);
      && Delays(s.write)
      && match s.write.reason
         case RootCARolloutAnnotationFailed => DeploymentList in o.failing || exists k :: !o.annotated(k)
         case StalePodCleanupFailed => PodList in o.failing || exists k :: !o.podsDeleted(k)
         case _ => false
  {
    hide AnnotateAll, StalePods, Unannotated;
  }

  lemma StopsBefore(stop: Stop, count: nat)
    ensures !Completes(stop, count) <==> stop.Stop? && stop.at < count
  {
  }

  lemma ApplyStageCause(l: Local, desired: seq<Desired>, simulator: Simulator, o: Oracle)
    requires ApplyStage(l, desired, simulator, o).Halt?
    ensures var s := ApplyStage(l, desired, simulator, o);
      Delays(s.write) && ApplyCause(s.write.reason, l.agw.spec, l.agw.namespace, l.nodes, s.local.objects, |desired|, o)
  {
    hide RolloutStage, ApplyUpTo, Completes, LabelReport;
    StopsBefore(o.applyStop, |desired|);
    if Completes(o.applyStop, |desired|) {
      var l1 := l.(agw := RemoveCondition(l.agw, ConditionType.UERANSIMReady));
      RolloutCause(l1.(objects := ApplyUpTo(l.objects, desired, SimulatorFilter(simulator), o.immutable, o.applyStop)), o);
    }
  }

  lemma LabelCause(l: Local, gate: Gate, o: Oracle)
    requires LabelStage(l, gate, o).Halt? && Gated(l.agw.spec)
    ensures var s := LabelStage(l, gate, o);
      && Delays(s.write) && s.local.objects == l.objects
      && LabelReport(s.write.reason, l.agw.spec, l.agw.namespace, l.nodes, s.local.objects, o)
  {
    hide LabelUpTo, UnlabelUpTo, PrepReady, EveryPrepPodReady, AnySelected, NodeSelector, Selected, GatewayNode;
    PrepCounts(l.objects, l.agw.namespace);
    NodesCount(l.nodes, l.objects, l.agw.namespace, l.agw.spec);
  }

  /** The flow from the apply on: not Ready for one of these reasons, or because the simulator's gate is closed; Ready for one reason only. */
  lemma ApplyFlowCause(l: Local, gate: Gate, simulator: Simulator, desired: seq<Desired>, crypto: Crypto, o: Oracle)
    requires gate.enabled ==> Gated(l.agw.spec)
    ensures var out := ApplyFlow(l, gate, simulator, desired, crypto, o);
      if out.write.status.True? then out.write.reason.NativeResourcesReady?
      else
        && Delays(out.write)
        && (|| ApplyCause(out.write.reason, l.agw.spec, l.agw.namespace, l.nodes, out.local.objects, |desired|, o)
            || (out.write.reason.WaitingForUERANSIMGate? && simulator.Pending?))
  {
    hide ApplyStage, LabelStage, ReconcileValidation, LabelReport, SimulatorFilter;
    var a := ApplyStage(l, desired, simulator, o);
    ApplyFacts(l, desired, simulator, o);
    if a.Halt? {
      ApplyStageCause(l, desired, simulator, o);
    } else {
      LabelFacts(a.local, gate, o);
      if LabelStage(a.local, gate, o).Halt? {
        LabelCause(a.local, gate, o);
      }
    }
  }

  // ----- The whole flow -----

  /** Why a flow did not end in Ready, in what it saw after its identity step, and what it left. */
  ghost predicate FlowCause(reason: Reason, l: Local, op: Operator, o: Oracle, after: Store) {
    var step := ReconcileIdentity(l.objects, l.agw, op.crypto, o);
    if step.identity.None? then reason.IdentityReconcileFailed?
    else
      || DatapathReport(reason, l.agw.spec, o.failing)
      || TrustCause(reason, step.store, after, l.agw, op.crypto, o.failing)
      || RegistrationCause(reason, step.store, after, l.agw, step.identity.value, op.crypto, o.failing)
      || SimulatorReport(reason, l.objects, l.agw, o.failing)
      || (ApplyLaunch(l, op, o).Some? &&
          ApplyCause(reason, l.agw.spec, l.agw.namespace, l.nodes, after, |ApplyLaunch(l, op, o).value.desired|, o))
  }

  predicate DatapathReport(reason: Reason, spec: Spec, failing: set<Call>) {
    && Gated(spec)
    && (|| (reason.AGWNodeSelectorRequired? && spec.agwNodeSelector + spec.agwNodeLabelSelector == map[])
        || (reason.DatapathReadinessCheckFailed? && (NodeList in failing || PrepGet in failing)))
  }

  predicate SimulatorReport(reason: Reason, store: Store, agw: Agw, failing: set<Call>) {
    && agw.spec.enableUERANSIM
    && (|| (reason.UERANSIMGateReadFailed? && GateGet in failing)
        || (reason.InvalidUERANSIMStartPolicy? && agw.spec.ueransimStartPolicy != "Immediate" && !WaitsForGate(agw.spec))
        || (reason.WaitingForUERANSIMGate? && WaitsForGate(agw.spec) && !SaysTrue(store, agw)))
  }

  lemma RegistrationCauseMoves(reason: Reason, a: Store, b: Store, after: Store, agw: Agw, id: Identity, crypto: Crypto, failing: set<Call>)
    requires Same(a, b, RegisterJobOf(agw)) && Same(a, b, WebOf(agw.spec)) && (CertsOf(agw.spec) in a ==> CertsOf(agw.spec) in b)
    requires RegistrationCause(reason, b, after, agw, id, crypto, failing)
    ensures RegistrationCause(reason, a, after, agw, id, crypto, failing)
  {
    hide PayloadFor, RegisterJobOf, WebOf, CertsOf, RegisterJobReport;
    var payload := crypto.json(PayloadFor(agw.spec, id.hardwareID, id.publicKeyB64));
    if payload.Some? && RegisterJobReport(reason, b, after, RegisterJobOf(agw), crypto.sha(payload.value), failing) {
      JobReportMoves(reason, a, b, after, RegisterJobOf(agw), crypto.sha(payload.value), failing);
    }
  }

  lemma JobReportMoves(reason: Reason, a: Store, b: Store, after: Store, job: ObjectKey, hash: string, failing: set<Call>)
    requires Same(a, b, job) && RegisterJobReport(reason, b, after, job, hash, failing)
    ensures RegisterJobReport(reason, a, after, job, hash, failing)
  {
  }

  lemma SameCauses(reason: Reason, seen: Store, after: Store, a: Agw, b: Agw, id: Identity, crypto: Crypto, failing: set<Call>)
    requires SameResource(a, b)
    ensures TrustCause(reason, seen, after, a, crypto, failing) <==> TrustCause(reason, seen, after, b, crypto, failing)
    ensures RegistrationCause(reason, seen, after, a, id, crypto, failing) <==> RegistrationCause(reason, seen, after, b, id, crypto, failing)
  {
    hide RootJobReport, RegisterJobReport, PayloadFor;
  }

  lemma TrustKeepsOthers(l: Local, id: Identity, crypto: Crypto, o: Oracle)
    ensures var s := TrustStage(l, PassValues(l.agw, id), crypto, o);
      && Same(l.objects, s.local.objects, RegisterJobOf(l.agw)) && Same(l.objects, s.local.objects, WebOf(l.agw.spec))
      && Same(l.objects, s.local.objects, StartGate(l.agw))
  {
    hide TrustStage, PassValues, CertKey, WebOf, RegisterJobOf, StartGate;
    var alias := TrustTrail(l, id, crypto, o);
    KeysApart(l.agw);
    TrustLinkTouches(l.objects, TrustStage(l, PassValues(l.agw, id), crypto, o).local.objects, l.agw, Some(id), alias, crypto, o, RegisterJobOf(l.agw));
    TrustLinkTouches(l.objects, TrustStage(l, PassValues(l.agw, id), crypto, o).local.objects, l.agw, Some(id), alias, crypto, o, WebOf(l.agw.spec));
    TrustLinkTouches(l.objects, TrustStage(l, PassValues(l.agw, id), crypto, o).local.objects, l.agw, Some(id), alias, crypto, o, StartGate(l.agw));
  }

  predicate ApartFromTrust(k: ObjectKey, agw: Agw) {
    k != CertKey(agw) && k != RootCAJobKey(agw) && k != IdentityKey(agw)
  }

  lemma KeysApart(agw: Agw)
    ensures ApartFromTrust(RegisterJobOf(agw), agw) && ApartFromTrust(WebOf(agw.spec), agw) && ApartFromTrust(StartGate(agw), agw)
    ensures StartGate(agw) != RegistrationJobKey(agw)
  {
    JobNamesDiffer(agw, agw);
    NamesOf(agw);
    hide RootCAJobKey, CertSecretName, ReleaseName;
  }

  lemma CertsStayThere(l: Local, values: StringMap, crypto: Crypto, o: Oracle)
    requires TrustStage(l, values, crypto, o).Go?
    ensures CertsOf(l.agw.spec) in TrustStage(l, values, crypto, o).local.objects
  {
    hide TrustStage;
    NamesOf(l.agw);
    TrustGo(l, values, crypto, o);
  }

  /** From the registration on. */
  lemma RegisteredOnward(m: Local, agw: Agw, id: Identity, alias: Alias, gate: Gate, op: Operator, o: Oracle)
    requires SameResource(agw, m.agw) && (gate.enabled ==> Gated(agw.spec))
    ensures var reg := RegistrationStage(m, id, op.crypto, o);
      reg.Halt? ==> Delays(reg.write) && RegistrationCause(reg.write.reason, m.objects, reg.local.objects, agw, id, op.crypto, o.failing)
    ensures var reg := RegistrationStage(m, id, op.crypto, o);
      reg.Go? ==>
        var sim := SimulatorStage(reg.local, o);
        if sim.Halt? then Delays(sim.write) && SimulatorReport(sim.write.reason, m.objects, agw, o.failing)
        else
          var desired := AgwObjects(agw, FinalValues(agw, id, alias, sim.value.On?), op);
          var out := ApplyFlow(sim.local, gate, sim.value, desired, op.crypto, o);
          if out.write.status.True? then out.write.reason.NativeResourcesReady?
          else
            && Delays(out.write)
            && (|| ApplyCause(out.write.reason, agw.spec, agw.namespace, m.nodes, out.local.objects, |desired|, o)
                || SimulatorReport(out.write.reason, m.objects, agw, o.failing))
  {
    hide RegistrationStage, SimulatorStage, ApplyFlow, AgwObjects, FinalValues, RegistrationCause, ApplyCause, StartGate, SaysTrue, WaitsForGate;
    var reg := RegistrationStage(m, id, op.crypto, o);
    if reg.Halt? {
      RegistrationStageCause(m, id, op.crypto, o);
      SameCauses(reg.write.reason, m.objects, reg.local.objects, agw, m.agw, id, op.crypto, o.failing);
    } else {
      RegistrationGo(m, id, op.crypto, o);
      RegistrationKeepsResource(m, id, op.crypto, o);
      var sim := SimulatorStage(reg.local, o);
      SimulatorTrail(reg.local, o);
      if sim.Halt? {
        SimulatorCause(reg.local, o);
      } else {
        var desired := AgwObjects(agw, FinalValues(agw, id, alias, sim.value.On?), op);
        ApplyFlowCause(sim.local, gate, sim.value, desired, op.crypto, o);
        PendingMeans(reg.local, agw, o);
      }
    }
  }

  lemma PendingMeans(l: Local, agw: Agw, o: Oracle)
    requires SimulatorStage(l, o).Go? && SameResource(agw, l.agw)
    ensures SimulatorStage(l, o).value.Pending? ==> agw.spec.enableUERANSIM && WaitsForGate(agw.spec) && !SaysTrue(l.objects, agw)
  {
    hide GateOpen, GateKey, StartGate, SaysTrue;
    GateTexts(l.objects, l.agw);
    SameGate(l.objects, l.objects, agw, l.agw);
  }

  /** From the trust bundle on. */
  lemma TrustOnward(l: Local, agw: Agw, id: Identity, gate: Gate, op: Operator, o: Oracle)
    requires SameResource(agw, l.agw) && (gate.enabled ==> Gated(agw.spec))
    ensures var out, launch := TrustFlow(l, id, gate, op, o), TrustLaunch(l, id, op, o);
      if out.write.status.True? then out.write.reason.NativeResourcesReady?
      else
        && Delays(out.write)
        && (|| TrustCause(out.write.reason, l.objects, out.local.objects, agw, op.crypto, o.failing)
            || RegistrationCause(out.write.reason, l.objects, out.local.objects, agw, id, op.crypto, o.failing)
            || SimulatorReport(out.write.reason, l.objects, agw, o.failing)
            || (launch.Some? && ApplyCause(out.write.reason, agw.spec, agw.namespace, l.nodes, out.local.objects, |launch.value.desired|, o)))
  {
    hide TrustStage, RegistrationStage, SimulatorStage, ApplyFlow, AgwObjects, FinalValues, PassValues, TrustCause, RegistrationCause, ApplyCause, StartGate, SaysTrue, WebOf, RegisterJobOf, CertsOf;
    var values := PassValues(l.agw, id);
    var a := TrustStage(l, values, op.crypto, o);
    if a.Halt? {
      TrustStageCause(l, values, op.crypto, o);
      SameCauses(a.write.reason, l.objects, a.local.objects, agw, l.agw, id, op.crypto, o.failing);
    } else {
      TrustGo(l, values, op.crypto, o);
      TrustKeepsResource(l, values, op.crypto, o);
      TrustKeepsOthers(l, id, op.crypto, o);
      CertsStayThere(l, values, op.crypto, o);
      RegisteredOnward(a.local, l.agw, id, a.value, gate, op, o);
      SameNames(agw, l.agw);
      var reg := RegistrationStage(a.local, id, op.crypto, o);
      if reg.Halt? {
        RegistrationCauseMoves(reg.write.reason, l.objects, a.local.objects, reg.local.objects, l.agw, id, op.crypto, o.failing);
        SameCauses(reg.write.reason, l.objects, reg.local.objects, agw, l.agw, id, op.crypto, o.failing);
      } else {
        SameGate(l.objects, a.local.objects, l.agw, l.agw);
        SameGate(l.objects, l.objects, agw, l.agw);
      }
    }
  }

  lemma SameNames(a: Agw, b: Agw)
    requires SameResource(a, b)
    ensures StartGate(a) == StartGate(b) && RegisterJobOf(a) == RegisterJobOf(b)
  {
  }

  /** Every flow that does not end in Ready names a reason that was true, and comes back when that reason says; Ready has one reason. */
  lemma FlowReason(l: Local, op: Operator, o: Oracle)
    ensures var out := MainFlow(l, op, o);
      if out.write.status.True? then out.write.reason.NativeResourcesReady?
      else Delays(out.write) && FlowCause(out.write.reason, l, op, o, out.local.objects)
  {
    hide IdentityStage, DatapathStage, TrustFlow, TrustLaunch, ReconcileIdentity, TrustCause, RegistrationCause, ApplyCause, StartGate, SaysTrue;
    var a := IdentityStage(l, op.crypto, o);
    IdentityKeepsResource(l, op.crypto, o);
    if a.Halt? {
      IdentityCause(l, op.crypto, o);
    } else {
      IdentityGo(l, op.crypto, o);
      var b := DatapathStage(a.local, o);
      DatapathKeepsResource(a.local, o);
      if b.Halt? {
        DatapathCause(a.local, o);
      } else {
        DatapathGo(a.local, o);
        TrustOnward(b.local, l.agw, a.value, b.value, op, o);
        GateBehindIdentity(l, a.local.objects, op, o);
      }
    }
  }

  lemma GateBehindIdentity(l: Local, seen: Store, op: Operator, o: Oracle)
    requires seen == ReconcileIdentity(l.objects, l.agw, op.crypto, o).store
    ensures SaysTrue(l.objects, l.agw) <==> SaysTrue(seen, l.agw)
  {
    hide ReconcileIdentity, StartGate;
    KeysApart(l.agw);
    IdentityTouches(l.objects, l.agw, op.crypto, o, StartGate(l.agw));
  }

  // ----- Deletions -----

  function DeleteJobOf(agw: Agw): ObjectKey {
    ObjectKey(Job, OrDefault(agw.spec.orc8rNamespace, "magma"), agw.name + "-delete-gateway")
  }

  /** Why a deletion has not come to its end. */
  ghost predicate DeletionCause(reason: Reason, before: Store, after: Store, agw: Agw, op: Operator, o: Oracle) {
    var job, certs, web := DeleteJobOf(agw), CertsOf(agw.spec), WebOf(agw.spec);
    var requested := agw.spec.registration.deleteOnRemoval && agw.spec.registration.enabled != Some(false);
    || (reason.GatewayDeregistrationBlocked? && requested &&
          (|| agw.spec.networkID == "" || agw.spec.accessGatewayID == ""
           || o.failing * {NmsSecretGet, MagmalteGet, DeregistrationJobGet, DeregistrationJobCreate} != {}
           || (job in before && before[job].status.succeeded == 0 && before[job].status.failed > 0)))
    || (reason.GatewayDeregistrationPending? && requested &&
          (|| certs !in before || web !in before || Get(before[web].data, "image") == ""
           || (job !in before && job in after)
           || (job in before && before[job].status.succeeded == 0 && before[job].status.failed == 0)))
    || (reason.NativeDeleteFailed? && o.deleteStop.Stop? && o.deleteStop.at < |AgwObjects(agw, map[], op)|)
  }

  lemma DeregistrationCause(store: Store, agw: Agw, op: Operator, o: Oracle)
    ensures var step := ReconcileDeregistration(store, agw, o.failing);
      && (step.verdict.DeregistrationFailed? ==> DeletionCause(GatewayDeregistrationBlocked, store, step.store, agw, op, o))
      && (step.verdict.NotDeregistered? ==> DeletionCause(GatewayDeregistrationPending, store, step.store, agw, op, o))
  {
    hide AgwObjects, MagmalteKey, Orc8rCertKey, WebOf, CertsOf, DeregistrationJobKey, DeleteJobOf;
    NamesOf(agw);
    assert DeleteJobOf(agw) == DeregistrationJobKey(agw) by { DeleteJobIs(agw); }
    var hit := o.failing * {NmsSecretGet, MagmalteGet, DeregistrationJobGet, DeregistrationJobCreate};
    assert NmsSecretGet in o.failing ==> NmsSecretGet in hit;
    assert MagmalteGet in o.failing ==> MagmalteGet in hit;
    assert DeregistrationJobGet in o.failing ==> DeregistrationJobGet in hit;
    assert DeregistrationJobCreate in o.failing ==> DeregistrationJobCreate in hit;
  }

  lemma DeleteJobIs(agw: Agw)
    ensures DeleteJobOf(agw) == DeregistrationJobKey(agw)
  {
  }

  // ----- Over runs -----

  predicate Denies(w: World) {
    w.cr.Some? && ConditionIs(w.cr.value.status, ConditionType.Ready, False)
  }

  function Verdict(w: World): Condition
    requires Denies(w)
  {
    w.cr.value.status.conditions[ConditionType.Ready]
  }

  /** Why a pass has reported this reason. */
  ghost predicate PassCause(reason: Reason, w: World, op: Operator, o: Oracle, after: Store)
    requires w.cr.Some?
  {
    if w.cr.value.deleting then DeletionCause(reason, w.objects, after, w.cr.value, op, o)
    else FlowCause(reason, WorkingCopy(w), op, o, after)
  }

  ghost predicate ReasonStep(w: World, op: Operator, o: Oracle, w': World) {
    Denies(w') ==>
      || (Denies(w) && Verdict(w) == Verdict(w'))
      || (&& StatusLanded(w, o, w') && Verdict(w').observedGeneration == w.cr.value.generation
          && PassCause(Verdict(w').reason, w, op, o, w'.objects))
  }

  lemma FinalVerdict(agw: Agw, write: Write)
    ensures FinalStatus(agw, write).conditions[ConditionType.Ready] == Condition(write.status, write.reason, agw.generation)
  {
  }

  lemma PassReason(w: World, op: Operator, o: Oracle)
    ensures ReasonStep(w, op, o, Pass(w, op, o).world)
  {
    hide MainFlow, DeletionPass, FlowCause, DeletionCause, CommitStatus, FinalStatus;
    if HasFinalizer(w) && ResourceGet !in o.failing {
      if w.cr.value.deleting {
        DeletionReason(w, op, o);
      } else {
        var out := MainFlow(WorkingCopy(w), op, o);
        FlowKeepsResource(WorkingCopy(w), op, o);
        FlowReason(WorkingCopy(w), op, o);
        CommitFacts(w.cr, Live(w.cr, o), out.local.agw, out.write, o.failing);
        FinalVerdict(out.local.agw, out.write);
      }
    }
  }

  lemma RetryReason(w: World, op: Operator, o: Oracle, objects: Store, nodes: seq<Node>, reason: Reason, seconds: nat)
    requires HasFinalizer(w) && w.cr.value.deleting && DeletionCause(reason, w.objects, objects, w.cr.value, op, o)
    ensures ReasonStep(w, op, o, Ends(objects, nodes, DeletionRetry(Live(w.cr, o), w.cr.value, reason, o.failing, seconds)).world)
  {
    hide CommitStatus, FinalStatus, DeletionCause;
    var write := NotReady(reason, TWO_MINUTES);
    CommitFacts(w.cr, Live(w.cr, o), w.cr.value, write, o.failing);
    FinalVerdict(w.cr.value, write);
  }

  lemma CleanupReason(store: Store, w: World, op: Operator, o: Oracle)
    requires HasFinalizer(w) && w.cr.value.deleting
    ensures ReasonStep(w, op, o, DeletionCleanup(store, w.nodes, w.cr.value, Live(w.cr, o), o).world)
  {
    hide UnlabelUpTo, UnlabelCompletes, CleanupDurable, NodeSelector, ReadyLabelKey, DeletionCause;
  }

  lemma DeletionReason(w: World, op: Operator, o: Oracle)
    requires HasFinalizer(w) && w.cr.value.deleting
    ensures ReasonStep(w, op, o, DeletionPass(w, w.cr.value, Live(w.cr, o), op, o).world)
  {
    hide ReconcileDeregistration, Delete, Handled, DeletionRetry, DeletionCleanup, ReasonStep, AgwObjects;
    var agw := w.cr.value;
    var dereg := ReconcileDeregistration(w.objects, agw, o.failing);
    DeregistrationCause(w.objects, agw, op, o);
    var doomed := AgwObjects(agw, map[], op);
    var left := Delete(dereg.store, doomed[..Handled(o.deleteStop, |doomed|)]);
    StopsBefore(o.deleteStop, |doomed|);
    hide Completes;
    if dereg.verdict.DeregistrationFailed? {
      RetryReason(w, op, o, dereg.store, w.nodes, GatewayDeregistrationBlocked, 30);
    } else if dereg.verdict.NotDeregistered? {
      RetryReason(w, op, o, dereg.store, w.nodes, GatewayDeregistrationPending, 20);
    } else if !Completes(o.deleteStop, |doomed|) {
      RetryReason(w, op, o, left, w.nodes, NativeDeleteFailed, 30);
    } else {
      CleanupReason(left, w, op, o);
    }
  }

  /** Step k of the run wrote the verdict seen in state n, for a reason that was true; the verdict has stayed since. */
  ghost predicate DeniedAt(op: Operator, ws: seq<World>, es: seq<Event>, k: nat, n: nat)
    requires |ws| == |es| + 1 && n < |ws| && Denies(ws[n])
  {
    && k < n && es[k].PassEvent? && StatusLanded(ws[k], es[k].o, ws[k + 1])
    && (forall m :: k < m <= n ==> Denies(ws[m]) && Verdict(ws[m]) == Verdict(ws[n]))
    && Verdict(ws[n]).observedGeneration == ws[k].cr.value.generation
    && PassCause(Verdict(ws[n]).reason, ws[k], op, es[k].o, ws[k + 1].objects)
  }

  /** In every state of every run, the reason of a persisted Ready=False was true of the cluster that the writing pass saw. */
  lemma {:induction false} ReasonSoundness(op: Operator, ws: seq<World>, es: seq<Event>, n: nat) returns (k: nat)
    requires Run(op, ws, es) && n < |ws| && !Denies(ws[0]) && Denies(ws[n])
    ensures DeniedAt(op, ws, es, k, n)
    decreases n
  {
    hide Pass, PassCause;
    var last := n - 1;
    assert Steps(op, ws[last], es[last], ws[n]);
    if es[last].PassEvent? {
      PassReason(ws[last], op, es[last].o);
      if !(Denies(ws[last]) && Verdict(ws[last]) == Verdict(ws[n])) {
        k := last;
        return;
      }
    }
    k := ReasonSoundness(op, ws, es, last);
  }

  // ----- What a pass says about the validation -----

  const VALIDATION_MARK := "magma.infra.don/ueransim-validation-hash"

  function ValidationJobOf(agw: Agw): ObjectKey {
    ObjectKey(Job, agw.namespace, OrDefault(agw.spec.releaseName, agw.name) + "-ueransim-validation")
  }

  predicate Served(store: Store, agw: Agw, hash: string) {
    Matches(store, ValidationJobOf(agw), VALIDATION_MARK, hash) && store[ValidationJobOf(agw)].status.succeeded > 0
  }

  lemma SameValidationJob(a: Store, b: Store, agw: Agw, hash: string)
    requires Same(a, b, ValidationJobOf(agw))
    ensures Served(a, agw, hash) <==> Served(b, agw, hash)
    ensures HasFailed(a, ValidationJobOf(agw), VALIDATION_MARK, hash) <==> HasFailed(b, ValidationJobOf(agw), VALIDATION_MARK, hash)
  {
  }

  lemma StartPends(store: Store, agw: Agw, hash: string, o: Oracle)
    ensures StartValidation(store, agw, hash, o).verdict.Pending? || StartValidation(store, agw, hash, o).verdict.ValidationError?
  {
    hide RollOutAll, DeploymentReady, HasUePod, Unrolled, Listed;
  }

  lemma JobReports(store: Store, agw: Agw, hash: string, o: Oracle)
    ensures var v, job := ReconcileValidationJob(store, agw, hash, o).verdict, ValidationJobOf(agw);
      && (v.Passed? <==> Served(store, agw, hash))
      && (v.RunFailed? <==> HasFailed(store, job, VALIDATION_MARK, hash))
      && (v.Passed? || v.RunFailed? || v.Pending? || v.ValidationError?)
  {
    hide StartValidation;
    assert ValidationJobOf(agw) == ValidationJobKey(agw) by { ValidationJobIs(agw); }
    hide ValidationJobOf, ValidationJobKey;
    StartPends(store, agw, hash, o);
  }

  lemma ValidationJobIs(agw: Agw)
    ensures ValidationJobOf(agw) == ValidationJobKey(agw)
  {
  }

  /**
   The last step of a flow: validation is reported passed exactly when the Job for the request
   has succeeded, failed exactly when it has failed, and the pass does not come back by itself
   exactly when there is nothing more to report.
   */
  lemma ValidationReport(l: Local, crypto: Crypto, o: Oracle)
    requires ValidationEnabled(l.agw.spec.validation) && l.agw.spec.enableUERANSIM
    requires o.failing * {ValidationAccountWrite, ValidationRoleWrite, ValidationBindingWrite, ValidationJobGet} == {}
    ensures var out, hash, c := FinishStage(l, On, crypto, o), ValidationHashOf(l.agw, crypto), ConditionType.UERANSIMValidated;
      var served, failed := Served(l.objects, l.agw, hash), HasFailed(l.objects, ValidationJobOf(l.agw), VALIDATION_MARK, hash);
      && c in out.local.agw.status.conditions
      && var says := out.local.agw.status.conditions[c];
         && says.observedGeneration == l.agw.generation
         && (says.status.True? <==> served)
         && (says.status.False? && says.reason.UERANSIMValidationFailed? <==> failed)
         && (!served && !failed ==> says.status.Unknown? || says.reason.UERANSIMValidationError?)
         && out.write == Write(True, NativeResourcesReady, if served || failed then None else Some(15))
  {
    hide ReconcileValidationJob, ReconcileRbac, ValidationHashOf, ValidationJobOf, Served, HasFailed;
    var rbac, hash := ReconcileRbac(l.objects, l.agw.namespace, o.failing), ValidationHashOf(l.agw, crypto);
    assert ValidationAccountWrite !in o.failing && ValidationRoleWrite !in o.failing && ValidationBindingWrite !in o.failing && ValidationJobGet !in o.failing by {
      CallsAbsent(o.failing);
    }
    RbacSucceeds(l.objects, l.agw.namespace, o.failing);
    JobIsNoRbac(l.agw);
    RbacTouches(l.objects, l.agw.namespace, o.failing, ValidationJobOf(l.agw));
    SameValidationJob(l.objects, rbac.store, l.agw, hash);
    JobReports(rbac.store, l.agw, hash, o);
    NotBoth(l.objects, l.agw, hash);
  }

  lemma CallsAbsent(failing: set<Call>)
    requires failing * {ValidationAccountWrite, ValidationRoleWrite, ValidationBindingWrite, ValidationJobGet} == {}
    ensures ValidationAccountWrite !in failing && ValidationRoleWrite !in failing && ValidationBindingWrite !in failing && ValidationJobGet !in failing
  {
    var hit := failing * {ValidationAccountWrite, ValidationRoleWrite, ValidationBindingWrite, ValidationJobGet};
    assert ValidationAccountWrite in failing ==> ValidationAccountWrite in hit;
    assert ValidationRoleWrite in failing ==> ValidationRoleWrite in hit;
    assert ValidationBindingWrite in failing ==> ValidationBindingWrite in hit;
    assert ValidationJobGet in failing ==> ValidationJobGet in hit;
  }

  lemma RbacSucceeds(store: Store, namespace: string, failing: set<Call>)
    requires ValidationAccountWrite !in failing && ValidationRoleWrite !in failing && ValidationBindingWrite !in failing
    ensures ReconcileRbac(store, namespace, failing).ok
  {
  }

  lemma JobIsNoRbac(agw: Agw)
    ensures !RbacKey(agw.namespace, ValidationJobOf(agw))
  {
  }

  lemma NotBoth(store: Store, agw: Agw, hash: string)
    ensures !(Served(store, agw, hash) && HasFailed(store, ValidationJobOf(agw), VALIDATION_MARK, hash))
  {
  }

  /** Without validation there is no such condition, without a simulator it stays as it was; neither brings the pass back. */
  lemma NoValidationReport(l: Local, simulator: Simulator, crypto: Crypto, o: Oracle)
    requires !simulator.Pending?
    ensures var out, c := FinishStage(l, simulator, crypto, o), ConditionType.UERANSIMValidated;
      && (!ValidationEnabled(l.agw.spec.validation) ==> c !in out.local.agw.status.conditions && out.write == Write(True, NativeResourcesReady, None))
      && (ValidationEnabled(l.agw.spec.validation) && !l.agw.spec.enableUERANSIM ==> out == Outcome(l, Write(True, NativeResourcesReady, None)))
  {
  }

  // ----- How a pass ends -----

  /** A flow ends with an error when its update fails, comes back after five seconds when somebody else was faster, and otherwise when its status says. */
  lemma FlowComesBack(w: World, op: Operator, o: Oracle)
    requires Flows(w, o)
    ensures var out, live, r := MainFlow(WorkingCopy(w), op, o), Live(w.cr, o), Pass(w, op, o).result;
      if StatusUpdate in o.failing || live.None? then r == Result(true, None)
      else if live.value.resourceVersion != w.cr.value.resourceVersion then r == Result(false, Some(5))
      else r == Result(false, if out.write.status.True? then out.write.requeueAfter else Some(Seconds(out.write.reason)))
  {
    hide MainFlow, DeletionPass, FinalStatus, FlowCause;
    FlowReason(WorkingCopy(w), op, o);
    FlowKeepsResource(WorkingCopy(w), op, o);
  }
}
