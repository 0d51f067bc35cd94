/** What a pass leaves behind: node labels all or nothing, and the root CA where it was put. */
module AgwAfterPass {
  import opened GoMaps
  import opened Objects
  import opened NativeRelease
  import opened AgwModel
  import opened AgwIdentity
  import opened AgwDatapath
  import opened AgwTrust
  import opened AgwRegistration
  import opened AgwValues
  import opened AgwValidation
  import opened AgwPass
  import opened AgwRuns
  import opened AgwReady
  import opened AgwTrail
  import opened AgwFootprint
  import opened AgwFinalizer
  import opened AgwJobs
  import opened AgwProgress
  import opened AgwFlowMeasure
  import HashedJob
  import Validation = AgwValidation

  // ----- Datapath labels -----

  /** The reasons that a pass can give only once it is past the label step, without an error there. */
  predicate PastLabels(reason: Reason) {
    reason in {NativeResourcesReady, WaitingForUERANSIMGate, Reason.DatapathReady, WaitingForDatapathReady}
  }

  lemma EarlyReasons(l: Local, crypto: Crypto, o: Oracle)
    ensures IdentityStage(l, crypto, o).Halt? ==> !PastLabels(IdentityStage(l, crypto, o).write.reason)
    ensures DatapathStage(l, o).Halt? ==> !PastLabels(DatapathStage(l, o).write.reason)
    ensures SimulatorStage(l, o).Halt? ==> !PastLabels(SimulatorStage(l, o).write.reason)
  {
    hide ReconcileIdentity, CheckNodes, GateOpen, WithDetails;
  }

  lemma TrustReasons(l: Local, values: StringMap, crypto: Crypto, o: Oracle)
    ensures TrustStage(l, values, crypto, o).Halt? ==> !PastLabels(TrustStage(l, values, crypto, o).write.reason)
  {
    hide HostAlias, SyncRootCA, HashedJob.Advance, ReleaseName;
  }

  lemma RegistrationReasons(l: Local, id: Identity, crypto: Crypto, o: Oracle)
    ensures RegistrationStage(l, id, crypto, o).Halt? ==> !PastLabels(RegistrationStage(l, id, crypto, o).write.reason)
  {
    hide HashedJob.Advance, MagmalteImage, MagmalteKey, Orc8rCertKey, GatewayPayload, WithDetails;
  }

  lemma ApplyReasons(l: Local, desired: seq<Desired>, simulator: Simulator, o: Oracle)
    ensures ApplyStage(l, desired, simulator, o).Halt? ==> !PastLabels(ApplyStage(l, desired, simulator, o).write.reason)
  {
    hide ApplyUpTo, AnnotateAll, StalePods, Unannotated, Handled, Completes;
  }

  /** All selected nodes labelled and node-prep ready, or no selected node labelled and node-prep not ready. */
  ghost predicate AllOrNothing(store: Store, nodes: seq<Node>, agw: Agw) {
    var selector, key := NodeSelector(agw.spec), ReadyLabelKey(agw.spec.datapath);
    || (PrepReady(store, agw.namespace) && AllLabelled(nodes, selector, key, ReadyLabelValue(agw.spec.datapath)))
    || (!PrepReady(store, agw.namespace) && NoneCarries(nodes, selector, key))
  }

  lemma SameFinishDaemon(l: Local, simulator: Simulator, crypto: Crypto, o: Oracle)
    ensures PrepReady(FinishStage(l, simulator, crypto, o).local.objects, l.agw.namespace) <==> PrepReady(l.objects, l.agw.namespace)
    ensures FinishStage(l, simulator, crypto, o).local.nodes == l.nodes
  {
    hide ReconcileValidation, ReleaseName;
    ValidationTouches(l.objects, l.agw, crypto, o);
  }

  lemma ApplyFlowDichotomy(l: Local, gate: Gate, simulator: Simulator, desired: seq<Desired>, crypto: Crypto, o: Oracle)
    requires gate.enabled && ReadyLabelKey(l.agw.spec.datapath) !in NodeSelector(l.agw.spec) && AnySelected(l.nodes, NodeSelector(l.agw.spec))
    requires gate.ready ==> NodesReady(l.nodes, l.objects, l.agw.namespace, NodeSelector(l.agw.spec), l.agw.spec.datapath)
    requires PastLabels(ApplyFlow(l, gate, simulator, desired, crypto, o).write.reason)
    ensures var out := ApplyFlow(l, gate, simulator, desired, crypto, o).local; AllOrNothing(out.objects, out.nodes, l.agw)
  {
    hide ApplyStage, ReconcileLabels, FinishStage, AllLabelled, NoneCarries, PrepReady, AnySelected, NodeSelector, ReadyLabelKey, ReadyLabelValue;
    var a := ApplyStage(l, desired, simulator, o);
    ApplyReasons(l, desired, simulator, o);
    ApplyFacts(l, desired, simulator, o);
    SameFinishDaemon(a.local, simulator, crypto, o);
    if gate.ready {
      ApplyStageKeepsDaemon(l, desired, simulator, o);
    } else {
      LabelDichotomy(l.nodes, a.local.objects, l.agw.namespace, NodeSelector(l.agw.spec), l.agw.spec.datapath, o);
    }
  }

  lemma ApplyStageKeepsDaemon(l: Local, desired: seq<Desired>, simulator: Simulator, o: Oracle)
    requires PrepReady(l.objects, l.agw.namespace)
    ensures PrepReady(ApplyStage(l, desired, simulator, o).local.objects, l.agw.namespace)
  {
    hide RolloutStage, ApplyUpTo, Admits;
    var applied := ApplyUpTo(l.objects, desired, SimulatorFilter(simulator), o.immutable, o.applyStop);
    PrepAdmitted(SimulatorFilter(simulator));
    UpToKeepsDaemon(l.objects, desired, SimulatorFilter(simulator), o.immutable, o.applyStop, PrepKey(l.agw.namespace));
    RolloutTrail(l.(agw := RemoveCondition(l.agw, ConditionType.UERANSIMReady)).(objects := applied), o);
  }

  lemma TrustFlowDichotomy(l: Local, id: Identity, gate: Gate, op: Operator, o: Oracle)
    requires gate.enabled && ReadyLabelKey(l.agw.spec.datapath) !in NodeSelector(l.agw.spec) && AnySelected(l.nodes, NodeSelector(l.agw.spec))
    requires gate.ready ==> NodesReady(l.nodes, l.objects, l.agw.namespace, NodeSelector(l.agw.spec), l.agw.spec.datapath)
    requires PastLabels(TrustFlow(l, id, gate, op, o).write.reason)
    ensures var out := TrustFlow(l, id, gate, op, o).local; AllOrNothing(out.objects, out.nodes, l.agw)
  {
    hide TrustStage, RegistrationStage, SimulatorStage, ApplyFlow, AgwObjects, FinalValues, PassValues, SyncRootCA, RegistrationEvidence, TrustEvidence;
    hide AllLabelled, NoneCarries, AnySelected, PastLabels, NodeSelector, ReadyLabelKey, ReadyLabelValue;
    var values, crypto := PassValues(l.agw, id), op.crypto;
    var a := TrustStage(l, values, crypto, o);
    TrustReasons(l, values, crypto, o);
    TrustGo(l, values, crypto, o);
    TrustKeepsResource(l, values, crypto, o);
    var b := RegistrationStage(a.local, id, crypto, o);
    RegistrationReasons(a.local, id, crypto, o);
    RegistrationGo(a.local, id, crypto, o);
    RegistrationKeepsResource(a.local, id, crypto, o);
    EarlyReasons(b.local, crypto, o);
    SimulatorTrail(b.local, o);
    var c := SimulatorStage(b.local, o);
    var desired := AgwObjects(l.agw, FinalValues(l.agw, id, a.value, c.value.On?), op);
    assert Same(l.objects, b.local.objects, PrepKey(l.agw.namespace));
    ApplyFlowDichotomy(b.local, gate, c.value, desired, crypto, o);
  }

  lemma FlowDichotomy(l: Local, op: Operator, o: Oracle)
    requires DatapathGateEnabled(l.agw.spec.datapath) && ReadyLabelKey(l.agw.spec.datapath) !in NodeSelector(l.agw.spec)
    requires AnySelected(l.nodes, NodeSelector(l.agw.spec)) && PastLabels(MainFlow(l, op, o).write.reason)
    ensures var out := MainFlow(l, op, o).local; AllOrNothing(out.objects, out.nodes, l.agw)
  {
    hide IdentityStage, DatapathStage, TrustFlow, PastLabels, AllLabelled, NoneCarries, AnySelected, PrepReady, NodeSelector, ReadyLabelKey, ReadyLabelValue, ReconcileIdentity;
    var a := IdentityStage(l, op.crypto, o);
    EarlyReasons(l, op.crypto, o);
    IdentityNodes(l, op.crypto, o);
    IdentityKeepsResource(l, op.crypto, o);
    var b := DatapathStage(a.local, o);
    EarlyReasons(a.local, op.crypto, o);
    DatapathGo(a.local, o);
    DatapathKeepsResource(a.local, o);
    TrustFlowDichotomy(b.local, a.value, b.value, op, o);
  }

  /**
   Every gated pass that gets past the label step leaves the labels all or nothing; whatever a
   pass does, it changes no other label, no other node, and not the selection.
   */
  lemma DatapathAllOrNothing(w: World, op: Operator, o: Oracle)
    requires HasFinalizer(w) && !w.cr.value.deleting && DatapathGateEnabled(w.cr.value.spec.datapath)
    requires ReadyLabelKey(w.cr.value.spec.datapath) !in NodeSelector(w.cr.value.spec) && AnySelected(w.nodes, NodeSelector(w.cr.value.spec))
    ensures ResourceGet !in o.failing && PastLabels(MainFlow(Local(w.objects, w.nodes, w.cr.value), op, o).write.reason) ==>
      AllOrNothing(Pass(w, op, o).world.objects, Pass(w, op, o).world.nodes, w.cr.value)
    ensures OnlyReadyKeyChanges(w.nodes, Pass(w, op, o).world.nodes, NodeSelector(w.cr.value.spec), ReadyLabelKey(w.cr.value.spec.datapath))
    ensures AnySelected(Pass(w, op, o).world.nodes, NodeSelector(w.cr.value.spec))
  {
    hide MainFlow, DeletionPass, AllOrNothing, PastLabels, OnlyReadyKeyChanges, AnySelected, NodeSelector, ReadyLabelKey, DatapathEvidence, ReconcileLabels;
    var l := Local(w.objects, w.nodes, w.cr.value);
    if PastLabels(MainFlow(l, op, o).write.reason) {
      FlowDichotomy(l, op, o);
    }
    FlowNodes(l, op, o);
    NodesFrame(l, MainFlow(l, op, o).local.nodes, o);
    NodesFrame(l, w.nodes, o);
    SelectionStays(w.nodes, MainFlow(l, op, o).local.nodes, NodeSelector(w.cr.value.spec), ReadyLabelKey(w.cr.value.spec.datapath));
  }

  lemma NodesFrame(l: Local, nodes: seq<Node>, o: Oracle)
    requires NodesFrom(l, nodes, o)
    ensures OnlyReadyKeyChanges(l.nodes, nodes, NodeSelector(l.agw.spec), ReadyLabelKey(l.agw.spec.datapath))
  {
    hide ReconcileLabels, NodeSelector, ReadyLabelKey, DatapathEvidence;
    if nodes != l.nodes {
      var store :| nodes == ReconcileLabels(l.nodes, store, l.agw.namespace, NodeSelector(l.agw.spec), l.agw.spec.datapath, o).nodes;
      LabelsFrame(l.nodes, store, l.agw.namespace, NodeSelector(l.agw.spec), l.agw.spec.datapath, o);
    }
  }

  // ----- The root CA in the certificate Secret -----

  lemma SyncedData(store: Store, agw: Agw, values: StringMap, rootCA: string, crypto: Crypto)
    ensures var after := SyncRootCA(store, agw, values, rootCA, crypto);
      && CertSecretKey(agw, values) in after
      && Get(after[CertSecretKey(agw, values)].data, ROOT_CA) == rootCA
  {
    assert |ROOT_CA| == 10 && |"gateway.crt"| == 11 && |"gateway.key"| == 11 && |"controller.crt"| == 14 && |"controller.key"| == 14;
    hide CertSecretName, ReleaseName;
  }

  /** The filter that leaves the simulator out does not take the certificate Secret away: it admits its name, or the release does not list it. */
  ghost predicate CertKept(agw: Agw, id: Identity, alias: Alias, op: Operator) {
    || Admits(WithoutSimulator, CertKey(agw).name)
    || forall simulator: bool :: !Lists(AgwObjects(agw, FinalValues(agw, id, alias, simulator), op), CertKey(agw))
  }

  lemma ApplyFlowKeepsSecret(l: Local, gate: Gate, simulator: Simulator, desired: seq<Desired>, crypto: Crypto, o: Oracle, k: ObjectKey)
    requires k.kind.Secret? && k in l.objects && (Admits(WithoutSimulator, k.name) || !Lists(desired, k))
    ensures var after := ApplyFlow(l, gate, simulator, desired, crypto, o).local.objects;
      k in after && after[k].data == l.objects[k].data
  {
    hide ApplyFlow, ApplyUpTo, ReconcileValidation, ReleaseName;
    var applied, rolled, last := ApplyTrail(l, gate, simulator, desired, crypto, o);
    UpToSecret(l.objects, desired, SimulatorFilter(simulator), o.immutable, o.applyStop, k);
    ValidationTouches(rolled, l.agw, crypto, o);
    assert Same(applied, rolled, k) && Same(rolled, last, k);
  }

  /** The manifest's own certificate Secret does not undo the root CA that the same pass has synchronised. */
  lemma RootCANotUndone(l: Local, id: Identity, gate: Gate, op: Operator, o: Oracle)
    requires TrustStage(l, PassValues(l.agw, id), op.crypto, o).Go?
    requires CertKept(l.agw, id, TrustStage(l, PassValues(l.agw, id), op.crypto, o).value, op)
    ensures var after := TrustFlow(l, id, gate, op, o).local.objects;
      CertKey(l.agw) in after && Get(after[CertKey(l.agw)].data, ROOT_CA) == RootCA(l.objects, l.agw.spec)
  {
    hide TrustStage, RegistrationStage, SimulatorStage, ApplyFlow, AgwObjects, FinalValues, PassValues, SyncRootCA, TrustEvidence, ReconcileRegistration, ReleaseName, CertSecretName, Admits;
    var values, crypto, k := PassValues(l.agw, id), op.crypto, CertKey(l.agw);
    var a := TrustStage(l, values, crypto, o);
    TrustGo(l, values, crypto, o);
    CertKeyFromSpec(l.agw, id, a.value);
    SyncedData(l.objects, l.agw, WithAlias(values, a.value), RootCA(l.objects, l.agw.spec), crypto);
    var b := RegistrationStage(a.local, id, crypto, o);
    RegistrationTrail(a.local, id, crypto, o);
    RegistrationLinkTouches(a.local.objects, b.local.objects, a.local.agw, Some(id), crypto, o, k);
    if b.Go? {
      var c := SimulatorStage(b.local, o);
      SimulatorTrail(b.local, o);
      if c.Go? {
        ApplyFlowKeepsSecret(b.local, gate, c.value, AgwObjects(l.agw, FinalValues(l.agw, id, a.value, c.value.On?), op), crypto, o, k);
      }
    }
  }

  ghost predicate CertKeptByPass(l: Local, op: Operator, o: Oracle) {
    var step := ReconcileIdentity(l.objects, l.agw, op.crypto, o);
    step.identity.Some? ==>
      CertKept(l.agw, step.identity.value, HostAlias(step.store, l.agw.spec, PassValues(l.agw, step.identity.value), o.failing), op)
  }

  /** A flow that reports Ready leaves the certificate Secret holding the root CA it has read. */
  lemma ReadyCarriesRootCA(l: Local, op: Operator, o: Oracle)
    requires MainFlow(l, op, o).write.status.True?
    requires CertKeptByPass(l, op, o)
    ensures var after := MainFlow(l, op, o).local.objects;
      CertKey(l.agw) in after && Get(after[CertKey(l.agw)].data, ROOT_CA) == RootCARead(World(Some(l.agw), l.objects, l.nodes), op, o)
  {
    hide IdentityStage, DatapathStage, TrustStage, TrustFlow, ReconcileIdentity, PassValues, RootCA, ReleaseName, CertSecretName, Admits, Orc8rNamespace;
    var a := IdentityStage(l, op.crypto, o);
    IdentityHalts(l, op.crypto, o);
    StoredTrail(l, op.crypto, o);
    IdentityKeepsResource(l, op.crypto, o);
    var b := DatapathStage(a.local, o);
    DatapathHalts(a.local, o);
    DatapathTrail(a.local, o);
    DatapathKeepsResource(a.local, o);
    CertIgnoresStatus(l.agw, b.local.agw);
    TrustFlowGoes(b.local, a.value, b.value, op, o);
    CertKeptMoves(l, b.local, a.value, op, o);
    RootCANotUndone(b.local, a.value, b.value, op, o);
  }

  lemma CertKeptMoves(l: Local, b: Local, id: Identity, op: Operator, o: Oracle)
    requires CertKeptByPass(l, op, o) && ReconcileIdentity(l.objects, l.agw, op.crypto, o) == IdentityStep(b.objects, Some(id))
    requires SameResource(l.agw, b.agw) && TrustStage(b, PassValues(b.agw, id), op.crypto, o).Go?
    ensures CertKept(b.agw, id, TrustStage(b, PassValues(b.agw, id), op.crypto, o).value, op)
  {
    hide ReconcileIdentity, TrustStage, HostAlias, PassValues, FinalValues, AgwObjects, Admits, TrustLink, CertSecretName;
    CertIgnoresStatus(l.agw, b.agw);
    ValuesIgnoreStatus(l.agw, b.agw, id);
    var alias := TrustTrail(b, id, op.crypto, o);
    ObjectsIgnoreStatus(l.agw, b.agw, id, alias, true, op);
    ObjectsIgnoreStatus(l.agw, b.agw, id, alias, false, op);
  }

  lemma CertIgnoresStatus(a: Agw, b: Agw)
    requires SameResource(a, b)
    ensures CertKey(a) == CertKey(b)
  {
  }

  lemma TrustFlowGoes(l: Local, id: Identity, gate: Gate, op: Operator, o: Oracle)
    requires TrustFlow(l, id, gate, op, o).write.status.True?
    ensures TrustStage(l, PassValues(l.agw, id), op.crypto, o).Go?
  {
    hide TrustStage, RegistrationStage, SimulatorStage, ApplyFlow, AgwObjects, FinalValues, PassValues;
    TrustHalts(l, PassValues(l.agw, id), op.crypto, o);
  }

  // ----- The root CA hash on the core Deployments -----

  predicate CoreDeployment(store: Store, agw: Agw, k: ObjectKey) {
    k in store && IsCore(store[k], k, agw)
  }

  /** Every core Deployment of the release is rolled out with this root CA hash. */
  ghost predicate RootCARolledOut(store: Store, agw: Agw, hash: string) {
    forall k :: CoreDeployment(store, agw, k) ==> Get(store[k].podAnnotations, ROOT_CA_HASH) == hash
  }

  lemma AnnotatedAll(store: Store, agw: Agw, hash: string, pods: set<ObjectKey>)
    requires hash != ""
    ensures RootCARolledOut(AnnotateAll(store, Unannotated(store, agw, hash), hash) - pods, agw, hash)
  {
    hide Contains, ToLower, Carries;
    var targets := Unannotated(store, agw, hash);
    var after := AnnotateAll(store, targets, hash) - pods;
    forall k | CoreDeployment(after, agw, k)
      ensures Get(after[k].podAnnotations, ROOT_CA_HASH) == hash
    {
      assert after[k].labels == store[k].labels;
      assert CoreDeployment(store, agw, k);
      assert k in targets || Get(store[k].podAnnotations, ROOT_CA_HASH) == hash;
    }
  }

  lemma RolloutReaches(l: Local, o: Oracle)
    requires RolloutStage(l, o).Go? && l.agw.status.trustBundleHash != ""
    ensures RootCARolledOut(RolloutStage(l, o).local.objects, l.agw, l.agw.status.trustBundleHash)
  {
    hide AnnotateAll, StalePods, Unannotated, RootCARolledOut;
    var hash := l.agw.status.trustBundleHash;
    var annotated := AnnotateAll(l.objects, Unannotated(l.objects, l.agw, hash), hash);
    AnnotatedAll(l.objects, l.agw, hash, Served(StalePods(annotated, l.agw), o.podsDeleted));
  }

  /** The same objects, with the same labels and the same root CA hash on their pod templates. */
  ghost predicate SameRollout(a: Store, b: Store) {
    forall k: ObjectKey :: k.kind.Deployment? ==>
      && (k in b ==> k in a)
      && (k in b ==> b[k].labels == a[k].labels && Get(b[k].podAnnotations, ROOT_CA_HASH) == Get(a[k].podAnnotations, ROOT_CA_HASH))
  }

  lemma SameRolloutKeeps(a: Store, b: Store, x: Agw, y: Agw, hash: string)
    requires SameRollout(a, b) && SameResource(x, y) && RootCARolledOut(a, x, hash)
    ensures RootCARolledOut(b, y, hash)
  {
    assert Validation.ReleaseLabels(x) == Validation.ReleaseLabels(y);
    hide Contains, ToLower, Validation.ReleaseLabels, Carries;
    forall k | CoreDeployment(b, y, k)
      ensures Get(b[k].podAnnotations, ROOT_CA_HASH) == hash
    {
      assert CoreDeployment(a, x, k);
    }
  }

  lemma HashNamesDiffer()
    ensures ROOT_CA_HASH != Validation.ROLLOUT_HASH
  {
    assert |ROOT_CA_HASH| == 29 && |Validation.ROLLOUT_HASH| == 48;
  }

  lemma RollOutKeepsHash(store: Store, keys: set<ObjectKey>, hash: string)
    ensures SameRollout(store, Validation.RollOutAll(store, keys, hash))
  {
    HashNamesDiffer();
  }

  lemma StartKeepsHash(store: Store, agw: Agw, hash: string, o: Oracle)
    ensures SameRollout(store, Validation.StartValidation(store, agw, hash, o).store)
  {
    hide Validation.RollOutAll, Validation.DeploymentReady, Validation.HasUePod, Validation.Unrolled, ReleaseName, Served;
    var unrolled := Validation.Unrolled(store, agw, hash);
    RollOutKeepsHash(store, Served(unrolled, o.rolledOut), hash);
    RollOutKeepsHash(store, unrolled, hash);
  }

  lemma ValidationKeepsHash(store: Store, agw: Agw, crypto: Crypto, o: Oracle)
    ensures SameRollout(store, ReconcileValidation(store, agw, crypto, o).store)
  {
    hide Validation.StartValidation, Validation.ValidationHashOf, Validation.ReconcileRbac, ReleaseName;
    var rbac := Validation.ReconcileRbac(store, agw.namespace, o.failing).store;
    forall k: ObjectKey | k.kind.Deployment?
      ensures Same(store, rbac, k)
    {
      Validation.RbacTouches(store, agw.namespace, o.failing, k);
    }
    StartKeepsHash(rbac, agw, Validation.ValidationHashOf(agw, crypto), o);
  }

  lemma ApplyFlowReaches(l: Local, gate: Gate, simulator: Simulator, desired: seq<Desired>, crypto: Crypto, o: Oracle)
    requires ApplyFlow(l, gate, simulator, desired, crypto, o).write.status.True? && l.agw.status.trustBundleHash != ""
    ensures RootCARolledOut(ApplyFlow(l, gate, simulator, desired, crypto, o).local.objects, l.agw, l.agw.status.trustBundleHash)
  {
    hide RolloutStage, ApplyUpTo, Handled, Completes, LabelStage, ReconcileValidation, RootCARolledOut, SameRollout;
    var l1 := l.(agw := RemoveCondition(l.agw, ConditionType.UERANSIMReady));
    var a := ApplyStage(l, desired, simulator, o);
    ApplyFacts(l, desired, simulator, o);
    LabelFacts(a.local, gate, o);
    FinishFacts(a.local, simulator, crypto, o);
    var applied := ApplyUpTo(l.objects, desired, SimulatorFilter(simulator), o.immutable, o.applyStop);
    RolloutReaches(l1.(objects := applied), o);
    ValidationKeepsHash(a.local.objects, a.local.agw, crypto, o);
    SameRolloutKeeps(a.local.objects, ReconcileValidation(a.local.objects, a.local.agw, crypto, o).store, l1.agw, l.agw, l.agw.status.trustBundleHash);
  }

  lemma TrustFlowRollsOut(l: Local, id: Identity, gate: Gate, op: Operator, o: Oracle)
    requires TrustFlow(l, id, gate, op, o).write.status.True? && op.crypto.sha(RootCA(l.objects, l.agw.spec)) != ""
    ensures RootCARolledOut(TrustFlow(l, id, gate, op, o).local.objects, l.agw, op.crypto.sha(RootCA(l.objects, l.agw.spec)))
  {
    hide TrustStage, RegistrationStage, SimulatorStage, ApplyFlow, AgwObjects, FinalValues, PassValues, SyncRootCA, TrustEvidence, RegistrationEvidence, RootCARolledOut, RootCA;
    var values, crypto := PassValues(l.agw, id), op.crypto;
    var a := TrustStage(l, values, crypto, o);
    TrustFlowGoes(l, id, gate, op, o);
    TrustGo(l, values, crypto, o);
    TrustKeepsResource(l, values, crypto, o);
    var b := RegistrationStage(a.local, id, crypto, o);
    RegistrationHalts(a.local, id, crypto, o);
    RegistrationKeepsResource(a.local, id, crypto, o);
    RegistrationKeepsHash(a.local, id, crypto, o);
    SimulatorHalts(b.local, o);
    SimulatorTrail(b.local, o);
    var c := SimulatorStage(b.local, o);
    var desired := AgwObjects(l.agw, FinalValues(l.agw, id, a.value, c.value.On?), op);
    ApplyFlowReaches(b.local, gate, c.value, desired, crypto, o);
    var after := ApplyFlow(b.local, gate, c.value, desired, crypto, o).local.objects;
    SameRolloutKeeps(after, after, b.local.agw, l.agw, crypto.sha(RootCA(l.objects, l.agw.spec)));
  }

  lemma RegistrationKeepsHash(l: Local, id: Identity, crypto: Crypto, o: Oracle)
    ensures RegistrationStage(l, id, crypto, o).local.agw.status.trustBundleHash == l.agw.status.trustBundleHash
  {
    hide ReconcileRegistration;
  }

  /** A flow that reports Ready leaves every core Deployment rolled out with the root CA that it has read. */
  lemma ReadyRollsOutRootCA(l: Local, op: Operator, o: Oracle)
    requires MainFlow(l, op, o).write.status.True?
    ensures var hash := op.crypto.sha(RootCARead(World(Some(l.agw), l.objects, l.nodes), op, o));
      hash != "" ==> RootCARolledOut(MainFlow(l, op, o).local.objects, l.agw, hash)
  {
    hide IdentityStage, DatapathStage, TrustFlow, ReconcileIdentity, RootCA, RootCARolledOut, SameRollout;
    var a := IdentityStage(l, op.crypto, o);
    IdentityHalts(l, op.crypto, o);
    StoredTrail(l, op.crypto, o);
    IdentityKeepsResource(l, op.crypto, o);
    var b := DatapathStage(a.local, o);
    DatapathHalts(a.local, o);
    DatapathTrail(a.local, o);
    DatapathKeepsResource(a.local, o);
    var hash := op.crypto.sha(RootCA(b.local.objects, b.local.agw.spec));
    if hash != "" {
      TrustFlowRollsOut(b.local, a.value, b.value, op, o);
      var after := TrustFlow(b.local, a.value, b.value, op, o).local.objects;
      assert SameRollout(after, after) by { SameRolloutReflexive(after); }
      SameRolloutKeeps(after, after, b.local.agw, l.agw, hash);
    }
  }

  lemma SameRolloutReflexive(a: Store)
    ensures SameRollout(a, a)
  {
  }
}
