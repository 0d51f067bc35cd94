/** Ready=True is only ever persisted on evidence that the same pass has read. */
module AgwReady {
  import opened GoMaps
  import opened Objects
  import opened NativeRelease
  import opened AgwModel
  import opened AgwIdentity
  import opened AgwDatapath
  import opened AgwTrust
  import opened AgwRegistration
  import opened AgwValues
  import opened AgwValidation
  import opened AgwPass
  import opened AgwRuns
  import HashedJob

  // ----- Evidence, stated without the flow -----

  predicate JobDone(store: Store, key: ObjectKey, annotation: string, hash: string) {
    key in store && Get(store[key].annotations, annotation) == hash && store[key].status.succeeded > 0
  }

  /** The root CA is there, and if the volume exists, a Job for exactly this root CA has succeeded. */
  ghost predicate TrustEvidence(store: Store, agw: Agw, crypto: Crypto) {
    && RootCA(store, agw.spec) != ""
    && (PvcKey(agw) in store ==> JobDone(store, RootCAJobKey(agw), ROOT_CA_HASH, crypto.sha(RootCA(store, agw.spec))))
  }

  /** If registration is on, a Job for exactly the current payload has succeeded. */
  ghost predicate RegistrationEvidence(store: Store, agw: Agw, id: Identity, crypto: Crypto) {
    RegistrationEnabled(agw.spec.registration) ==>
      && crypto.json(GatewayPayload(agw, id)).Some?
      && JobDone(store, RegistrationJobKey(agw), PAYLOAD_HASH, crypto.sha(crypto.json(GatewayPayload(agw, id)).value))
  }

  /** If the datapath is gated, some node is selected, all selected nodes are labelled, and node-prep is ready. */
  ghost predicate DatapathEvidence(store: Store, nodes: seq<Node>, agw: Agw) {
    DatapathGateEnabled(agw.spec.datapath) ==>
      NodeSelector(agw.spec) != map[] && NodesReady(nodes, store, agw.namespace, NodeSelector(agw.spec), agw.spec.datapath)
  }

  /** No simulator gate is pending. */
  ghost predicate SimulatorEvidence(store: Store, agw: Agw) {
    agw.spec.enableUERANSIM ==> StartPolicy(agw.spec) == "Immediate" || (StartPolicy(agw.spec) == "AfterAGWReady" && GateOpen(store, agw))
  }

  /** The conditions that go with Ready=True. */
  ghost predicate ReadyConditions(status: AgwStatus, agw: Agw) {
    && ConditionIs(status, ConditionType.Ready, True)
    && ConditionIs(status, ConditionType.IdentityReady, True)
    && ConditionIs(status, ConditionType.TrustBundleSynced, True)
    && (DatapathGateEnabled(agw.spec.datapath) ==> ConditionIs(status, ConditionType.DatapathReady, True))
    && (ConditionIs(status, ConditionType.GatewayRegistered, True) <==> RegistrationEnabled(agw.spec.registration))
    && (status.gatewayRegistered <==> RegistrationEnabled(agw.spec.registration))
  }

  /** Everything the pass had read when it decided to report Ready=True. */
  ghost predicate Evidence(w: World, op: Operator, o: Oracle, agw: Agw, id: Identity) {
    && var step := ReconcileIdentity(w.objects, agw, op.crypto, o);
    && step.identity == Some(id)
    && TrustEvidence(step.store, agw, op.crypto)
    && RegistrationEvidence(w.objects, agw, id, op.crypto)
    && DatapathEvidence(w.objects, w.nodes, agw)
    && SimulatorEvidence(w.objects, agw)
  }

  /** This pass wrote this Ready=True status, for the generation it had read, on evidence. */
  ghost predicate Certified(w: World, op: Operator, o: Oracle, status: AgwStatus) {
    && w.cr.Some?
    && status.observedGeneration == w.cr.value.generation
    && ReadyConditions(status, w.cr.value)
    && exists id :: Evidence(w, op, o, w.cr.value, id)
  }

  // ----- Stage by stage -----

  /** A write that reports the gateway as not ready and asks for another pass. */
  predicate Retries(write: Write) {
    write.status.False? && write.requeueAfter.Some?
  }

  /** Validation is off, skipped, passed or failed: nothing is left to wait for. */
  predicate ValidationSettled(spec: Spec, status: AgwStatus) {
    || !ValidationEnabled(spec.validation)
    || !spec.enableUERANSIM
    || ConditionIs(status, ConditionType.UERANSIMValidated, True)
    || (ConditionIs(status, ConditionType.UERANSIMValidated, False) && status.conditions[ConditionType.UERANSIMValidated].reason == UERANSIMValidationFailed)
  }

  predicate SameConditions(a: AgwStatus, b: AgwStatus, changed: set<ConditionType>) {
    forall t: ConditionType :: t !in changed ==>
      (t in a.conditions <==> t in b.conditions) && (t in a.conditions ==> a.conditions[t] == b.conditions[t])
  }

  /** The stores differ in Secrets only. */
  ghost predicate SameButSecrets(a: Store, b: Store) {
    forall k: ObjectKey :: !k.kind.Secret? ==> (k in a <==> k in b) && (k in a ==> a[k] == b[k])
  }

  lemma IdentityGo(l: Local, crypto: Crypto, o: Oracle)
    requires IdentityStage(l, crypto, o).Go?
    ensures var s := IdentityStage(l, crypto, o);
      && ReconcileIdentity(l.objects, l.agw, crypto, o) == IdentityStep(s.local.objects, Some(s.value))
      && s.local.nodes == l.nodes
      && SameButSecrets(l.objects, s.local.objects)
      && ConditionIs(s.local.agw.status, ConditionType.IdentityReady, True)
  {
  }

  lemma DatapathGo(l: Local, o: Oracle)
    requires DatapathStage(l, o).Go?
    ensures var s := DatapathStage(l, o);
      && s.local == l.(agw := s.local.agw)
      && s.value.enabled == DatapathGateEnabled(l.agw.spec.datapath)
      && (s.value.ready ==> DatapathEvidence(l.objects, l.nodes, l.agw))
      && SameConditions(l.agw.status, s.local.agw.status, {ConditionType.DatapathReady})
      && (s.value.enabled && s.value.ready ==> ConditionIs(s.local.agw.status, ConditionType.DatapathReady, True))
  {
  }

  lemma TrustGo(l: Local, values: StringMap, crypto: Crypto, o: Oracle)
    requires TrustStage(l, values, crypto, o).Go?
    ensures var s := TrustStage(l, values, crypto, o);
      && s.local.nodes == l.nodes
      && TrustEvidence(l.objects, l.agw, crypto)
      && s.local.objects == SyncRootCA(l.objects, l.agw, WithAlias(values, s.value), RootCA(l.objects, l.agw.spec), crypto)
      && SameButSecrets(l.objects, s.local.objects)
      && SameConditions(l.agw.status, s.local.agw.status, {ConditionType.TrustBundleSynced})
      && ConditionIs(s.local.agw.status, ConditionType.TrustBundleSynced, True)
      && s.local.agw.status.trustBundleHash == crypto.sha(RootCA(l.objects, l.agw.spec))
  {
    hide HostAlias;
    var s := TrustStage(l, values, crypto, o);
    var step := ReconcileTrustBundle(l.objects, l.agw, WithAlias(values, s.value), crypto, o.failing);
    assert step.verdict.Synced?;
    TrustSynced(l.objects, l.agw, WithAlias(values, s.value), crypto, o.failing);
  }

  lemma TrustSynced(store: Store, agw: Agw, values: StringMap, crypto: Crypto, failing: set<Call>)
    requires ReconcileTrustBundle(store, agw, values, crypto, failing).verdict.Synced?
    ensures TrustEvidence(store, agw, crypto)
    ensures ReconcileTrustBundle(store, agw, values, crypto, failing) ==
      TrustStep(SyncRootCA(store, agw, values, RootCA(store, agw.spec), crypto), crypto.sha(RootCA(store, agw.spec)), Synced)
    ensures SameButSecrets(store, SyncRootCA(store, agw, values, RootCA(store, agw.spec), crypto))
  {
    hide WithRootCA, CertSecretName;
  }

  lemma RegistrationGo(l: Local, id: Identity, crypto: Crypto, o: Oracle)
    requires RegistrationStage(l, id, crypto, o).Go?
    ensures var s := RegistrationStage(l, id, crypto, o);
      && s.local == l.(agw := s.local.agw)
      && RegistrationEvidence(l.objects, l.agw, id, crypto)
      && SameConditions(l.agw.status, s.local.agw.status, {ConditionType.GatewayRegistered})
      && (ConditionIs(s.local.agw.status, ConditionType.GatewayRegistered, True) <==> RegistrationEnabled(l.agw.spec.registration))
      && (s.local.agw.status.gatewayRegistered <==> RegistrationEnabled(l.agw.spec.registration))
  {
    RegistrationCredited(l.objects, l.agw, id, crypto, o.failing);
    hide ReconcileRegistration;
  }

  lemma RegistrationCredited(store: Store, agw: Agw, id: Identity, crypto: Crypto, failing: set<Call>)
    ensures var step := ReconcileRegistration(store, agw, id, crypto, failing);
      step.verdict.Registered? || step.verdict.Disabled? ==>
        && step.store == store
        && RegistrationEvidence(store, agw, id, crypto)
        && (step.verdict.Registered? <==> RegistrationEnabled(agw.spec.registration))
  {
    hide MagmalteImage, MagmalteKey, Orc8rCertKey, GatewayPayload, HashedJob.NewJob;
  }

  lemma SimulatorGo(l: Local, o: Oracle)
    requires SimulatorStage(l, o).Go?
    ensures var s := SimulatorStage(l, o);
      s.local == l && (!s.value.Pending? ==> SimulatorEvidence(l.objects, l.agw))
  {
    hide GateOpen;
  }

  lemma RolloutFacts(l: Local, o: Oracle)
    ensures RolloutStage(l, o).Halt? ==> Retries(RolloutStage(l, o).write)
    ensures RolloutStage(l, o).local.agw == l.agw && RolloutStage(l, o).local.nodes == l.nodes
  {
    hide AnnotateAll, StalePods, Unannotated;
  }

  lemma ApplyFacts(l: Local, desired: seq<Desired>, simulator: Simulator, o: Oracle)
    ensures var s := ApplyStage(l, desired, simulator, o);
      && (s.Halt? ==> Retries(s.write))
      && s.local.nodes == l.nodes
      && s.local.agw == RemoveCondition(l.agw, ConditionType.UERANSIMReady)
  {
    hide RolloutStage, ApplyUpTo, Handled, Completes;
    var l1 := l.(agw := RemoveCondition(l.agw, ConditionType.UERANSIMReady));
    var applied := ApplyUpTo(l.objects, desired, SimulatorFilter(simulator), o.immutable, o.applyStop);
    RolloutFacts(l1.(objects := applied), o);
  }

  lemma LabelFacts(l: Local, gate: Gate, o: Oracle)
    ensures var s := LabelStage(l, gate, o);
      && (s.Halt? ==> Retries(s.write) && gate.enabled && !gate.ready)
      && (s.Go? ==> s.local == l && (gate.enabled ==> gate.ready))
      && s.local == l.(nodes := s.local.nodes)
  {
    hide ReconcileLabels;
  }

  lemma FinishFacts(l: Local, simulator: Simulator, crypto: Crypto, o: Oracle)
    ensures var f := FinishStage(l, simulator, crypto, o);
      && (if simulator.Pending? then Retries(f.write) else f.write.status.True?)
      && (f.write.requeueAfter.None? ==> f.write.status.True? && ValidationSettled(l.agw.spec, f.local.agw.status))
      && f.local.nodes == l.nodes
      && SameConditions(l.agw.status, f.local.agw.status, {ConditionType.UERANSIMValidated})
      && f.local.agw.status.gatewayRegistered == l.agw.status.gatewayRegistered
  {
    ValidationVerdictMeans(l.objects, l.agw, crypto, o);
    hide ReconcileValidation;
  }

  lemma ValidationVerdictMeans(store: Store, agw: Agw, crypto: Crypto, o: Oracle)
    ensures ReconcileValidation(store, agw, crypto, o).verdict.Disabled? <==> !ValidationEnabled(agw.spec.validation)
    ensures ReconcileValidation(store, agw, crypto, o).verdict.Skipped? ==> !agw.spec.enableUERANSIM
  {
    hide RollOutAll, DeploymentReady, HasUePod, Unrolled, ValidationHashOf, HashedJob.Inspect, HashedJob.NewJob, ReconcileRbac;
  }

  lemma ApplyFlowReady(l: Local, gate: Gate, simulator: Simulator, desired: seq<Desired>, crypto: Crypto, o: Oracle)
    requires ApplyFlow(l, gate, simulator, desired, crypto, o).write.status.True?
    ensures !simulator.Pending? && (gate.enabled ==> gate.ready)
    ensures var out := ApplyFlow(l, gate, simulator, desired, crypto, o);
      && SameConditions(l.agw.status, out.local.agw.status, {ConditionType.UERANSIMReady, ConditionType.UERANSIMValidated})
      && out.local.agw.status.gatewayRegistered == l.agw.status.gatewayRegistered
  {
    hide ApplyStage, LabelStage, FinishStage;
    var a := ApplyStage(l, desired, simulator, o);
    ApplyFacts(l, desired, simulator, o);
    LabelFacts(a.local, gate, o);
    FinishFacts(a.local, simulator, crypto, o);
  }

  lemma TrustFlowReady(l: Local, id: Identity, gate: Gate, op: Operator, o: Oracle)
    requires TrustFlow(l, id, gate, op, o).write.status.True?
    ensures TrustEvidence(l.objects, l.agw, op.crypto)
    ensures RegistrationEvidence(l.objects, l.agw, id, op.crypto)
    ensures SimulatorEvidence(l.objects, l.agw)
    ensures gate.enabled ==> gate.ready
    ensures var status := TrustFlow(l, id, gate, op, o).local.agw.status;
      && SameConditions(l.agw.status, status, {ConditionType.TrustBundleSynced, ConditionType.GatewayRegistered, ConditionType.UERANSIMReady, ConditionType.UERANSIMValidated})
      && ConditionIs(status, ConditionType.TrustBundleSynced, True)
      && (ConditionIs(status, ConditionType.GatewayRegistered, True) <==> RegistrationEnabled(l.agw.spec.registration))
      && (status.gatewayRegistered <==> RegistrationEnabled(l.agw.spec.registration))
  {
    hide TrustStage, RegistrationStage, SimulatorStage, ApplyFlow, AgwObjects, FinalValues, PassValues, SyncRootCA;
    var values := PassValues(l.agw, id);
    var a := TrustStage(l, values, op.crypto, o);
    TrustHalts(l, values, op.crypto, o);
    TrustGo(l, values, op.crypto, o);
    TrustKeepsResource(l, values, op.crypto, o);
    var b := RegistrationStage(a.local, id, op.crypto, o);
    RegistrationHalts(a.local, id, op.crypto, o);
    RegistrationGo(a.local, id, op.crypto, o);
    RegistrationKeepsResource(a.local, id, op.crypto, o);
    var c := SimulatorStage(b.local, o);
    SimulatorHalts(b.local, o);
    SimulatorGo(b.local, o);
    var desired := AgwObjects(l.agw, FinalValues(l.agw, id, a.value, c.value.On?), op);
    ApplyFlowReady(c.local, gate, c.value, desired, op.crypto, o);
    EvidenceMoves(l.objects, a.local.objects, l.agw, a.local.agw, b.local.agw, id, op.crypto);
  }

  /** Evidence that is not about Secrets survives a change of Secrets, and of the status. */
  lemma EvidenceMoves(a: Store, b: Store, agw: Agw, agw1: Agw, agw2: Agw, id: Identity, crypto: Crypto)
    requires SameButSecrets(a, b) && SameResource(agw, agw1) && SameResource(agw1, agw2)
    ensures RegistrationEvidence(b, agw1, id, crypto) ==> RegistrationEvidence(a, agw, id, crypto)
    ensures SimulatorEvidence(b, agw2) ==> SimulatorEvidence(a, agw)
  {
  }

  lemma TrustHalts(l: Local, values: StringMap, crypto: Crypto, o: Oracle)
    ensures TrustStage(l, values, crypto, o).Halt? ==> Retries(TrustStage(l, values, crypto, o).write)
  {
    hide HostAlias, ReconcileTrustBundle;
  }

  lemma RegistrationHalts(l: Local, id: Identity, crypto: Crypto, o: Oracle)
    ensures RegistrationStage(l, id, crypto, o).Halt? ==> Retries(RegistrationStage(l, id, crypto, o).write)
  {
    hide ReconcileRegistration;
  }

  lemma SimulatorHalts(l: Local, o: Oracle)
    ensures SimulatorStage(l, o).Halt? ==> Retries(SimulatorStage(l, o).write)
  {
  }

  lemma MainFlowReady(l: Local, op: Operator, o: Oracle)
    requires MainFlow(l, op, o).write.status.True?
    ensures exists id :: Evidence(World(Some(l.agw), l.objects, l.nodes), op, o, l.agw, id)
    ensures ReadyConditions(FinalStatus(MainFlow(l, op, o).local.agw, MainFlow(l, op, o).write), l.agw)
  {
    hide IdentityStage, DatapathStage, TrustFlow, ReconcileIdentity, TrustEvidence, RegistrationEvidence, DatapathEvidence, SimulatorEvidence;
    var a := IdentityStage(l, op.crypto, o);
    IdentityHalts(l, op.crypto, o);
    IdentityGo(l, op.crypto, o);
    IdentityKeepsResource(l, op.crypto, o);
    var b := DatapathStage(a.local, o);
    DatapathHalts(a.local, o);
    DatapathGo(a.local, o);
    DatapathKeepsResource(a.local, o);
    TrustFlowReady(b.local, a.value, b.value, op, o);
    EarlyEvidenceMoves(l.objects, a.local.objects, l.nodes, l.agw, a.local.agw, b.local.agw, a.value, op.crypto);
    assert b.value.ready;
    assert Evidence(World(Some(l.agw), l.objects, l.nodes), op, o, l.agw, a.value);
  }

  lemma EarlyEvidenceMoves(a: Store, b: Store, nodes: seq<Node>, agw: Agw, agw1: Agw, agw2: Agw, id: Identity, crypto: Crypto)
    requires SameButSecrets(a, b) && SameResource(agw, agw1) && SameResource(agw1, agw2)
    ensures TrustEvidence(b, agw2, crypto) ==> TrustEvidence(b, agw, crypto)
    ensures RegistrationEvidence(b, agw2, id, crypto) ==> RegistrationEvidence(a, agw, id, crypto)
    ensures SimulatorEvidence(b, agw2) ==> SimulatorEvidence(a, agw)
    ensures DatapathEvidence(b, nodes, agw1) ==> DatapathEvidence(a, nodes, agw)
  {
  }

  lemma IdentityHalts(l: Local, crypto: Crypto, o: Oracle)
    ensures IdentityStage(l, crypto, o).Halt? ==> Retries(IdentityStage(l, crypto, o).write)
  {
    hide ReconcileIdentity;
  }

  lemma DatapathHalts(l: Local, o: Oracle)
    ensures DatapathStage(l, o).Halt? ==> Retries(DatapathStage(l, o).write)
    ensures DatapathStage(l, o).Go? && !DatapathGateEnabled(l.agw.spec.datapath) ==> DatapathStage(l, o).value.ready
  {
    hide CheckNodes;
  }

  // ----- Writes -----

  /** A flow asks for no further pass only when it reports Ready=True with nothing left to validate. */
  lemma QuietFlow(l: Local, op: Operator, o: Oracle)
    ensures MainFlow(l, op, o).write.requeueAfter.None? ==>
      MainFlow(l, op, o).write.status.True? && ValidationSettled(l.agw.spec, MainFlow(l, op, o).local.agw.status)
  {
    hide IdentityStage, DatapathStage, TrustStage, RegistrationStage, SimulatorStage, ApplyFlow;
    hide AgwObjects, FinalValues, PassValues;
    var a := IdentityStage(l, op.crypto, o);
    IdentityHalts(l, op.crypto, o);
    IdentityKeepsResource(l, op.crypto, o);
    if a.Go? {
      var id := a.value;
      var b := DatapathStage(a.local, o);
      DatapathHalts(a.local, o);
      DatapathKeepsResource(a.local, o);
      if b.Go? {
        var values := PassValues(b.local.agw, id);
        var c := TrustStage(b.local, values, op.crypto, o);
        TrustHalts(b.local, values, op.crypto, o);
        TrustKeepsResource(b.local, values, op.crypto, o);
        if c.Go? {
          var d := RegistrationStage(c.local, id, op.crypto, o);
          RegistrationHalts(c.local, id, op.crypto, o);
          RegistrationKeepsResource(c.local, id, op.crypto, o);
          if d.Go? {
            var e := SimulatorStage(d.local, o);
            SimulatorHalts(d.local, o);
            if e.Go? {
              SimulatorGo(d.local, o);
              QuietApplyFlow(e.local, b.value, e.value, AgwObjects(b.local.agw, FinalValues(b.local.agw, id, c.value, e.value.On?), op), op.crypto, o);
            }
          }
        }
      }
    }
  }

  lemma QuietApplyFlow(l: Local, gate: Gate, simulator: Simulator, desired: seq<Desired>, crypto: Crypto, o: Oracle)
    ensures var out := ApplyFlow(l, gate, simulator, desired, crypto, o);
      out.write.requeueAfter.None? ==> out.write.status.True? && ValidationSettled(l.agw.spec, out.local.agw.status)
  {
    hide ApplyStage, LabelStage, FinishStage;
    var a := ApplyStage(l, desired, simulator, o);
    ApplyFacts(l, desired, simulator, o);
    LabelFacts(a.local, gate, o);
    FinishFacts(a.local, simulator, crypto, o);
  }

  /** A status update lands only on the version the pass has read; otherwise the status stays. */
  lemma CommitFacts(cr: Option<Agw>, live: Option<Agw>, agw: Agw, write: Write, failing: set<Call>)
    requires cr.Some? && CrEvolves(cr, live) && SameResource(cr.value, agw)
    ensures var c := CommitStatus(live, agw, write, failing);
      || (c.cr == live && c.result != DONE)
      || (live == cr && c.result == Result(false, write.requeueAfter)
          && c.cr == Some(cr.value.(status := FinalStatus(agw, write), resourceVersion := cr.value.resourceVersion + 1)))
  {
  }
}
