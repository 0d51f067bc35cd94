/** Under a fixed specification and a cooperative cluster, Ready is reached in a bounded number of passes. */
module AgwConvergence {
  import opened GoMaps
  import opened Objects
  import opened NativeRelease
  import opened AgwModel
  import opened AgwIdentity
  import opened AgwDatapath
  import opened AgwTrust
  import opened AgwRegistration
  import opened AgwValues
  import opened AgwPass
  import opened AgwRuns
  import opened AgwReady
  import opened AgwTrail
  import opened AgwFootprint
  import opened AgwMeasure
  import opened AgwProgress
  import HashedJob

  // ----- What the protocols look at -----

  /** The objects that the protocols look at are the same. */
  predicate SameProtocol(a: Store, b: Store, agw: Agw) {
    && Same(a, b, RootCAJobKey(agw)) && Same(a, b, RegistrationJobKey(agw)) && Same(a, b, Orc8rCertKey(agw.spec))
    && Same(a, b, PvcKey(agw)) && Same(a, b, PrepKey(agw.namespace)) && Same(a, b, GateKey(agw)) && Same(a, b, MagmalteKey(agw.spec))
  }

  lemma ViewsMove(a: Store, b: Store, x: Agw, y: Agw, payload: string, crypto: Crypto)
    requires SameProtocol(a, b, x) && SameResource(x, y)
    ensures RootCAView(a, x, crypto) == RootCAView(b, y, crypto)
    ensures RegistrationView(a, x, payload, crypto) == RegistrationView(b, y, payload, crypto)
    ensures PvcKey(x) in a <==> PvcKey(y) in b
    ensures RootCA(a, x.spec) == RootCA(b, y.spec)
    ensures MagmalteImage(a, x.spec) == MagmalteImage(b, y.spec)
    ensures SimulatorEvidence(a, x) <==> SimulatorEvidence(b, y)
    ensures PrepReady(a, x.namespace) <==> PrepReady(b, y.namespace)
    ensures SameProtocol(a, b, y)
  {
    assert RootCAJobKey(x) == RootCAJobKey(y) && RegistrationJobKey(x) == RegistrationJobKey(y) && PvcKey(x) == PvcKey(y) && GateKey(x) == GateKey(y);
    hide RootCAJobKey, RegistrationJobKey, PvcKey, GateKey, Orc8rCertKey, MagmalteKey, PrepKey, EqualFold;
  }

  lemma IdentityKeepsProtocol(l: Local, crypto: Crypto, o: Oracle)
    requires Orc8rCertKey(l.agw.spec) != IdentityKey(l.agw)
    ensures SameProtocol(l.objects, IdentityStage(l, crypto, o).local.objects, l.agw)
  {
    var s := l.objects;
    StoredTrail(l, crypto, o);
    hide IdentityStage, ReconcileIdentity, ReleaseName, Orc8rNamespace, IdentitySecretName, NmsCertSecretName;
    IdentityTouches(s, l.agw, crypto, o, RootCAJobKey(l.agw));
    IdentityTouches(s, l.agw, crypto, o, RegistrationJobKey(l.agw));
    IdentityTouches(s, l.agw, crypto, o, Orc8rCertKey(l.agw.spec));
    IdentityTouches(s, l.agw, crypto, o, PvcKey(l.agw));
    IdentityTouches(s, l.agw, crypto, o, PrepKey(l.agw.namespace));
    IdentityTouches(s, l.agw, crypto, o, GateKey(l.agw));
    IdentityTouches(s, l.agw, crypto, o, MagmalteKey(l.agw.spec));
  }

  lemma SyncKeepsProtocol(store: Store, agw: Agw, values: StringMap, rootCA: string, crypto: Crypto)
    requires Orc8rCertKey(agw.spec) != CertSecretKey(agw, values)
    ensures SameProtocol(store, SyncRootCA(store, agw, values, rootCA, crypto), agw)
  {
    hide ReleaseName, Orc8rNamespace, CertSecretName, NmsCertSecretName, WithRootCA;
  }

  // ----- One flow -----

  /** One of the parts of the measure has gone down, the payload being this one. */
  ghost predicate Advances(a: Store, an: seq<Node>, b: Store, bn: seq<Node>, agw: Agw, payload: string, crypto: Crypto) {
    || (PvcKey(agw) in a && RootCADistance(b, agw, crypto) < RootCADistance(a, agw, crypto))
    || (RegistrationEnabled(agw.spec.registration) &&
        HashedJob.Distance(RegistrationView(b, agw, payload, crypto)) < HashedJob.Distance(RegistrationView(a, agw, payload, crypto)))
    || LabelDistance(b, bn, agw) < LabelDistance(a, an, agw)
  }

  /** Something that only the rest of the cluster can do is still to come. */
  ghost predicate WaitsFor(a: Store, agw: Agw, payload: string, crypto: Crypto) {
    || (PvcKey(agw) in a && InFlight(RootCAView(a, agw, crypto)))
    || (RegistrationEnabled(agw.spec.registration) && InFlight(RegistrationView(a, agw, payload, crypto)))
    || (DatapathGateEnabled(agw.spec.datapath) && PrepKey(agw.namespace) in a && !PrepReady(a, agw.namespace))
    || !SimulatorEvidence(a, agw)
  }

  ghost predicate SmoothOracle(nodes: seq<Node>, op: Operator, o: Oracle) {
    && o.failing == {} && op.crypto.publicKey(o.newKey).Some?
    && o.applyStop.Never? && o.labelStop >= |nodes|
    && (forall k :: o.annotated(k)) && (forall k :: o.podsDeleted(k))
  }

  lemma SmoothApplyFlow(l: Local, gate: Gate, simulator: Simulator, desired: seq<Desired>, crypto: Crypto, o: Oracle)
    requires o.failing == {} && o.applyStop.Never? && (forall k :: o.annotated(k)) && (forall k :: o.podsDeleted(k))
    requires o.labelStop >= |l.nodes| && gate.enabled == DatapathGateEnabled(l.agw.spec.datapath)
    requires gate.enabled ==> Lists(desired, PrepKey(l.agw.namespace))
    requires gate.enabled ==> NodeSelector(l.agw.spec) != map[] && ReadyLabelKey(l.agw.spec.datapath) !in NodeSelector(l.agw.spec)
    requires gate.enabled ==> AnySelected(l.nodes, NodeSelector(l.agw.spec))
    requires gate.ready <==> DatapathEvidence(l.objects, l.nodes, l.agw)
    ensures var out := ApplyFlow(l, gate, simulator, desired, crypto, o);
      || out.write.status.True?
      || simulator.Pending?
      || LabelDistance(out.local.objects, out.local.nodes, l.agw) < LabelDistance(l.objects, l.nodes, l.agw)
      || (gate.enabled && PrepKey(l.agw.namespace) in l.objects && !PrepReady(l.objects, l.agw.namespace))
  {
    hide ApplyStage, ReconcileLabels, FinishStage, LabelDistance, DatapathEvidence, AnySelected, PrepReady;
    var a := ApplyStage(l, desired, simulator, o);
    SmoothApply(l, desired, simulator, o);
    ApplyFacts(l, desired, simulator, o);
    FinishFacts(a.local, simulator, crypto, o);
    if gate.enabled && !gate.ready {
      ApplyStageDaemon(l, desired, simulator, o);
      SmoothLabels(l, a.local.objects, o);
    } else {
      assert gate.enabled ==> gate.ready;
    }
  }

  lemma ApplyStageDaemon(l: Local, desired: seq<Desired>, simulator: Simulator, o: Oracle)
    requires o.applyStop.Never? && Lists(desired, PrepKey(l.agw.namespace))
    ensures var after := ApplyStage(l, desired, simulator, o).local.objects;
      var k := PrepKey(l.agw.namespace);
      k in after && (k in l.objects ==> after[k].status == l.objects[k].status)
  {
    hide RolloutStage, ApplyUpTo, Admits;
    var k := PrepKey(l.agw.namespace);
    var applied := ApplyUpTo(l.objects, desired, SimulatorFilter(simulator), o.immutable, o.applyStop);
    PrepAdmitted(SimulatorFilter(simulator));
    UpToKeepsDaemon(l.objects, desired, SimulatorFilter(simulator), o.immutable, o.applyStop, k);
    RolloutTrail(l.(agw := RemoveCondition(l.agw, ConditionType.UERANSIMReady)).(objects := applied), o);
  }

  lemma LabelsMove(a: Store, b: Store, nodes: seq<Node>, x: Agw, y: Agw)
    requires SameProtocol(a, b, x) && SameResource(x, y)
    ensures DatapathEvidence(a, nodes, x) <==> DatapathEvidence(b, nodes, y)
    ensures LabelDistance(a, nodes, x) == LabelDistance(b, nodes, y)
  {
    hide AnySelected, AllLabelled;
  }

  lemma Reflexive(store: Store, agw: Agw)
    ensures SameProtocol(store, store, agw)
  {
  }

  /** The parts of WellPosed that the flow after the identity step relies on. */
  ghost predicate FlowPosed(agw: Agw) {
    && Orc8rCertKey(agw.spec) != CertKey(agw)
    && (RegistrationEnabled(agw.spec.registration) ==> agw.spec.networkID != "" && agw.spec.accessGatewayID != "")
    && (DatapathGateEnabled(agw.spec.datapath) ==>
          NodeSelector(agw.spec) != map[] && ReadyLabelKey(agw.spec.datapath) !in NodeSelector(agw.spec))
    && (agw.spec.enableUERANSIM ==> StartPolicy(agw.spec) in {"Immediate", "AfterAGWReady"})
  }

  lemma FlowPosedSame(a: Agw, b: Agw)
    requires SameResource(a, b)
    ensures FlowPosed(a) <==> FlowPosed(b)
  {
    assert CertKey(a) == CertKey(b);
    hide CertKey;
  }

  lemma CertKeyStable(agw: Agw, id: Identity)
    ensures CertSecretKey(agw, PassValues(agw, id)) == CertKey(agw)
    ensures forall alias :: CertSecretKey(agw, WithAlias(PassValues(agw, id), alias)) == CertSecretKey(agw, PassValues(agw, id))
  {
    hide PassValues, CertSecretKey, CertKey;
    CertKeyFromSpec(agw, id, NoAlias);
    forall alias
      ensures CertSecretKey(agw, WithAlias(PassValues(agw, id), alias)) == CertSecretKey(agw, PassValues(agw, id))
    {
      CertKeyFromSpec(agw, id, alias);
    }
  }

  /** A gated pass applies node-prep, with the simulator on or off. */
  ghost predicate ListsPrep(l: Local, id: Identity, alias: Alias, op: Operator) {
    DatapathGateEnabled(l.agw.spec.datapath) ==>
      forall simulator: bool :: Lists(AgwObjects(l.agw, FinalValues(l.agw, id, alias, simulator), op), PrepKey(l.agw.namespace))
  }

  lemma SmoothTrustFlow(l: Local, id: Identity, gate: Gate, payload: string, op: Operator, o: Oracle)
    requires FlowPosed(l.agw) && SmoothOracle(l.nodes, op, o)
    requires Orc8rCertKey(l.agw.spec) in l.objects && RootCA(l.objects, l.agw.spec) != ""
    requires RegistrationEnabled(l.agw.spec.registration) ==> MagmalteImage(l.objects, l.agw.spec) != ""
    requires ListsPrep(l, id, HostAlias(l.objects, l.agw.spec, PassValues(l.agw, id), o.failing), op)
    requires DatapathGateEnabled(l.agw.spec.datapath) ==> AnySelected(l.nodes, NodeSelector(l.agw.spec))
    requires RegistrationEnabled(l.agw.spec.registration) ==> op.crypto.json(GatewayPayload(l.agw, id)) == Some(payload)
    requires gate.enabled == DatapathGateEnabled(l.agw.spec.datapath) && (gate.ready <==> DatapathEvidence(l.objects, l.nodes, l.agw))
    ensures var out := TrustFlow(l, id, gate, op, o);
      || out.write.status.True?
      || Advances(l.objects, l.nodes, out.local.objects, out.local.nodes, l.agw, payload, op.crypto)
      || WaitsFor(l.objects, l.agw, payload, op.crypto)
  {
    hide TrustStage, RegistrationStage, SimulatorStage, ApplyFlow, AgwObjects, FinalValues, PassValues, SyncRootCA, SameProtocol, HostAlias, ListsPrep, TrustLink;
    hide RootCAView, RegistrationView, LabelDistance, DatapathEvidence, SimulatorEvidence, TrustEvidence, RegistrationEvidence, PrepReady, RootCA, MagmalteImage, CertKey, CertSecretKey, GatewayPayload, AnySelected, HashedJob.Distance;
    var values, crypto := PassValues(l.agw, id), op.crypto;
    CertKeyStable(l.agw, id);
    var c := TrustStage(l, values, crypto, o);
    var alias := TrustTrail(l, id, crypto, o);
    SmoothTrust(l, values, crypto, o);
    if c.Go? {
      TrustGo(l, values, crypto, o);
      TrustKeepsResource(l, values, crypto, o);
      SyncKeepsProtocol(l.objects, l.agw, WithAlias(values, c.value), RootCA(l.objects, l.agw.spec), crypto);
      SmoothRegistrationFlow(l, c.local, id, gate, c.value, payload, op, o);
    }
  }

  lemma SmoothRegistrationFlow(l: Local, c: Local, id: Identity, gate: Gate, alias: Alias, payload: string, op: Operator, o: Oracle)
    requires SameProtocol(l.objects, c.objects, l.agw) && SameResource(l.agw, c.agw) && c.nodes == l.nodes
    requires FlowPosed(l.agw) && SmoothOracle(l.nodes, op, o)
    requires Orc8rCertKey(l.agw.spec) in l.objects
    requires RegistrationEnabled(l.agw.spec.registration) ==> MagmalteImage(l.objects, l.agw.spec) != ""
    requires ListsPrep(l, id, alias, op)
    requires DatapathGateEnabled(l.agw.spec.datapath) ==> AnySelected(l.nodes, NodeSelector(l.agw.spec))
    requires RegistrationEnabled(l.agw.spec.registration) ==> op.crypto.json(GatewayPayload(l.agw, id)) == Some(payload)
    requires gate.enabled == DatapathGateEnabled(l.agw.spec.datapath) && (gate.ready <==> DatapathEvidence(l.objects, l.nodes, l.agw))
    ensures var d := RegistrationStage(c, id, op.crypto, o);
      if d.Halt? then
        || Advances(l.objects, l.nodes, d.local.objects, d.local.nodes, l.agw, payload, op.crypto)
        || WaitsFor(l.objects, l.agw, payload, op.crypto)
      else
        var e := SimulatorStage(d.local, o);
        && e.Go?
        && var out := ApplyFlow(e.local, gate, e.value, AgwObjects(l.agw, FinalValues(l.agw, id, alias, e.value.On?), op), op.crypto, o);
        || out.write.status.True?
        || Advances(l.objects, l.nodes, out.local.objects, out.local.nodes, l.agw, payload, op.crypto)
        || WaitsFor(l.objects, l.agw, payload, op.crypto)
  {
    hide RegistrationStage, SimulatorStage, ApplyFlow, AgwObjects, FinalValues;
    hide RootCAView, RegistrationView, LabelDistance, DatapathEvidence, SimulatorEvidence, PrepReady, RootCA, MagmalteImage, CertKey, AnySelected, HashedJob.Distance, RegistrationEvidence;
    var crypto := op.crypto;
    ViewsMove(l.objects, c.objects, l.agw, c.agw, payload, crypto);
    var d := RegistrationStage(c, id, crypto, o);
    SmoothRegistration(c, id, payload, crypto, o);
    Reflexive(d.local.objects, l.agw);
    ViewsMove(d.local.objects, d.local.objects, l.agw, c.agw, payload, crypto);
    if d.Go? {
      RegistrationGo(c, id, crypto, o);
      RegistrationKeepsResource(c, id, crypto, o);
      var agw := d.local.agw;
      ViewsMove(l.objects, c.objects, l.agw, agw, payload, crypto);
      LabelsMove(l.objects, c.objects, l.nodes, l.agw, agw);
      FlowPosedSame(l.agw, agw);
      SmoothSimulator(d.local, o);
      SimulatorTrail(d.local, o);
      var e := SimulatorStage(d.local, o);
      var desired := AgwObjects(l.agw, FinalValues(l.agw, id, alias, e.value.On?), op);
      SmoothApplyFlow(d.local, gate, e.value, desired, crypto, o);
      var out := ApplyFlow(d.local, gate, e.value, desired, crypto, o);
      Reflexive(out.local.objects, l.agw);
      LabelsMove(out.local.objects, out.local.objects, out.local.nodes, l.agw, agw);
    }
  }
}
