/** The parts of the measure through one flow, whatever fails on the way. */
module AgwFlowMeasure {
  import opened GoMaps
  import opened Objects
  import opened NativeRelease
  import opened AgwModel
  import opened AgwIdentity
  import opened AgwDatapath
  import opened AgwTrust
  import opened AgwRegistration
  import opened AgwValues
  import opened AgwValidation
  import opened AgwPass
  import opened AgwRuns
  import opened AgwReady
  import opened AgwTrail
  import opened AgwFootprint
  import opened AgwJobs
  import opened AgwStability
  import opened AgwMeasure
  import opened AgwProgress
  import HashedJob

  // ----- Nodes -----

  /** Labels change only in the label step of a gated pass that found the datapath not ready. */
  ghost predicate NodesFrom(l: Local, nodes: seq<Node>, o: Oracle) {
    || nodes == l.nodes
    || (&& !DatapathEvidence(l.objects, l.nodes, l.agw)
        && exists store :: nodes == ReconcileLabels(l.nodes, store, l.agw.namespace, NodeSelector(l.agw.spec), l.agw.spec.datapath, o).nodes)
  }

  lemma ApplyFlowNodes(l: Local, gate: Gate, simulator: Simulator, desired: seq<Desired>, crypto: Crypto, o: Oracle)
    ensures var out := ApplyFlow(l, gate, simulator, desired, crypto, o);
      || out.local.nodes == l.nodes
      || (gate.enabled && !gate.ready
          && exists store :: out.local.nodes == ReconcileLabels(l.nodes, store, l.agw.namespace, NodeSelector(l.agw.spec), l.agw.spec.datapath, o).nodes)
  {
    hide ApplyStage, FinishStage, ReconcileLabels, NodeSelector;
    var a := ApplyStage(l, desired, simulator, o);
    ApplyFacts(l, desired, simulator, o);
    FinishFacts(a.local, simulator, crypto, o);
  }

  lemma TrustFlowNodes(l: Local, id: Identity, gate: Gate, op: Operator, o: Oracle)
    ensures var out := TrustFlow(l, id, gate, op, o);
      || out.local.nodes == l.nodes
      || (gate.enabled && !gate.ready
          && exists store :: out.local.nodes == ReconcileLabels(l.nodes, store, l.agw.namespace, NodeSelector(l.agw.spec), l.agw.spec.datapath, o).nodes)
  {
    hide TrustStage, RegistrationStage, SimulatorStage, ApplyFlow, AgwObjects, FinalValues, PassValues, ReconcileLabels, NodeSelector;
    var values := PassValues(l.agw, id);
    var a := TrustStage(l, values, op.crypto, o);
    TrustKeepsResource(l, values, op.crypto, o);
    TrustKeepsNodes(l, values, op.crypto, o);
    if a.Go? {
      var b := RegistrationStage(a.local, id, op.crypto, o);
      RegistrationKeepsResource(a.local, id, op.crypto, o);
      RegistrationKeepsNodes(a.local, id, op.crypto, o);
      if b.Go? {
        var c := SimulatorStage(b.local, o);
        SimulatorTrail(b.local, o);
        if c.Go? {
          ApplyFlowNodes(b.local, gate, c.value, AgwObjects(l.agw, FinalValues(l.agw, id, a.value, c.value.On?), op), op.crypto, o);
        }
      }
    }
  }

  lemma TrustKeepsNodes(l: Local, values: StringMap, crypto: Crypto, o: Oracle)
    ensures TrustStage(l, values, crypto, o).local.nodes == l.nodes
  {
    hide HostAlias, ReconcileTrustBundle;
  }

  lemma RegistrationKeepsNodes(l: Local, id: Identity, crypto: Crypto, o: Oracle)
    ensures RegistrationStage(l, id, crypto, o).local.nodes == l.nodes
  {
    hide ReconcileRegistration;
  }

  lemma GateNotReady(l: Local, o: Oracle)
    requires DatapathStage(l, o).Go? && !DatapathStage(l, o).value.ready
    ensures !DatapathEvidence(l.objects, l.nodes, l.agw)
  {
  }

  lemma FlowNodes(l: Local, op: Operator, o: Oracle)
    ensures NodesFrom(l, MainFlow(l, op, o).local.nodes, o)
  {
    hide IdentityStage, DatapathStage, TrustFlow, ReconcileLabels, NodeSelector, DatapathEvidence;
    var a := IdentityStage(l, op.crypto, o);
    IdentityNodes(l, op.crypto, o);
    IdentityKeepsResource(l, op.crypto, o);
    if a.Go? {
      var b := DatapathStage(a.local, o);
      DatapathTrail(a.local, o);
      DatapathKeepsResource(a.local, o);
      if b.Go? {
        TrustFlowNodes(b.local, a.value, b.value, op, o);
        if !b.value.ready {
          GateNotReady(a.local, o);
          IdentityKeepsEvidence(l, op.crypto, o);
        }
      }
    }
  }

  lemma IdentityNodes(l: Local, crypto: Crypto, o: Oracle)
    ensures IdentityStage(l, crypto, o).local.nodes == l.nodes
  {
    hide ReconcileIdentity;
  }

  lemma IdentityKeepsEvidence(l: Local, crypto: Crypto, o: Oracle)
    ensures var s := IdentityStage(l, crypto, o);
      DatapathEvidence(l.objects, l.nodes, l.agw) ==> DatapathEvidence(s.local.objects, l.nodes, s.local.agw)
  {
    StoredTrail(l, crypto, o);
    IdentityKeepsResource(l, crypto, o);
    IdentityTouches(l.objects, l.agw, crypto, o, PrepKey(l.agw.namespace));
    hide IdentityStage, ReconcileIdentity, AnySelected, AllLabelled;
  }

  // ----- Each part of the measure -----

  lemma FlowRootCA(objects: Store, agw: Agw, op: Operator, o: Oracle, t: Trail)
    requires Trails(objects, agw, op, o, t) && TrustPosed(op, agw) && TamePass(objects, agw, op, o)
    ensures Same(objects, t.last, Orc8rCertKey(agw.spec))
    ensures RootCADistance(t.last, agw, op.crypto) <= RootCADistance(objects, agw, op.crypto)
  {
    hide Trails, OutsideManifest, AppliedByPass, ReleaseName, Orc8rNamespace, NmsCertSecretName, IdentitySecretName, CertSecretName, RootCA, HashedJob.Inspect, HashedJob.Moves, HashedJob.Distance, AgwObjects;
    hide TamePass, IdentityKey, CertKey;
    var k := Orc8rCertKey(agw.spec);
    TameSpares(objects, agw, op, o, k);
    TameSpares(objects, agw, op, o, RootCAJobKey(agw));
    TrailIdentity(objects, agw, op, o, t, k);
    FlowKeepsSecret(objects, agw, op, o, t, k);
    SameRootCA(objects, t.identified, agw.spec);
    SameRootCA(objects, t.last, agw.spec);
    var hash := op.crypto.sha(RootCA(objects, agw.spec));
    FlowRootCAJob(objects, agw, op, o, t);
    if Same(objects, t.last, RootCAJobKey(agw)) {
      SameInspect(objects, t.last, RootCAJobKey(agw), ROOT_CA_HASH, hash);
    } else {
      var body :| HashedJob.Moves(objects, t.last, RootCAJobKey(agw), ROOT_CA_HASH, hash, body);
      MovesDistance(objects, t.last, RootCAJobKey(agw), ROOT_CA_HASH, hash, body);
    }
  }

  lemma TrailIdentity(objects: Store, agw: Agw, op: Operator, o: Oracle, t: Trail, k: ObjectKey)
    requires Trails(objects, agw, op, o, t) && k != IdentityKey(agw)
    ensures Same(objects, t.identified, k)
  {
    IdentityTouches(objects, agw, op.crypto, o, k);
  }

  lemma FlowRegistration(objects: Store, nodes: seq<Node>, agw: Agw, op: Operator, o: Oracle, t: Trail, payload: string)
    requires Trails(objects, agw, op, o, t) && Spared(objects, agw, op, o, RegistrationJobKey(agw))
    requires PayloadOf(World(Some(agw), objects, nodes), op, o).None? || PayloadOf(World(Some(agw), objects, nodes), op, o) == Some(payload)
    ensures HashedJob.Distance(RegistrationView(t.last, agw, payload, op.crypto)) <= HashedJob.Distance(RegistrationView(objects, agw, payload, op.crypto))
  {
    hide Trails, OutsideManifest, AppliedByPass, PayloadOf, HashedJob.Inspect, HashedJob.Moves, HashedJob.Distance, Orc8rNamespace;
    FlowRegistrationJob(objects, nodes, agw, op, o, t);
    if Same(objects, t.last, RegistrationJobKey(agw)) {
      SameInspect(objects, t.last, RegistrationJobKey(agw), PAYLOAD_HASH, op.crypto.sha(payload));
    } else {
      MovesDistance(objects, t.last, RegistrationJobKey(agw), PAYLOAD_HASH, op.crypto.sha(payload), payload);
    }
  }

  lemma FlowGate(objects: Store, agw: Agw, op: Operator, o: Oracle, t: Trail)
    requires Trails(objects, agw, op, o, t) && Spared(objects, agw, op, o, GateKey(agw))
    ensures SimulatorEvidence(objects, agw) <==> SimulatorEvidence(t.last, agw)
  {
    hide Trails, OutsideManifest, AppliedByPass, ReleaseName, EqualFold;
    FlowFrame(objects, agw, op, o, t, GateKey(agw));
  }

  lemma FlowMagmalte(objects: Store, agw: Agw, op: Operator, o: Oracle, t: Trail)
    requires Trails(objects, agw, op, o, t) && Spared(objects, agw, op, o, MagmalteKey(agw.spec))
    ensures MagmalteImage(objects, agw.spec) == MagmalteImage(t.last, agw.spec)
  {
    hide ReconcileIdentity, ReconcileTrustBundle, ReconcileRegistration, ReconcileValidation, AgwObjects, FinalValues, PassValues, ApplyUpTo, OutsideManifest, AppliedByPass, ReleaseName, Orc8rNamespace;
    var id, k := ReconcileIdentity(objects, agw, op.crypto, o).identity, MagmalteKey(agw.spec);
    IdentityTouches(objects, agw, op.crypto, o, k);
    TrustLinkTouches(t.identified, t.trusted, agw, id, t.alias, op.crypto, o, k);
    RegistrationLinkTouches(t.trusted, t.registered, agw, id, op.crypto, o, k);
    ApplyAdds(objects, agw, op, o, t, k);
    ValidationTouches(t.rolled, agw, op.crypto, o);
    assert k in t.last <==> k in t.rolled;
    assert k in t.rolled ==> RolledFrom(t.rolled[k], t.last[k]);
  }

  lemma LabelsNotFurther(l: Local, after: Store, nodes: seq<Node>, o: Oracle)
    requires NodesFrom(l, nodes, o)
    requires PrepKey(l.agw.namespace) in l.objects ==>
      PrepKey(l.agw.namespace) in after && after[PrepKey(l.agw.namespace)].status == l.objects[PrepKey(l.agw.namespace)].status
    ensures LabelDistance(after, nodes, l.agw) <= LabelDistance(l.objects, l.nodes, l.agw)
  {
    hide ReconcileLabels, AnySelected, AllLabelled, NodeSelector;
  }

  lemma SelectionStays(before: seq<Node>, after: seq<Node>, selector: StringMap, key: string)
    requires OnlyReadyKeyChanges(before, after, selector, key) && key !in selector && AnySelected(before, selector)
    ensures AnySelected(after, selector)
  {
    var i :| 0 <= i < |before| && Selected(before[i], selector);
    SelectionKept(before[i], after[i], selector, key);
    assert Selected(after[i], selector);
  }

  lemma FlowSelection(l: Local, nodes: seq<Node>, o: Oracle)
    requires NodesFrom(l, nodes, o) && ReadyLabelKey(l.agw.spec.datapath) !in NodeSelector(l.agw.spec)
    requires AnySelected(l.nodes, NodeSelector(l.agw.spec))
    ensures AnySelected(nodes, NodeSelector(l.agw.spec))
  {
    hide ReconcileLabels, NodeSelector, AnySelected, OnlyReadyKeyChanges;
    if nodes != l.nodes {
      var store :| nodes == ReconcileLabels(l.nodes, store, l.agw.namespace, NodeSelector(l.agw.spec), l.agw.spec.datapath, o).nodes;
      LabelsFrame(l.nodes, store, l.agw.namespace, NodeSelector(l.agw.spec), l.agw.spec.datapath, o);
      SelectionStays(l.nodes, nodes, NodeSelector(l.agw.spec), ReadyLabelKey(l.agw.spec.datapath));
    }
  }
}
