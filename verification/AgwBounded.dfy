/** Progress of one smooth pass, and the bound on how many of them are needed. */
module AgwBounded {
  import opened Objects
  import opened NativeRelease
  import opened AgwModel
  import opened AgwIdentity
  import opened AgwDatapath
  import opened AgwTrust
  import opened AgwRegistration
  import opened AgwValues
  import opened AgwPass
  import opened AgwRuns
  import opened AgwReady
  import opened AgwTrail
  import opened AgwFootprint
  import opened AgwFinalizer
  import opened AgwStability
  import opened AgwMeasure
  import opened AgwProgress
  import opened AgwConvergence
  import opened AgwFlowMeasure
  import HashedJob

  // ----- One flow -----

  lemma PosedRegistration(op: Operator, agw: Agw)
    requires WellPosed(op, agw)
    ensures TrustPosed(op, agw) && RegistrationPosed(op, agw) && !agw.deleting
  {
    hide TrustPosed, RegistrationPosed, OutsideManifest, AgwObjects, GatewayPayload;
  }

  lemma PosedParts(op: Operator, agw: Agw)
    requires WellPosed(op, agw)
    ensures FlowPosed(agw)
  {
    hide OutsideManifest, AgwObjects, IdentityApart, KeysAreTexts, GatewayPayload;
  }

  /** A flow in which nothing fails reports Ready, lowers a part of the measure, or has to wait. */
  lemma SmoothFlow(l: Local, op: Operator, o: Oracle, id: Identity, payload: string)
    requires WellPosed(op, l.agw) && Provided(l.objects, l.nodes, l.agw, op.crypto) && SmoothOracle(l.nodes, op, o)
    requires TamePass(l.objects, l.agw, op, o)
    requires ReconcileIdentity(l.objects, l.agw, op.crypto, o).identity == Some(id)
    requires RegistrationEnabled(l.agw.spec.registration) ==> op.crypto.json(GatewayPayload(l.agw, id)) == Some(payload)
    ensures var out := MainFlow(l, op, o);
      || out.write.status.True?
      || Advances(l.objects, l.nodes, out.local.objects, out.local.nodes, l.agw, payload, op.crypto)
      || WaitsFor(l.objects, l.agw, payload, op.crypto)
  {
    hide IdentityStage, DatapathStage, TrustFlow, ReconcileIdentity, WellPosed, Provided, TamePass, HostAlias, ListsPrep, KeysAreTexts, SameProtocol, SmoothOracle, GatewayPayload, Orc8rCertKey, IdentityKey;
    hide Advances, WaitsFor, DatapathEvidence, Identifiable, Rotates, NodeSelector, PassValues, LabelDistance;
    var crypto := op.crypto;
    OracleParts(l.nodes, op, o);
    PosedFacts(op, l.agw);
    ProvidedFacts(l.objects, l.nodes, l.agw, crypto);
    SmoothIdentity(l, op, o);
    StoredTrail(l, crypto, o);
    var a := IdentityStage(l, crypto, o);
    IdentityNodes(l, crypto, o);
    IdentityKeepsResource(l, crypto, o);
    IdentityKeepsProtocol(l, crypto, o);
    SmoothDatapath(a.local, o);
    var b := DatapathStage(a.local, o);
    DatapathTrail(a.local, o);
    DatapathKeepsResource(a.local, o);
    LabelsMove(l.objects, a.local.objects, l.nodes, l.agw, a.local.agw);
    PrepListed(l, b.local, op, o, id);
    SmoothAfterIdentity(l, b.local, b.value, id, payload, op, o);
  }

  lemma SmoothAfterIdentity(l: Local, b: Local, gate: Gate, id: Identity, payload: string, op: Operator, o: Oracle)
    requires WellPosed(op, l.agw) && Provided(l.objects, l.nodes, l.agw, op.crypto) && SmoothOracle(l.nodes, op, o)
    requires RegistrationEnabled(l.agw.spec.registration) ==> op.crypto.json(GatewayPayload(l.agw, id)) == Some(payload)
    requires SameProtocol(l.objects, b.objects, l.agw) && SameResource(l.agw, b.agw) && b.nodes == l.nodes
    requires ListsPrep(b, id, HostAlias(b.objects, b.agw.spec, PassValues(b.agw, id), o.failing), op)
    requires gate.enabled == DatapathGateEnabled(l.agw.spec.datapath) && (gate.ready <==> DatapathEvidence(l.objects, l.nodes, l.agw))
    ensures var out := TrustFlow(b, id, gate, op, o);
      || out.write.status.True?
      || Advances(l.objects, l.nodes, out.local.objects, out.local.nodes, l.agw, payload, op.crypto)
      || WaitsFor(l.objects, l.agw, payload, op.crypto)
  {
    hide TrustFlow, WellPosed, Provided, HostAlias, ListsPrep, SameProtocol, FlowPosed, SmoothOracle, GatewayPayload, NodeSelector, PassValues;
    hide RootCAView, RegistrationView, LabelDistance, DatapathEvidence, SimulatorEvidence, PrepReady, RootCA, MagmalteImage, AnySelected, HashedJob.Distance, Identifiable;
    var crypto := op.crypto;
    PosedParts(op, l.agw);
    FlowPosedSame(l.agw, b.agw);
    ProvidedFacts(l.objects, l.nodes, l.agw, crypto);
    CertPresent(l.objects, b.objects, l.agw);
    ViewsMove(l.objects, b.objects, l.agw, b.agw, payload, crypto);
    LabelsMove(l.objects, b.objects, l.nodes, l.agw, b.agw);
    PayloadIgnoresStatus(l.agw, b.agw, id);
    SmoothTrustFlow(b, id, gate, payload, op, o);
    var out := TrustFlow(b, id, gate, op, o);
    Reflexive(out.local.objects, l.agw);
    ViewsMove(out.local.objects, out.local.objects, l.agw, b.agw, payload, crypto);
    LabelsMove(out.local.objects, out.local.objects, out.local.nodes, l.agw, b.agw);
  }

  /** A gated pass with tame values applies node-prep. */
  lemma PrepListed(l: Local, b: Local, op: Operator, o: Oracle, id: Identity)
    requires WellPosed(op, l.agw) && TamePass(l.objects, l.agw, op, o)
    requires ReconcileIdentity(l.objects, l.agw, op.crypto, o).identity == Some(id)
    requires SameResource(l.agw, b.agw) && b.objects == ReconcileIdentity(l.objects, l.agw, op.crypto, o).store
    ensures ListsPrep(b, id, HostAlias(b.objects, b.agw.spec, PassValues(b.agw, id), o.failing), op)
  {
    ValuesIgnoreStatus(l.agw, b.agw, id);
    if DatapathGateEnabled(b.agw.spec.datapath) {
      assert Lists(AgwObjects(l.agw, map[], op), PrepKey(l.agw.namespace));
      hide WellPosed, TamePass, ReconcileIdentity, HostAlias, PassValues, FinalValues, AgwObjects;
      var alias := HostAlias(b.objects, b.agw.spec, PassValues(b.agw, id), o.failing);
      forall simulator: bool
        ensures Lists(AgwObjects(b.agw, FinalValues(b.agw, id, alias, simulator), op), PrepKey(b.agw.namespace))
      {
        TameListing(l.objects, l.agw, op, o, PrepKey(l.agw.namespace), simulator);
        ObjectsIgnoreStatus(l.agw, b.agw, id, alias, simulator, op);
      }
    }
  }

  lemma PosedFacts(op: Operator, agw: Agw)
    requires WellPosed(op, agw)
    ensures !Rotates(agw) && KeysAreTexts(op.crypto) && Orc8rCertKey(agw.spec) != IdentityKey(agw)
    ensures DatapathGateEnabled(agw.spec.datapath) ==> NodeSelector(agw.spec) != map[]
  {
    hide OutsideManifest, AgwObjects, GatewayPayload, IdentityApart;
  }

  lemma ProvidedFacts(store: Store, nodes: seq<Node>, agw: Agw, crypto: Crypto)
    requires Provided(store, nodes, agw, crypto)
    ensures Identifiable(store, agw, crypto) && Orc8rCertKey(agw.spec) in store && RootCA(store, agw.spec) != ""
    ensures RegistrationEnabled(agw.spec.registration) ==> MagmalteImage(store, agw.spec) != ""
    ensures DatapathGateEnabled(agw.spec.datapath) ==> AnySelected(nodes, NodeSelector(agw.spec))
  {
    hide Identifiable, RootCA, MagmalteImage, AnySelected;
  }

  lemma OracleParts(nodes: seq<Node>, op: Operator, o: Oracle)
    requires SmoothOracle(nodes, op, o)
    ensures o.failing == {} && op.crypto.publicKey(o.newKey).Some?
  {
  }

  lemma CertPresent(a: Store, b: Store, agw: Agw)
    requires SameProtocol(a, b, agw)
    ensures Orc8rCertKey(agw.spec) in a <==> Orc8rCertKey(agw.spec) in b
    ensures PrepKey(agw.namespace) in a <==> PrepKey(agw.namespace) in b
  {
  }

  lemma PayloadIgnoresStatus(a: Agw, b: Agw, id: Identity)
    requires SameResource(a, b)
    ensures GatewayPayload(a, id) == GatewayPayload(b, id)
  {
  }

  // ----- Identity -----

  lemma IdentityRead(store: Store, agw: Agw, crypto: Crypto, o: Oracle)
    requires ReconcileIdentity(store, agw, crypto, o).identity.Some?
    ensures var step := ReconcileIdentity(store, agw, crypto, o);
      IdentityKey(agw) in step.store && step.identity == ReadIdentity(step.store[IdentityKey(agw)], agw, crypto)
  {
    hide WithIdentity, ChosenHardwareId, ReadIdentity, DesiredPrivateKey;
  }

  /** After a successful identity step the pass's own payload is the settled one. */
  lemma FlowIdentity(objects: Store, agw: Agw, op: Operator, o: Oracle, t: Trail, id: Identity)
    requires Trails(objects, agw, op, o, t) && IdentityApart(op, agw) && !Rotates(agw) && ImportStable(agw) && KeysAreTexts(op.crypto)
    requires TamePass(objects, agw, op, o)
    requires ReconcileIdentity(objects, agw, op.crypto, o).identity == Some(id)
    ensures Settled(t.last, agw, op.crypto) && SettledPayload(t.last, agw, op.crypto) == op.crypto.json(GatewayPayload(agw, id))
    ensures Settled(objects, agw, op.crypto) ==> SettledPayload(objects, agw, op.crypto) == op.crypto.json(GatewayPayload(agw, id))
    ensures Identifiable(t.last, agw, op.crypto)
  {
    hide ReconcileIdentity, TamePass, IdentityApart, KeysAreTexts, GatewayPayload, Consistent, AsRequested, ReadIdentity, IdentityUndisturbed, IdentitySecretName, DesiredPrivateKey, Rotates, Identifiable;
    IdentitySettles(objects, agw, op.crypto, o);
    IdentityRead(objects, agw, op.crypto, o);
    assert t.identified == ReconcileIdentity(objects, agw, op.crypto, o).store;
    FlowKeepsIdentity(objects, agw, op, o, t);
    SettledMoves(t.identified, t.last, agw, op.crypto);
    if Settled(objects, agw, op.crypto) {
      SettledStays(objects, agw, op.crypto, o);
    }
    SettledIdentifiable(t.last, agw, op.crypto);
  }

  lemma SettledIdentifiable(store: Store, agw: Agw, crypto: Crypto)
    requires Settled(store, agw, crypto)
    ensures Identifiable(store, agw, crypto)
  {
    hide DesiredPrivateKey, IdentitySecretName;
  }

  // ----- The measure of one flow -----

  lemma RegistrationBound(store: Store, agw: Agw, crypto: Crypto)
    ensures RegistrationDistance(store, agw, crypto) <= 3
  {
    hide Settled, SettledPayload, RegistrationView;
  }

  lemma RegistrationIs(store: Store, agw: Agw, crypto: Crypto, payload: string)
    requires RegistrationEnabled(agw.spec.registration) && Settled(store, agw, crypto) && SettledPayload(store, agw, crypto) == Some(payload)
    ensures RegistrationDistance(store, agw, crypto) == HashedJob.Distance(RegistrationView(store, agw, payload, crypto))
  {
    hide Consistent, AsRequested, SettledPayload, RegistrationView;
  }

  lemma DistanceSmall(view: HashedJob.View)
    ensures HashedJob.Distance(view) <= 3
    ensures InFlight(view) ==> HashedJob.Distance(view) == 1
  {
  }

  /** The registration part: it never grows, and it drops if the Job drops or if it was not known before. */
  lemma FlowRegistrationDistance(objects: Store, nodes: seq<Node>, agw: Agw, op: Operator, o: Oracle, t: Trail, id: Identity, payload: string)
    requires Trails(objects, agw, op, o, t) && RegistrationPosed(op, agw) && TamePass(objects, agw, op, o)
    requires ReconcileIdentity(objects, agw, op.crypto, o).identity == Some(id)
    requires RegistrationEnabled(agw.spec.registration) ==> op.crypto.json(GatewayPayload(agw, id)) == Some(payload)
    ensures RegistrationDistance(t.last, agw, op.crypto) <= RegistrationDistance(objects, agw, op.crypto)
    ensures (&& RegistrationEnabled(agw.spec.registration)
             && HashedJob.Distance(RegistrationView(t.last, agw, payload, op.crypto)) < HashedJob.Distance(RegistrationView(objects, agw, payload, op.crypto)))
      ==> RegistrationDistance(t.last, agw, op.crypto) < RegistrationDistance(objects, agw, op.crypto)
    ensures (RegistrationEnabled(agw.spec.registration) && InFlight(RegistrationView(objects, agw, payload, op.crypto)))
      ==> (|| RegistrationDistance(t.last, agw, op.crypto) < RegistrationDistance(objects, agw, op.crypto)
           || (Settled(objects, agw, op.crypto) && SettledPayload(objects, agw, op.crypto) == Some(payload)))
  {
    hide RegistrationPosed, TamePass, Trails, ReconcileIdentity, Settled, SettledPayload, RegistrationView, GatewayPayload, HashedJob.Distance, InFlight;
    if RegistrationEnabled(agw.spec.registration) {
      KnownPayload(objects, nodes, agw, op, o, t, id, payload);
      RegistrationIs(t.last, agw, op.crypto, payload);
      DistanceSmall(RegistrationView(objects, agw, payload, op.crypto));
      DistanceSmall(RegistrationView(t.last, agw, payload, op.crypto));
      if Settled(objects, agw, op.crypto) {
        RegistrationIs(objects, agw, op.crypto, payload);
      } else {
        Unknown(objects, agw, op.crypto);
      }
    }
  }

  lemma KnownPayload(objects: Store, nodes: seq<Node>, agw: Agw, op: Operator, o: Oracle, t: Trail, id: Identity, payload: string)
    requires Trails(objects, agw, op, o, t) && RegistrationPosed(op, agw) && TamePass(objects, agw, op, o)
    requires ReconcileIdentity(objects, agw, op.crypto, o).identity == Some(id) && op.crypto.json(GatewayPayload(agw, id)) == Some(payload)
    ensures Settled(t.last, agw, op.crypto) && SettledPayload(t.last, agw, op.crypto) == Some(payload)
    ensures Settled(objects, agw, op.crypto) ==> SettledPayload(objects, agw, op.crypto) == Some(payload)
    ensures HashedJob.Distance(RegistrationView(t.last, agw, payload, op.crypto)) <= HashedJob.Distance(RegistrationView(objects, agw, payload, op.crypto))
  {
    hide TamePass, Spared, OutsideManifest, Trails, ReconcileIdentity, Settled, SettledPayload, RegistrationView, GatewayPayload, HashedJob.Distance, IdentityApart, KeysAreTexts, Rotates, RegistrationJobKey;
    TameSpares(objects, agw, op, o, RegistrationJobKey(agw));
    FlowIdentity(objects, agw, op, o, t, id);
    FlowRegistration(objects, nodes, agw, op, o, t, payload);
  }

  lemma Unknown(store: Store, agw: Agw, crypto: Crypto)
    requires RegistrationEnabled(agw.spec.registration) && !Settled(store, agw, crypto)
    ensures RegistrationDistance(store, agw, crypto) == 3
  {
    hide Settled;
  }

  // ----- Progress of one flow -----

  /** Only the rest of the cluster can make the next move: a Job to finish, node-prep to get ready, the gate to open. */
  ghost predicate Waiting(store: Store, agw: Agw, crypto: Crypto) {
    || (PvcKey(agw) in store && InFlight(RootCAView(store, agw, crypto)))
    || (&& RegistrationEnabled(agw.spec.registration) && Settled(store, agw, crypto) && SettledPayload(store, agw, crypto).Some?
        && InFlight(RegistrationView(store, agw, SettledPayload(store, agw, crypto).value, crypto)))
    || (DatapathGateEnabled(agw.spec.datapath) && PrepKey(agw.namespace) in store && !PrepReady(store, agw.namespace))
    || !SimulatorEvidence(store, agw)
  }

  /** The identity and the payload of a smooth flow. */
  lemma SmoothPayload(l: Local, op: Operator, o: Oracle) returns (id: Identity, payload: string)
    requires WellPosed(op, l.agw) && Provided(l.objects, l.nodes, l.agw, op.crypto) && SmoothOracle(l.nodes, op, o)
    ensures ReconcileIdentity(l.objects, l.agw, op.crypto, o).identity == Some(id)
    ensures RegistrationEnabled(l.agw.spec.registration) ==> op.crypto.json(GatewayPayload(l.agw, id)) == Some(payload)
  {
    hide ReconcileIdentity, OutsideManifest, IdentityApart, GatewayPayload, Identifiable, AgwObjects, RootCA, MagmalteImage, AnySelected, Rotates, KeysAreTexts, IdentityStage;
    SmoothIdentity(l, op, o);
    StoredTrail(l, op.crypto, o);
    id := IdentityStage(l, op.crypto, o).value;
    payload := if RegistrationEnabled(l.agw.spec.registration) then op.crypto.json(GatewayPayload(l.agw, id)).value else "";
  }

  /** The other three parts of the measure do not grow, and the prerequisites stay. */
  lemma FlowKeepsRest(l: Local, op: Operator, o: Oracle, t: Trail, id: Identity)
    requires Trails(l.objects, l.agw, op, o, t) && t.last == MainFlow(l, op, o).local.objects
    requires WellPosed(op, l.agw) && Provided(l.objects, l.nodes, l.agw, op.crypto) && TamePass(l.objects, l.agw, op, o)
    requires ReconcileIdentity(l.objects, l.agw, op.crypto, o).identity == Some(id)
    ensures var out := MainFlow(l, op, o).local;
      && RootCADistance(out.objects, l.agw, op.crypto) <= RootCADistance(l.objects, l.agw, op.crypto)
      && LabelDistance(out.objects, out.nodes, l.agw) <= LabelDistance(l.objects, l.nodes, l.agw)
      && GateDistance(out.objects, l.agw) == GateDistance(l.objects, l.agw)
      && Provided(out.objects, out.nodes, l.agw, op.crypto)
  {
    hide MainFlow, Trails, ReconcileIdentity, TamePass, Spared, OutsideManifest, IdentityApart, GatewayPayload, AgwObjects, MagmalteImage, AnySelected, Rotates, KeysAreTexts;
    hide RootCADistance, LabelDistance, SimulatorEvidence, NodesFrom, Settled, SettledPayload, Identifiable, StartPolicy, NodeSelector, ReleaseName, Orc8rNamespace, NmsCertSecretName;
    FlowRootCA(l.objects, l.agw, op, o, t);
    FlowIdentity(l.objects, l.agw, op, o, t, id);
    TameSpares(l.objects, l.agw, op, o, GateKey(l.agw));
    TameSpares(l.objects, l.agw, op, o, MagmalteKey(l.agw.spec));
    FlowGate(l.objects, l.agw, op, o, t);
    FlowMagmalte(l.objects, l.agw, op, o, t);
    FlowKeepsDaemon(l.objects, l.agw, op, o, t, PrepKey(l.agw.namespace));
    FlowNodes(l, op, o);
    LabelsNotFurther(l, t.last, MainFlow(l, op, o).local.nodes, o);
    if DatapathGateEnabled(l.agw.spec.datapath) {
      FlowSelection(l, MainFlow(l, op, o).local.nodes, o);
    }
  }

  lemma FlowProgress(l: Local, op: Operator, o: Oracle)
    requires WellPosed(op, l.agw) && Provided(l.objects, l.nodes, l.agw, op.crypto) && SmoothOracle(l.nodes, op, o)
    requires TamePass(l.objects, l.agw, op, o)
    ensures var out := MainFlow(l, op, o);
      && Provided(out.local.objects, out.local.nodes, l.agw, op.crypto)
      && ObjectMeasure(out.local.objects, out.local.nodes, l.agw, op.crypto) <= ObjectMeasure(l.objects, l.nodes, l.agw, op.crypto)
      && (|| out.write.status.True?
          || ObjectMeasure(out.local.objects, out.local.nodes, l.agw, op.crypto) < ObjectMeasure(l.objects, l.nodes, l.agw, op.crypto)
          || Waiting(l.objects, l.agw, op.crypto))
  {
    hide MainFlow, Trails, ReconcileIdentity, WellPosed, RegistrationPosed, TamePass, Provided, SmoothOracle, GatewayPayload, Settled, SettledPayload, InFlight, HashedJob.Distance;
    hide RootCAView, RegistrationView, RootCADistance, LabelDistance, RegistrationDistance, GateDistance, SimulatorEvidence, PrepReady, PvcKey;
    var id, payload := SmoothPayload(l, op, o);
    var t := FlowTrail(l, op, o);
    assert RegistrationPosed(op, l.agw) by { PosedRegistration(op, l.agw); }
    FlowRegistrationDistance(l.objects, l.nodes, l.agw, op, o, t, id, payload);
    FlowKeepsRest(l, op, o, t, id);
    SmoothFlow(l, op, o, id, payload);
  }

  // ----- Progress of one pass -----

  /** The resource as a pass without conflicts leaves it: same specification, with the finalizer. */
  predicate Kept(w: World, agw: Agw) {
    && w.cr.Some? && w.cr.value.spec == agw.spec && w.cr.value.name == agw.name && w.cr.value.namespace == agw.namespace
    && w.cr.value.deleting == agw.deleting
  }

  /** Ready=True, for the current generation. */
  predicate ReadyNow(w: World) {
    w.cr.Some? && ConditionIs(w.cr.value.status, ConditionType.Ready, True) && w.cr.value.status.observedGeneration == w.cr.value.generation
  }

  /** A smooth pass reports Ready, lowers the measure, or waits; it never raises the measure. */
  lemma PassProgress(w: World, op: Operator, o: Oracle)
    requires w.cr.Some? && WellPosed(op, w.cr.value) && Provided(w.objects, w.nodes, w.cr.value, op.crypto) && Smooth(w, op, o)
    ensures var w' := Pass(w, op, o).world;
      && Kept(w', w.cr.value)
      && Provided(w'.objects, w'.nodes, w.cr.value, op.crypto)
      && Measure(w', w.cr.value, op.crypto) <= Measure(w, w.cr.value, op.crypto)
      && (|| ReadyNow(w')
          || Measure(w', w.cr.value, op.crypto) < Measure(w, w.cr.value, op.crypto)
          || Waiting(w.objects, w.cr.value, op.crypto))
  {
    hide WellPosed, Provided, ObjectMeasure, Waiting, MainFlow, Pass, SmoothOracle, Smooth, TamePass;
    var agw := w.cr.value;
    SmoothParts(w, op, o);
    if HasFinalizer(w) {
      PassIsFlow(w, op, o);
      FlowProgress(Local(w.objects, w.nodes, agw), op, o);
    } else {
      AddsFinalizer(w, op, o);
    }
  }

  lemma SmoothParts(w: World, op: Operator, o: Oracle)
    requires w.cr.Some? && WellPosed(op, w.cr.value) && Smooth(w, op, o)
    ensures !w.cr.value.deleting && o.failing == {} && Live(w.cr, o) == w.cr && SmoothOracle(w.nodes, op, o)
    ensures TamePass(w.objects, w.cr.value, op, o)
  {
    hide TrustPosed, RegistrationPosed, OutsideManifest, AgwObjects, GatewayPayload, Live, TamePass;
  }

  lemma PassIsFlow(w: World, op: Operator, o: Oracle)
    requires HasFinalizer(w) && !w.cr.value.deleting && o.failing == {} && Live(w.cr, o) == w.cr
    ensures var out := MainFlow(Local(w.objects, w.nodes, w.cr.value), op, o);
      var w' := Pass(w, op, o).world;
      && w'.objects == out.local.objects && w'.nodes == out.local.nodes
      && Kept(w', w.cr.value) && HasFinalizer(w')
      && (out.write.status.True? <==> ReadyNow(w'))
  {
    hide MainFlow, DeletionPass;
    FlowKeepsResource(Local(w.objects, w.nodes, w.cr.value), op, o);
  }

  lemma AddsFinalizer(w: World, op: Operator, o: Oracle)
    requires w.cr.Some? && !HasFinalizer(w) && !w.cr.value.deleting && o.failing == {} && Live(w.cr, o) == w.cr
    ensures var w' := Pass(w, op, o).world;
      w'.objects == w.objects && w'.nodes == w.nodes && Kept(w', w.cr.value) && HasFinalizer(w')
  {
    hide MainFlow, DeletionPass;
  }

  // ----- Ready exactly on evidence -----

  /** With the evidence at hand nothing is left to advance or to wait for. */
  lemma EvidenceSettles(w: World, op: Operator, o: Oracle, agw: Agw, id: Identity, payload: string, after: Store, nodes: seq<Node>)
    requires w.cr == Some(agw) && Evidence(w, op, o, agw, id) && Orc8rCertKey(agw.spec) != IdentityKey(agw)
    requires RegistrationEnabled(agw.spec.registration) ==> op.crypto.json(GatewayPayload(agw, id)) == Some(payload)
    ensures !Advances(w.objects, w.nodes, after, nodes, agw, payload, op.crypto)
    ensures !WaitsFor(w.objects, agw, payload, op.crypto)
  {
    hide ReconcileIdentity, GatewayPayload, RootCA, SimulatorEvidence, DatapathEvidence, PrepReady, IdentityStage, SameProtocol, JobDone, HashedJob.Inspect, ReleaseName, Orc8rNamespace;
    var l := Local(w.objects, w.nodes, agw);
    var found := ReconcileIdentity(w.objects, agw, op.crypto, o).store;
    StoredTrail(l, op.crypto, o);
    IdentityKeepsProtocol(l, op.crypto, o);
    ViewsMove(w.objects, found, agw, agw, payload, op.crypto);
    if PvcKey(agw) in found {
      DoneIsSucceeded(found, RootCAJobKey(agw), ROOT_CA_HASH, op.crypto.sha(RootCA(found, agw.spec)));
    }
    if RegistrationEnabled(agw.spec.registration) {
      DoneIsSucceeded(w.objects, RegistrationJobKey(agw), PAYLOAD_HASH, op.crypto.sha(payload));
    }
    if DatapathGateEnabled(agw.spec.datapath) {
      PreparedMeansReady(w, agw);
    }
  }

  lemma DoneIsSucceeded(store: Store, key: ObjectKey, annotation: string, hash: string)
    requires JobDone(store, key, annotation, hash)
    ensures HashedJob.Inspect(store, key, annotation, hash).Succeeded?
  {
  }

  lemma PreparedMeansReady(w: World, agw: Agw)
    requires DatapathEvidence(w.objects, w.nodes, agw) && DatapathGateEnabled(agw.spec.datapath)
    ensures PrepReady(w.objects, agw.namespace)
  {
  }

  /** Without faults, a flow decides for Ready=True exactly when it has the evidence. */
  lemma FlowReadyExact(w: World, op: Operator, o: Oracle)
    requires w.cr.Some? && WellPosed(op, w.cr.value) && Provided(w.objects, w.nodes, w.cr.value, op.crypto) && SmoothOracle(w.nodes, op, o)
    requires TamePass(w.objects, w.cr.value, op, o)
    ensures MainFlow(Local(w.objects, w.nodes, w.cr.value), op, o).write.status.True? <==> exists id :: Evidence(w, op, o, w.cr.value, id)
  {
    hide MainFlow, Provided, WellPosed, SmoothOracle, TamePass, Evidence, Advances, WaitsFor, GatewayPayload, ReconcileIdentity, ReadyConditions;
    var agw := w.cr.value;
    var l := Local(w.objects, w.nodes, agw);
    var out := MainFlow(l, op, o);
    assert World(Some(l.agw), l.objects, l.nodes) == w;
    if out.write.status.True? {
      MainFlowReady(l, op, o);
    }
    if id0 :| Evidence(w, op, o, agw, id0) {
      var id, payload := SmoothPayload(l, op, o);
      SameIdentity(w, op, o, agw, id0, id);
      SmoothFlow(l, op, o, id, payload);
      assert Orc8rCertKey(agw.spec) != IdentityKey(agw) by { PosedKeys(op, agw); }
      EvidenceSettles(w, op, o, agw, id, payload, out.local.objects, out.local.nodes);
    }
  }

  lemma SameIdentity(w: World, op: Operator, o: Oracle, agw: Agw, a: Identity, b: Identity)
    requires Evidence(w, op, o, agw, a) && ReconcileIdentity(w.objects, agw, op.crypto, o).identity == Some(b)
    ensures a == b
  {
    hide ReconcileIdentity, TrustEvidence, RegistrationEvidence, DatapathEvidence, SimulatorEvidence;
  }

  lemma PosedKeys(op: Operator, agw: Agw)
    requires WellPosed(op, agw)
    ensures Orc8rCertKey(agw.spec) != IdentityKey(agw)
  {
    hide OutsideManifest, AgwObjects, IdentityApart, KeysAreTexts, GatewayPayload;
  }

  /** A smooth pass persists Ready=True for the current generation exactly when the evidence is there. */
  lemma PassReadyExact(w: World, op: Operator, o: Oracle)
    requires HasFinalizer(w) && WellPosed(op, w.cr.value) && Provided(w.objects, w.nodes, w.cr.value, op.crypto) && Smooth(w, op, o)
    ensures ReadyNow(Pass(w, op, o).world) <==> exists id :: Evidence(w, op, o, w.cr.value, id)
  {
    hide MainFlow, Provided, WellPosed, SmoothOracle, TamePass, Evidence, Pass, Smooth;
    SmoothParts(w, op, o);
    PassIsFlow(w, op, o);
    FlowReadyExact(w, op, o);
  }
}
