/** How far a gateway is from Ready: the measure that every step of a calm run keeps or lowers. */
module AgwMeasure {
  import opened GoMaps
  import opened Objects
  import opened NativeRelease
  import opened AgwModel
  import opened AgwIdentity
  import opened AgwDatapath
  import opened AgwTrust
  import opened AgwRegistration
  import opened AgwPass
  import opened AgwReady
  import opened AgwFootprint
  import opened AgwFinalizer
  import opened AgwStability
  import HashedJob

  // ----- The measure -----

  ghost function RootCAView(store: Store, agw: Agw, crypto: Crypto): HashedJob.View {
    HashedJob.Inspect(store, RootCAJobKey(agw), ROOT_CA_HASH, crypto.sha(RootCA(store, agw.spec)))
  }

  ghost function RegistrationView(store: Store, agw: Agw, payload: string, crypto: Crypto): HashedJob.View {
    HashedJob.Inspect(store, RegistrationJobKey(agw), PAYLOAD_HASH, crypto.sha(payload))
  }

  ghost function RootCADistance(store: Store, agw: Agw, crypto: Crypto): nat {
    HashedJob.Distance(RootCAView(store, agw, crypto))
  }

  /** Before the identity is settled the payload is not known, so the Job may have to be replaced. */
  ghost function RegistrationDistance(store: Store, agw: Agw, crypto: Crypto): nat {
    if !RegistrationEnabled(agw.spec.registration) then 0
    else if !Settled(store, agw, crypto) || SettledPayload(store, agw, crypto).None? then 3
    else HashedJob.Distance(RegistrationView(store, agw, SettledPayload(store, agw, crypto).value, crypto))
  }

  /** Node-prep absent, not ready, nodes not labelled, all done. */
  ghost function LabelDistance(store: Store, nodes: seq<Node>, agw: Agw): nat {
    if DatapathEvidence(store, nodes, agw) then 0
    else if PrepReady(store, agw.namespace) then 1
    else if PrepKey(agw.namespace) in store then 2
    else 3
  }

  ghost function GateDistance(store: Store, agw: Agw): nat {
    if SimulatorEvidence(store, agw) then 0 else 1
  }

  ghost function ObjectMeasure(store: Store, nodes: seq<Node>, agw: Agw, crypto: Crypto): nat {
    RootCADistance(store, agw, crypto) + RegistrationDistance(store, agw, crypto) + LabelDistance(store, nodes, agw) + GateDistance(store, agw)
  }

  ghost function Measure(w: World, agw: Agw, crypto: Crypto): nat {
    (if HasFinalizer(w) then 0 else 1) + ObjectMeasure(w.objects, w.nodes, agw, crypto)
  }

  lemma MeasureBounded(w: World, agw: Agw, crypto: Crypto)
    ensures Measure(w, agw, crypto) <= 11
  {
    hide Settled, SettledPayload, DatapathEvidence, SimulatorEvidence, RootCAView, RegistrationView;
  }

  // ----- What is taken for granted -----

  /** What the root CA Job relies on: its name and the Orc8r certificate Secret are used for nothing else. */
  ghost predicate TrustPosed(op: Operator, agw: Agw) {
    && OutsideManifest(op, agw, RootCAJobKey(agw)) && OutsideManifest(op, agw, Orc8rCertKey(agw.spec))
    && Orc8rCertKey(agw.spec) != IdentityKey(agw) && Orc8rCertKey(agw.spec) != CertKey(agw)
  }

  /** What the registration Job relies on: its name is used for nothing else, and the identity can settle. */
  ghost predicate RegistrationPosed(op: Operator, agw: Agw) {
    && OutsideManifest(op, agw, RegistrationJobKey(agw))
    && !Rotates(agw) && ImportStable(agw) && KeysAreTexts(op.crypto) && IdentityApart(op, agw)
  }

  /** Facts about the specification and the manifest. */
  ghost predicate WellPosed(op: Operator, agw: Agw) {
    && !agw.deleting && TrustPosed(op, agw) && RegistrationPosed(op, agw)
    && OutsideManifest(op, agw, GateKey(agw)) && OutsideManifest(op, agw, MagmalteKey(agw.spec))
    && (RegistrationEnabled(agw.spec.registration) ==>
          agw.spec.networkID != "" && agw.spec.accessGatewayID != "" && forall id :: op.crypto.json(GatewayPayload(agw, id)).Some?)
    && (DatapathGateEnabled(agw.spec.datapath) ==>
          && NodeSelector(agw.spec) != map[] && ReadyLabelKey(agw.spec.datapath) !in NodeSelector(agw.spec)
          && Lists(AgwObjects(agw, map[], op), PrepKey(agw.namespace)))
    && (agw.spec.enableUERANSIM ==> StartPolicy(agw.spec) in {"Immediate", "AfterAGWReady"})
  }

  /** The key that the pass will use can be turned into a public key. */
  ghost predicate Identifiable(store: Store, agw: Agw, crypto: Crypto) {
    var request := DesiredPrivateKey(store, agw, crypto, false);
    var stored := Get(ObjectOrBlank(store, IdentityKey(agw)).data, KEY);
    && !request.BadKey?
    && (request.WantedKey? ==> crypto.publicKey(request.pem).Some?)
    && (request.NoKey? && stored != "" ==> crypto.publicKey(stored).Some?)
  }

  /** The prerequisites that others provide. */
  ghost predicate Provided(store: Store, nodes: seq<Node>, agw: Agw, crypto: Crypto) {
    && Identifiable(store, agw, crypto)
    && Orc8rCertKey(agw.spec) in store && RootCA(store, agw.spec) != ""
    && (RegistrationEnabled(agw.spec.registration) ==> MagmalteImage(store, agw.spec) != "")
    && (DatapathGateEnabled(agw.spec.datapath) ==> AnySelected(nodes, NodeSelector(agw.spec)))
  }

  /** A pass in which no request fails, nobody edits the resource, and the values stay within their lines. */
  ghost predicate Smooth(w: World, op: Operator, o: Oracle) {
    && o.failing == {} && op.crypto.publicKey(o.newKey).Some?
    && o.applyStop.Never? && o.labelStop >= |w.nodes|
    && (forall k :: o.annotated(k)) && (forall k :: o.podsDeleted(k))
    && Live(w.cr, o) == w.cr
    && (w.cr.Some? ==> TamePass(w.objects, w.cr.value, op, o))
  }

  // ----- Distances of Jobs -----

  /** A visit never takes a Job further away, and takes it closer whenever it changes it. */
  lemma MovesDistance(a: Store, b: Store, key: ObjectKey, annotation: string, hash: string, body: string)
    requires HashedJob.Moves(a, b, key, annotation, hash, body)
    ensures HashedJob.Distance(HashedJob.Inspect(b, key, annotation, hash)) <= HashedJob.Distance(HashedJob.Inspect(a, key, annotation, hash))
    ensures key in a && key !in b ==> HashedJob.Inspect(a, key, annotation, hash).Stale?
    ensures key !in a && key in b ==> HashedJob.Inspect(b, key, annotation, hash).Running?
  {
  }

  /** Without faults a visit takes the Job closer unless it is credited or has to be waited for. */
  lemma AdvanceDrops(store: Store, key: ObjectKey, annotation: string, hash: string, body: string)
    ensures var view := HashedJob.Inspect(store, key, annotation, hash);
      var after := HashedJob.Advance(store, key, annotation, hash, body, HashedJob.Faults(false, false, false));
      && (after.outcome.Credited? <==> view.Succeeded?)
      && (view.Succeeded? || view.Running? || view.Failed?
          || HashedJob.Distance(HashedJob.Inspect(after.store, key, annotation, hash)) < HashedJob.Distance(view))
  {
  }
}
