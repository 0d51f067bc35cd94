/** The evidence for Ready=True, in the names, annotations and counts of the objects themselves. */
module AgwEvidence {
  import opened GoMaps
  import opened Objects
  import opened NativeRelease
  import opened AgwModel
  import opened AgwIdentity
  import opened AgwDatapath
  import opened AgwTrust
  import opened AgwRegistration
  import opened AgwValidation
  import opened AgwPass
  import opened AgwRuns
  import opened AgwReady
  import opened AgwHistory
  import opened AgwFootprint
  import opened AgwJobs
  import opened AgwCredit
  import opened AgwCarried
  import opened AgwSimulator
  import opened AgwPrepared
  import ValidationKey

  /** A Job of this name was created for this hash and has succeeded. */
  predicate Succeeded(store: Store, namespace: string, name: string, annotation: string, hash: string) {
    var k := ObjectKey(Job, namespace, name);
    k in store && Get(store[k].annotations, annotation) == hash && store[k].status.succeeded > 0
  }

  /** The Orc8r certificate Secret has a root CA, and if the volume claim exists the root CA Job for it has succeeded. */
  predicate RootCAThere(store: Store, agw: Agw, crypto: Crypto) {
    var release := OrDefault(agw.spec.releaseName, agw.name);
    var certs := ObjectKey(Secret, OrDefault(agw.spec.orc8rNamespace, "magma"), OrDefault(agw.spec.nmsAdminCertSecretName, "orc8r-secrets-certs"));
    && certs in store && Get(store[certs].data, "rootCA.pem") != ""
    && (ObjectKey(PersistentVolumeClaim, agw.namespace, release + "-claim") in store ==>
          Succeeded(store, agw.namespace, release + "-rootca-sync", "magma.infra.don/rootca-sha256", crypto.sha(store[certs].data["rootCA.pem"])))
  }

  /** If registration is on, the Job for the payload of this specification and identity has succeeded. */
  predicate RegistrationThere(store: Store, agw: Agw, id: Identity, crypto: Crypto) {
    agw.spec.registration.enabled != Some(false) ==>
      var payload := crypto.json(PayloadFor(agw.spec, id.hardwareID, id.publicKeyB64));
      && payload.Some?
      && Succeeded(store, OrDefault(agw.spec.orc8rNamespace, "magma"), agw.name + "-register-gateway", "magma.infra.don/payload-sha256", crypto.sha(payload.value))
  }

  ghost predicate LiteralEvidence(w: World, op: Operator, o: Oracle, agw: Agw, id: Identity) {
    var step := ReconcileIdentity(w.objects, agw, op.crypto, o);
    && step.identity == Some(id)
    && RootCAThere(step.store, agw, op.crypto)
    && RegistrationThere(w.objects, agw, id, op.crypto)
    && (Gated(agw.spec) ==> agw.spec.agwNodeSelector + agw.spec.agwNodeLabelSelector != map[] && PreparedNodes(w.objects, w.nodes, agw.namespace, agw.spec))
    && (agw.spec.enableUERANSIM ==> MayRun(w.objects, agw))
  }

  lemma TrustLiterally(store: Store, agw: Agw, crypto: Crypto)
    ensures TrustEvidence(store, agw, crypto) <==> RootCAThere(store, agw, crypto)
  {
  }

  lemma RegistrationLiterally(store: Store, agw: Agw, id: Identity, crypto: Crypto)
    ensures RegistrationEvidence(store, agw, id, crypto) <==> RegistrationThere(store, agw, id, crypto)
  {
  }

  lemma DatapathLiterally(store: Store, nodes: seq<Node>, agw: Agw)
    ensures DatapathEvidence(store, nodes, agw) <==>
      (Gated(agw.spec) ==> agw.spec.agwNodeSelector + agw.spec.agwNodeLabelSelector != map[] && PreparedNodes(store, nodes, agw.namespace, agw.spec))
  {
    hide PreparedNodes, NodesReady;
    NodesCount(nodes, store, agw.namespace, agw.spec);
  }

  lemma SimulatorLiterally(store: Store, agw: Agw)
    ensures SimulatorEvidence(store, agw) <==> (agw.spec.enableUERANSIM ==> MayRun(store, agw))
  {
    hide GateOpen, SaysTrue, StartGate, GateKey;
    GateTexts(store, agw);
    assert |"Immediate"| == 9 && |"AfterAGWReady"| == 13;
  }

  /** The evidence is exactly this. */
  lemma EvidenceExact(w: World, op: Operator, o: Oracle, agw: Agw, id: Identity)
    ensures Evidence(w, op, o, agw, id) <==> LiteralEvidence(w, op, o, agw, id)
  {
    hide ReconcileIdentity, TrustEvidence, RegistrationEvidence, DatapathEvidence, SimulatorEvidence, RootCAThere, RegistrationThere, PreparedNodes, Gated, MayRun;
    TrustLiterally(ReconcileIdentity(w.objects, agw, op.crypto, o).store, agw, op.crypto);
    RegistrationLiterally(w.objects, agw, id, op.crypto);
    DatapathLiterally(w.objects, w.nodes, agw);
    SimulatorLiterally(w.objects, agw);
  }

  /** Behind every persisted Ready=True stands a pass that had read all of this. */
  lemma ReadyLiterally(op: Operator, ws: seq<World>, es: seq<Event>, n: nat) returns (k: nat, id: Identity)
    requires Run(op, ws, es) && n < |ws| && !ReportsReady(ws[0]) && ReportsReady(ws[n])
    ensures WrittenAt(op, ws, es, k, n)
    ensures LiteralEvidence(ws[k], op, es[k].o, ws[k].cr.value, id)
  {
    hide Pass, ReconcileIdentity, Evidence, LiteralEvidence;
    k := ReadySoundness(op, ws, es, n);
    id :| Evidence(ws[k], op, es[k].o, ws[k].cr.value, id);
    EvidenceExact(ws[k], op, es[k].o, ws[k].cr.value, id);
  }

  // ----- What the validation Job waits for -----

  /** The Deployment is of this release and rolled out for the request, its controller has seen that, and enough replicas are ready and available. */
  predicate RolledAndReady(store: Store, k: ObjectKey, release: string, hash: string) {
    && k in store
    && "app.kubernetes.io/instance" in store[k].labels && store[k].labels["app.kubernetes.io/instance"] == release
    && "app.kubernetes.io/name" in store[k].labels && store[k].labels["app.kubernetes.io/name"] == "magma-agw-upstream"
    && Get(store[k].podAnnotations, "magma.infra.don/ueransim-validation-rollout-hash") == hash
    && store[k].status.observedGeneration >= store[k].generation
    && var desired := if store[k].replicas == None then 1 else store[k].replicas.value;
       store[k].status.ready >= desired && store[k].status.available >= desired
  }

  predicate RunningUe(store: Store, k: ObjectKey, namespace: string, release: string) {
    && k in store && k.kind == Pod && k.namespace == namespace && store[k].status.phase == "Running"
    && "app.kubernetes.io/instance" in store[k].labels && store[k].labels["app.kubernetes.io/instance"] == release
    && "app.kubernetes.io/component" in store[k].labels && store[k].labels["app.kubernetes.io/component"] == "ueransim-ue"
  }

  /** Both simulator Deployments are rolled out and ready, and a UE pod is running. */
  ghost predicate SimulatorUp(store: Store, agw: Agw, hash: string) {
    var release := OrDefault(agw.spec.releaseName, agw.name);
    && RolledAndReady(store, ObjectKey(Deployment, agw.namespace, release + "-ueransim-gnb"), release, hash)
    && RolledAndReady(store, ObjectKey(Deployment, agw.namespace, release + "-ueransim-ue"), release, hash)
    && exists k :: RunningUe(store, k, agw.namespace, release)
  }

  lemma LabelTexts()
    ensures "app.kubernetes.io/instance" != "app.kubernetes.io/name" && "app.kubernetes.io/instance" != "app.kubernetes.io/component"
  {
    assert |"app.kubernetes.io/instance"| == 26 && |"app.kubernetes.io/name"| == 22 && |"app.kubernetes.io/component"| == 27;
  }

  lemma DeploymentUp(store: Store, agw: Agw, k: ObjectKey, hash: string)
    ensures Listed(store, agw, k) && RolledOut(store[k], hash) && DeploymentReady(store[k]) <==> RolledAndReady(store, k, ReleaseName(agw), hash)
  {
    hide ReleaseName;
    LabelTexts();
    if k in store && RolledAndReady(store, k, ReleaseName(agw), hash) {
      forall l | l in ReleaseLabels(agw)
        ensures l in store[k].labels && store[k].labels[l] == ReleaseLabels(agw)[l]
      {
      }
    }
  }

  lemma UeUp(store: Store, agw: Agw)
    ensures HasUePod(store, agw) <==> exists k :: RunningUe(store, k, agw.namespace, ReleaseName(agw))
  {
    hide ReleaseName;
    LabelTexts();
    forall k
      ensures k in store && RunningUePod(store, agw, k) <==> RunningUe(store, k, agw.namespace, ReleaseName(agw))
    {
      PodUp(store, agw, k);
    }
  }

  lemma PodUp(store: Store, agw: Agw, k: ObjectKey)
    ensures k in store && RunningUePod(store, agw, k) <==> RunningUe(store, k, agw.namespace, ReleaseName(agw))
  {
    hide ReleaseName;
    LabelTexts();
  }

  lemma SimulatorUpExact(store: Store, agw: Agw, hash: string)
    ensures ReadyToValidate(store, agw, hash) <==> SimulatorUp(store, agw, hash)
  {
    assert ReleaseName(agw) == OrDefault(agw.spec.releaseName, agw.name);
    hide ReleaseName, HasUePod, RolledAndReady, Listed, RolledOut, DeploymentReady, RunningUe;
    DeploymentUp(store, agw, GnbKey(agw), hash);
    DeploymentUp(store, agw, UeKey(agw), hash);
    UeUp(store, agw);
  }

  /** The text whose hash keys the validation. */
  lemma RequestText(agw: Agw)
    ensures var v := agw.spec.validation;
      ValidationKey.Encode(ValidationFields(agw)) ==
        OrDefault(agw.spec.releaseName, agw.name) + "|" + (v.trigger + "|" + (v.ueDeploymentName + "|" + (v.pingHost + "|" +
          (ValidationKey.Decimal(v.iperfPort) + "|" + (ValidationKey.Decimal(v.timeoutSeconds) + "|" + v.iperfServer)))))
  {
    hide ValidationKey.Decimal;
    assert ReleaseName(agw) == OrDefault(agw.spec.releaseName, agw.name);
    assert "|" == [ValidationKey.BAR];
  }

  /** A pass creates the validation Job only when the cluster it leaves has the simulator up for this request. */
  lemma ValidationNeedsSimulator(w: World, op: Operator, o: Oracle)
    requires w.cr.Some? && Spared(w.objects, w.cr.value, op, o, ValidationJobKey(w.cr.value))
    requires ValidationJobKey(w.cr.value) !in w.objects && ValidationJobKey(w.cr.value) in Pass(w, op, o).world.objects
    ensures SimulatorUp(Pass(w, op, o).world.objects, w.cr.value, ValidationHashOf(w.cr.value, op.crypto))
  {
    hide Pass, Spared, ReadyToValidate, SimulatorUp, ValidationHashOf, ValidationJobKey;
    ValidationCreated(w, op, o, w.cr.value);
    SimulatorUpExact(Pass(w, op, o).world.objects, w.cr.value, ValidationHashOf(w.cr.value, op.crypto));
  }
}
