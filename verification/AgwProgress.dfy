/** A pass in which nothing fails: what each stage does, and why the measure goes down. */
module AgwProgress {
  import opened GoMaps
  import opened Objects
  import opened NativeRelease
  import opened AgwModel
  import opened AgwIdentity
  import opened AgwDatapath
  import opened AgwTrust
  import opened AgwRegistration
  import opened AgwValues
  import opened AgwValidation
  import opened AgwPass
  import opened AgwReady
  import opened AgwTrail
  import opened AgwFootprint
  import opened AgwMeasure
  import HashedJob

  predicate InFlight(view: HashedJob.View) {
    view.Running? || view.Failed?
  }

  // ----- Stages without faults -----

  lemma SmoothIdentity(l: Local, op: Operator, o: Oracle)
    requires Identifiable(l.objects, l.agw, op.crypto) && o.failing == {} && op.crypto.publicKey(o.newKey).Some?
    requires !Rotates(l.agw) && KeysAreTexts(op.crypto)
    ensures IdentityStage(l, op.crypto, o).Go?
  {
    var request := DesiredPrivateKey(l.objects, l.agw, op.crypto, false);
    var secret := ObjectOrBlank(l.objects, IdentityKey(l.agw));
    var key := OrDefault(ChosenKey(secret, l.agw, request), o.newKey);
    assert op.crypto.publicKey(key).Some?;
    hide ChosenHardwareId, DesiredPrivateKey, WithDetails;
    WithIdentityConsistent(secret, l.agw, key, ChosenHardwareId(secret, l.agw, o.random), op.crypto);
  }

  lemma SmoothDatapath(l: Local, o: Oracle)
    requires o.failing == {} && (DatapathGateEnabled(l.agw.spec.datapath) ==> NodeSelector(l.agw.spec) != map[])
    ensures DatapathStage(l, o).Go?
    ensures DatapathStage(l, o).value.enabled == DatapathGateEnabled(l.agw.spec.datapath)
    ensures DatapathStage(l, o).value.ready <==> DatapathEvidence(l.objects, l.nodes, l.agw)
  {
  }

  lemma SmoothTrust(l: Local, values: StringMap, crypto: Crypto, o: Oracle)
    requires o.failing == {} && Orc8rCertKey(l.agw.spec) in l.objects && RootCA(l.objects, l.agw.spec) != ""
    requires Orc8rCertKey(l.agw.spec) != CertSecretKey(l.agw, values)
    requires forall alias :: CertSecretKey(l.agw, WithAlias(values, alias)) == CertSecretKey(l.agw, values)
    ensures var s := TrustStage(l, values, crypto, o);
      s.Go? || (PvcKey(l.agw) in l.objects &&
        (InFlight(RootCAView(l.objects, l.agw, crypto)) || RootCADistance(s.local.objects, l.agw, crypto) < RootCADistance(l.objects, l.agw, crypto)))
  {
    hide ReconcileTrustBundle;
    var alias := HostAlias(l.objects, l.agw.spec, values, o.failing);
    SmoothBundle(l.objects, l.agw, WithAlias(values, alias), crypto, o.failing);
  }

  lemma SmoothBundle(store: Store, agw: Agw, values: StringMap, crypto: Crypto, failing: set<Call>)
    requires failing == {} && Orc8rCertKey(agw.spec) in store && RootCA(store, agw.spec) != ""
    requires Orc8rCertKey(agw.spec) != CertSecretKey(agw, values)
    ensures var step := ReconcileTrustBundle(store, agw, values, crypto, failing);
      && !step.verdict.Failed?
      && (step.verdict.Synced? || (PvcKey(agw) in store &&
           (InFlight(RootCAView(store, agw, crypto)) || RootCADistance(step.store, agw, crypto) < RootCADistance(store, agw, crypto))))
  {
    hide HashedJob.Advance, HashedJob.Inspect, HashedJob.Distance, WithRootCA, CertSecretName, ReleaseName, RootCA, Orc8rNamespace;
    var rootCA := RootCA(store, agw.spec);
    var hash := crypto.sha(rootCA);
    var synced := SyncRootCA(store, agw, values, rootCA, crypto);
    var body := CertSecretName(ReleaseName(agw), values);
    var step := HashedJob.Advance(synced, RootCAJobKey(agw), ROOT_CA_HASH, hash, body, HashedJob.Faults(false, false, false));
    AdvanceDrops(synced, RootCAJobKey(agw), ROOT_CA_HASH, hash, body);
    HashedJob.AdvanceMoves(synced, RootCAJobKey(agw), ROOT_CA_HASH, hash, body, HashedJob.Faults(false, false, false));
    SameInspect(store, synced, RootCAJobKey(agw), ROOT_CA_HASH, hash);
    SameRootCA(store, step.store, agw.spec);
    NoFaultNoFailure(synced, RootCAJobKey(agw), ROOT_CA_HASH, hash, body);
  }

  lemma NoFaultNoFailure(store: Store, key: ObjectKey, annotation: string, hash: string, body: string)
    ensures var outcome := HashedJob.Advance(store, key, annotation, hash, body, HashedJob.Faults(false, false, false)).outcome;
      !outcome.ReadFailed? && !outcome.DeleteFailed? && !outcome.CreateFailed?
  {
  }

  lemma SameInspect(a: Store, b: Store, key: ObjectKey, annotation: string, hash: string)
    requires Same(a, b, key)
    ensures HashedJob.Inspect(a, key, annotation, hash) == HashedJob.Inspect(b, key, annotation, hash)
  {
  }

  lemma SameRootCA(a: Store, b: Store, spec: Spec)
    requires Same(a, b, Orc8rCertKey(spec))
    ensures RootCA(a, spec) == RootCA(b, spec)
  {
  }

  lemma SmoothRegistration(l: Local, id: Identity, payload: string, crypto: Crypto, o: Oracle)
    requires o.failing == {} && Orc8rCertKey(l.agw.spec) in l.objects
    requires RegistrationEnabled(l.agw.spec.registration) ==>
      MagmalteImage(l.objects, l.agw.spec) != "" && l.agw.spec.networkID != "" && l.agw.spec.accessGatewayID != "" && crypto.json(GatewayPayload(l.agw, id)) == Some(payload)
    ensures var s := RegistrationStage(l, id, crypto, o);
      s.Go? || (RegistrationEnabled(l.agw.spec.registration) &&
        (|| InFlight(RegistrationView(l.objects, l.agw, payload, crypto))
         || HashedJob.Distance(RegistrationView(s.local.objects, l.agw, payload, crypto)) < HashedJob.Distance(RegistrationView(l.objects, l.agw, payload, crypto))))
  {
    hide HashedJob.Advance, HashedJob.Inspect, HashedJob.Distance, GatewayPayload, Orc8rNamespace, WithDetails;
    var k, hash := RegistrationJobKey(l.agw), crypto.sha(payload);
    AdvanceDrops(l.objects, k, PAYLOAD_HASH, hash, payload);
    NoFaultNoFailure(l.objects, k, PAYLOAD_HASH, hash, payload);
  }

  lemma SmoothSimulator(l: Local, o: Oracle)
    requires o.failing == {} && (l.agw.spec.enableUERANSIM ==> StartPolicy(l.agw.spec) in {"Immediate", "AfterAGWReady"})
    ensures SimulatorStage(l, o).Go? && (SimulatorStage(l, o).value.Pending? <==> !SimulatorEvidence(l.objects, l.agw))
  {
    hide GateOpen;
    assert "Immediate" != "AfterAGWReady" by { assert |"Immediate"| != |"AfterAGWReady"|; }
  }

  lemma SmoothApply(l: Local, desired: seq<Desired>, simulator: Simulator, o: Oracle)
    requires o.failing == {} && o.applyStop.Never? && (forall k :: o.annotated(k)) && (forall k :: o.podsDeleted(k))
    ensures ApplyStage(l, desired, simulator, o).Go?
  {
    hide ApplyUpTo, AnnotateAll, StalePods, Unannotated;
  }

  // ----- The DaemonSet through a pass -----

  lemma NoChar(s: string, part: string, c: char)
    requires part != "" && part[0] == c && c !in s
    ensures !Contains(s, part)
  {
    assert forall i :: 0 <= i < |s| ==> s[i..][0] == s[i];
  }

  /** Node preparation is never filtered out with the simulator. */
  lemma PrepAdmitted(filter: Filter)
    ensures Admits(filter, AGW_NODE_PREP)
  {
    NoChar(AGW_NODE_PREP, "ueransim", 'u');
    NoChar(AGW_NODE_PREP, "simulator", 's');
    NoChar(AGW_NODE_PREP, "iperf3", 'i');
  }

  /** Applying a release creates the DaemonSet it lists, and keeps the status of one that exists. */
  lemma {:induction false} ApplyKeepsDaemon(store: Store, objects: seq<Desired>, filter: Filter, immutable: set<ObjectKey>, k: ObjectKey)
    requires k.kind.DaemonSet? && Admits(filter, k.name)
    ensures k in Apply(store, objects, filter, immutable) <==> k in store || Lists(objects, k)
    ensures k in store ==> Apply(store, objects, filter, immutable)[k].status == store[k].status
  {
    if objects != [] {
      var n := |objects| - 1;
      assert forall i :: 0 <= i < n ==> objects[..n][i] == objects[i];
      ApplyKeepsDaemon(store, objects[..n], filter, immutable, k);
      assert Lists(objects, k) <==> Lists(objects[..n], k) || objects[n].key == k;
    }
  }

  lemma UpToKeepsDaemon(store: Store, objects: seq<Desired>, filter: Filter, immutable: set<ObjectKey>, stop: Stop, k: ObjectKey)
    requires k.kind.DaemonSet? && Admits(filter, k.name)
    ensures k in store ==> k in ApplyUpTo(store, objects, filter, immutable, stop)
    ensures k in store ==> ApplyUpTo(store, objects, filter, immutable, stop)[k].status == store[k].status
    ensures Completes(stop, |objects|) && Lists(objects, k) ==> k in ApplyUpTo(store, objects, filter, immutable, stop)
  {
    hide Apply, Admits;
    if Completes(stop, |objects|) {
      ApplyKeepsDaemon(store, objects, filter, immutable, k);
    } else {
      ApplyKeepsDaemon(store, objects[..stop.at], filter, immutable, k);
    }
  }

  /** No stage takes the DaemonSet away or changes its status. */
  lemma FlowKeepsDaemon(objects: Store, agw: Agw, op: Operator, o: Oracle, t: Trail, k: ObjectKey)
    requires Trails(objects, agw, op, o, t) && k == PrepKey(agw.namespace)
    ensures k in objects ==> k in t.last && t.last[k].status == objects[k].status
    ensures t.identified == ReconcileIdentity(objects, agw, op.crypto, o).store
    ensures Same(t.identified, t.trusted, k) && Same(t.trusted, t.registered, k) && Same(objects, t.identified, k)
    ensures k in t.applied ==> k in t.last && t.last[k].status == t.applied[k].status
  {
    hide ReconcileIdentity, TrustLink, RegistrationLink, RolloutLink, ValidationLink, AgwObjects, FinalValues, PassValues, PassFinal, ApplyUpTo, ReleaseName, Admits;
    var id := ReconcileIdentity(objects, agw, op.crypto, o).identity;
    IdentityTouches(objects, agw, op.crypto, o, k);
    TrustLinkTouches(t.identified, t.trusted, agw, id, t.alias, op.crypto, o, k);
    RegistrationLinkTouches(t.trusted, t.registered, agw, id, op.crypto, o, k);
    PrepAdmitted(SimulatorFilter(t.simulator));
    if t.registered != t.applied {
      var desired := AgwObjects(agw, PassFinal(objects, agw, op, o, t.simulator.On?), op);
      UpToKeepsDaemon(t.registered, desired, SimulatorFilter(t.simulator), o.immutable, o.applyStop, k);
    }
    RestKeepsDaemon(t.applied, t.rolled, t.last, agw, op.crypto, o, k);
  }

  lemma RestKeepsDaemon(applied: Store, rolled: Store, last: Store, agw: Agw, crypto: Crypto, o: Oracle, k: ObjectKey)
    requires RolloutLink(applied, rolled, agw) && ValidationLink(rolled, last, agw, crypto, o) && k.kind.DaemonSet?
    ensures k in applied ==> k in last && last[k].status == applied[k].status
  {
    hide ReconcileValidation, ReleaseName;
    ValidationTouches(rolled, agw, crypto, o);
  }

  // ----- Labels -----

  /** The label step of a flow, where the datapath was not ready when the pass looked. */
  lemma SmoothLabels(l: Local, after: Store, o: Oracle)
    requires o.failing == {} && o.labelStop >= |l.nodes| && DatapathGateEnabled(l.agw.spec.datapath)
    requires NodeSelector(l.agw.spec) != map[] && ReadyLabelKey(l.agw.spec.datapath) !in NodeSelector(l.agw.spec)
    requires AnySelected(l.nodes, NodeSelector(l.agw.spec)) && !DatapathEvidence(l.objects, l.nodes, l.agw)
    requires PrepKey(l.agw.namespace) in after
    requires PrepKey(l.agw.namespace) in l.objects ==> after[PrepKey(l.agw.namespace)].status == l.objects[PrepKey(l.agw.namespace)].status
    ensures var step := ReconcileLabels(l.nodes, after, l.agw.namespace, NodeSelector(l.agw.spec), l.agw.spec.datapath, o);
      || LabelDistance(after, step.nodes, l.agw) < LabelDistance(l.objects, l.nodes, l.agw)
      || (PrepKey(l.agw.namespace) in l.objects && !PrepReady(l.objects, l.agw.namespace))
  {
    var selector, dp, ns := NodeSelector(l.agw.spec), l.agw.spec.datapath, l.agw.namespace;
    var step := ReconcileLabels(l.nodes, after, ns, selector, dp, o);
    if PrepReady(l.objects, ns) {
      LabelDichotomy(l.nodes, after, ns, selector, dp, o);
      var i :| 0 <= i < |l.nodes| && Selected(l.nodes[i], selector);
      assert Selected(step.nodes[i], selector);
      hide ReconcileLabels;
      assert AnySelected(step.nodes, selector);
      assert NodesReady(step.nodes, after, ns, selector, dp);
    }
  }
}
