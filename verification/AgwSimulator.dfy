/**
 What the native apply of a pass leaves in the cluster: simulator workloads only when the
 specification and the gate ConfigMap allow them, everything else that is listed, and no evicted pod.
 */
module AgwSimulator {
  import opened GoMaps
  import opened Objects
  import opened NativeRelease
  import opened AgwModel
  import opened AgwIdentity
  import opened AgwDatapath
  import opened AgwTrust
  import opened AgwRegistration
  import opened AgwValues
  import opened AgwValidation
  import opened AgwPass
  import opened AgwRuns
  import opened AgwTrail
  import opened AgwFootprint
  import opened AgwFinalizer
  import opened AgwJobs
  import HashedJob

  // ----- When the simulator may run -----

  /** Workloads of the simulator are recognised by their names. */
  predicate SimulatorName(name: string) {
    Contains(name, "ueransim") || Contains(name, "simulator") || Contains(name, "iperf3")
  }

  /** The gate ConfigMap. */
  function StartGate(agw: Agw): ObjectKey {
    var release := if agw.spec.releaseName != "" then agw.spec.releaseName else agw.name;
    ObjectKey(ConfigMap, agw.namespace,
              if agw.spec.ueransimReadyConfigMap != "" then agw.spec.ueransimReadyConfigMap else release + "-ueransim-ready")
  }

  /** It is there and says true, in any case. */
  predicate SaysTrue(store: Store, agw: Agw) {
    StartGate(agw) in store && "ready" in store[StartGate(agw)].data && ToLower(store[StartGate(agw)].data["ready"]) == "true"
  }

  predicate WaitsForGate(spec: Spec) {
    spec.ueransimStartPolicy == "" || spec.ueransimStartPolicy == "AfterAGWReady"
  }

  /** The simulator is off, or its gate is closed. */
  predicate HeldBack(store: Store, agw: Agw) {
    !agw.spec.enableUERANSIM || (WaitsForGate(agw.spec) && !SaysTrue(store, agw))
  }

  /** The simulator is on, and starts immediately or finds its gate open. */
  predicate MayRun(store: Store, agw: Agw) {
    agw.spec.enableUERANSIM && (agw.spec.ueransimStartPolicy == "Immediate" || (WaitsForGate(agw.spec) && SaysTrue(store, agw)))
  }

  lemma GateTexts(store: Store, agw: Agw)
    ensures GateKey(agw) == StartGate(agw)
    ensures GateOpen(store, agw) <==> SaysTrue(store, agw)
  {
    assert ToLower("true") == "true" && ToLower("") == "";
  }

  lemma StageDecides(l: Local, o: Oracle)
    requires SimulatorStage(l, o).Go?
    ensures SimulatorStage(l, o).value.On? <==> MayRun(l.objects, l.agw)
    ensures !SimulatorStage(l, o).value.On? <==> HeldBack(l.objects, l.agw)
    ensures SimulatorStage(l, o).value.Off? <==> !l.agw.spec.enableUERANSIM
  {
    hide GateKey, StartGate, GateOpen, SaysTrue;
    GateTexts(l.objects, l.agw);
    assert |"Immediate"| == 9 && |"AfterAGWReady"| == 13;
  }

  // ----- Up to the apply only Secrets and Jobs change -----

  lemma LaunchKeeps(objects: Store, agw: Agw, op: Operator, o: Oracle, t: Trail, k: ObjectKey)
    requires Trails(objects, agw, op, o, t) && !OwnKey(agw, k)
    ensures Same(objects, t.registered, k)
  {
    hide ReconcileIdentity, TrustLink, RegistrationLink, ApplyLink, RolloutLink, ValidationLink, RbacKey, ReleaseName;
    var id := ReconcileIdentity(objects, agw, op.crypto, o).identity;
    IdentityTouches(objects, agw, op.crypto, o, k);
    TrustLinkTouches(t.identified, t.trusted, agw, id, t.alias, op.crypto, o, k);
    RegistrationLinkTouches(t.trusted, t.registered, agw, id, op.crypto, o, k);
  }

  lemma GateIsNotOwn(agw: Agw)
    ensures !OwnKey(agw, StartGate(agw))
  {
    hide ReleaseName;
  }

  lemma SameGate(a: Store, b: Store, x: Agw, y: Agw)
    requires Same(a, b, StartGate(x)) && SameResource(x, y)
    ensures StartGate(x) == StartGate(y) && (SaysTrue(a, x) <==> SaysTrue(b, y))
  {
  }

  /** The decision with which the apply starts is the one that the specification and the gate ask for. */
  lemma LaunchDecides(objects: Store, nodes: seq<Node>, agw: Agw, op: Operator, o: Oracle, t: Trail, f: Launch)
    requires Trails(objects, agw, op, o, t) && Launched(t, Some(f), agw, o)
    ensures t.simulator.On? <==> MayRun(objects, agw)
    ensures !t.simulator.On? <==> HeldBack(objects, agw)
  {
    hide Trails, StartGate, SaysTrue, OwnKey, SimulatorStage, ApplyStage, ApplyUpTo, Evicted;
    GateIsNotOwn(agw);
    LaunchKeeps(objects, agw, op, o, t, StartGate(agw));
    SameGate(objects, t.registered, agw, f.local.agw);
    StageDecides(f.local, o);
  }

  // ----- What one apply leaves -----

  lemma NamesAdmitted(filter: Filter, name: string)
    ensures Admits(filter, name) <==> filter.Everything? || !SimulatorName(name)
  {
    hide Contains;
  }

  /** A filtered apply that runs to its end leaves no listed simulator object. */
  lemma {:induction false} FilteredGone(store: Store, objects: seq<Desired>, immutable: set<ObjectKey>, key: ObjectKey)
    requires Lists(objects, key) && SimulatorName(key.name)
    ensures key !in Apply(store, objects, WithoutSimulator, immutable)
    decreases |objects|
  {
    hide Contains, SimulatorName;
    var n := |objects| - 1;
    NamesAdmitted(WithoutSimulator, key.name);
    NamesAdmitted(WithoutSimulator, objects[n].key.name);
    hide Admits;
    if objects[n].key != key {
      var i :| 0 <= i < |objects| && objects[i].key == key;
      assert objects[..n][i].key == key;
      FilteredGone(store, objects[..n], immutable, key);
    }
  }

  /** However it ends, a filtered apply adds no simulator object. */
  lemma {:induction false} FilteredAdds(store: Store, objects: seq<Desired>, immutable: set<ObjectKey>, key: ObjectKey)
    requires SimulatorName(key.name) && key !in store
    ensures key !in Apply(store, objects, WithoutSimulator, immutable)
    decreases |objects|
  {
    hide SimulatorName, ServerSideApply, CleanMetadata;
    if objects != [] {
      var n := |objects| - 1;
      NamesAdmitted(WithoutSimulator, objects[n].key.name);
      hide Admits;
      FilteredAdds(store, objects[..n], immutable, key);
    }
  }

  lemma UpToAdds(store: Store, objects: seq<Desired>, immutable: set<ObjectKey>, stop: Stop, key: ObjectKey)
    requires SimulatorName(key.name) && key !in store
    ensures key !in ApplyUpTo(store, objects, WithoutSimulator, immutable, stop)
  {
    hide Apply, SimulatorName, ServerSideApply, CleanMetadata;
    if Completes(stop, |objects|) {
      FilteredAdds(store, objects, immutable, key);
    } else {
      FilteredAdds(store, objects[..stop.at], immutable, key);
      NamesAdmitted(WithoutSimulator, objects[stop.at].key.name);
      hide Admits;
    }
  }

  // ----- What one pass leaves -----

  /** The pass reads the resource, finds the finalizer, and is not a deletion. */
  predicate Flows(w: World, o: Oracle) {
    HasFinalizer(w) && !w.cr.value.deleting && ResourceGet !in o.failing
  }

  function WorkingCopy(w: World): Local
    requires w.cr.Some?
  {
    Local(w.objects, w.nodes, w.cr.value)
  }

  /** The pass gets to its apply, and the apply runs to its end. */
  ghost predicate ApplyEnds(w: World, op: Operator, o: Oracle)
    requires w.cr.Some?
  {
    ApplyLaunch(WorkingCopy(w), op, o).Some? && Completes(o.applyStop, |ApplyLaunch(WorkingCopy(w), op, o).value.desired|)
  }

  /** What the apply of the pass lists. */
  ghost function Wanted(w: World, op: Operator, o: Oracle): seq<Desired>
    requires w.cr.Some? && ApplyEnds(w, op, o)
  {
    ApplyLaunch(WorkingCopy(w), op, o).value.desired
  }

  lemma PassTrail(w: World, op: Operator, o: Oracle) returns (t: Trail)
    requires Flows(w, o)
    ensures Trails(w.objects, w.cr.value, op, o, t) && t.last == Pass(w, op, o).world.objects
    ensures Launched(t, ApplyLaunch(WorkingCopy(w), op, o), w.cr.value, o)
    ensures ApplyLaunch(WorkingCopy(w), op, o).Some? ==>
      && ReconcileIdentity(w.objects, w.cr.value, op.crypto, o).identity.Some?
      && ApplyLaunch(WorkingCopy(w), op, o).value.desired == AgwObjects(w.cr.value, PassFinal(w.objects, w.cr.value, op, o, t.simulator.On?), op)
  {
    hide MainFlow, DeletionPass, Trails, Launched, ApplyLaunch, ReconcileIdentity, PassFinal, AgwObjects;
    t := LaunchTrail(WorkingCopy(w), op, o);
  }

  lemma HeldAddsNothing(rolled: Store, last: Store, agw: Agw, crypto: Crypto, o: Oracle)
    requires ValidationLink(rolled, last, agw, crypto, o) && !agw.spec.enableUERANSIM
    ensures last == rolled
  {
    hide ReconcileValidationJob, ReconcileRbac, ValidationHashOf;
  }

  /** While the simulator is held back, the store after the apply only loses objects. */
  lemma HeldEnds(objects: Store, agw: Agw, op: Operator, o: Oracle, t: Trail, f: Launch)
    requires Trails(objects, agw, op, o, t) && Launched(t, Some(f), agw, o) && HeldBack(objects, agw)
    ensures t.last == t.rolled && forall k :: k in t.last ==> k in t.applied
    ensures t.applied == ApplyUpTo(t.registered, f.desired, WithoutSimulator, o.immutable, o.applyStop)
  {
    hide TrustLink, RegistrationLink, ApplyLink, ReconcileIdentity, ValidationLink, HeldBack, ApplyUpTo, Evicted, Annotate, SimulatorStage, ApplyStage;
    LaunchDecides(objects, [], agw, op, o, t, f);
    if t.simulator.Off? {
      StageOff(f.local, o);
      HeldAddsNothing(t.rolled, t.last, agw, op.crypto, o);
    }
  }

  lemma StageOff(l: Local, o: Oracle)
    requires SimulatorStage(l, o).Go? && SimulatorStage(l, o).value.Off?
    ensures !l.agw.spec.enableUERANSIM
  {
    StageDecides(l, o);
  }

  /** With the simulator off or its gate closed, an apply that ran to its end leaves no listed simulator object in the cluster. */
  lemma SimulatorHeldBack(w: World, op: Operator, o: Oracle, k: ObjectKey)
    requires Flows(w, o) && HeldBack(w.objects, w.cr.value) && ApplyEnds(w, op, o)
    requires Lists(Wanted(w, op, o), k) && SimulatorName(k.name)
    ensures k !in Pass(w, op, o).world.objects
  {
    hide Pass, Trails, ApplyLaunch, HeldBack, SimulatorName, Launched, Apply, PassFinal, AgwObjects, ReconcileIdentity;
    var t := PassTrail(w, op, o);
    HeldEnds(w.objects, w.cr.value, op, o, t, ApplyLaunch(WorkingCopy(w), op, o).value);
    FilteredGone(t.registered, Wanted(w, op, o), o.immutable, k);
  }

  /** No pass, however it ends, creates a simulator object of the manifest while the simulator is held back. */
  lemma SimulatorNotCreated(w: World, op: Operator, o: Oracle, k: ObjectKey)
    requires w.cr.Some? && HeldBack(w.objects, w.cr.value) && SimulatorName(k.name)
    requires !OwnKey(w.cr.value, k) && k != DeregistrationJobKey(w.cr.value)
    ensures k in Pass(w, op, o).world.objects ==> k in w.objects
  {
    hide Pass, Trails, ApplyLaunch, HeldBack, SimulatorName, OwnKey, DeregistrationJobKey, PassFinal, AgwObjects, ReconcileIdentity, AppliedByPass;
    if k in Pass(w, op, o).world.objects && k !in w.objects {
      CreationNeedsFinalizer(w, op, o, k);
      if Flows(w, o) {
        FlowAddsNoSimulator(w, op, o, k);
      } else {
        OthersAdd(w, op, o, k);
      }
    }
  }

  lemma OthersAdd(w: World, op: Operator, o: Oracle, k: ObjectKey)
    requires HasFinalizer(w) && !Flows(w, o) && k in Pass(w, op, o).world.objects && k !in w.objects
    ensures k == DeregistrationJobKey(w.cr.value)
  {
    hide MainFlow, DeletionPass;
    DeletionAdds(w, op, o, k);
  }

  lemma FlowAddsNoSimulator(w: World, op: Operator, o: Oracle, k: ObjectKey)
    requires Flows(w, o) && HeldBack(w.objects, w.cr.value) && SimulatorName(k.name) && !OwnKey(w.cr.value, k) && k !in w.objects
    ensures k !in Pass(w, op, o).world.objects
  {
    hide Pass, Trails, ApplyLaunch, HeldBack, SimulatorName, OwnKey, PassFinal, AgwObjects, ReconcileIdentity, ApplyUpTo, SimulatorStage, PastPods, Evicted;
    var t := PassTrail(w, op, o);
    LaunchKeeps(w.objects, w.cr.value, op, o, t, k);
    if ApplyLaunch(WorkingCopy(w), op, o).Some? {
      var f := ApplyLaunch(WorkingCopy(w), op, o).value;
      HeldEnds(w.objects, w.cr.value, op, o, t, f);
      UpToAdds(t.registered, f.desired, o.immutable, o.applyStop, k);
    }
  }

  // ----- Everything else that is listed is applied -----

  /** Not taken away by anything else than the apply: rejected Jobs are deleted, evicted pods too, and the validation has objects of its own. */
  predicate Lasting(store: Store, agw: Agw, d: Desired, immutable: set<ObjectKey>) {
    && (d.key.kind.Job? ==> d.key !in immutable)
    && (d.key.kind.Pod? ==> (if d.key in store then store[d.key] else d.content).status.reason != "NodeAffinity")
    && d.key != ValidationJobKey(agw) && !RbacKey(agw.namespace, d.key)
  }

  /** The object is in the cluster as the manifest has it; a Secret is there. */
  ghost predicate IsApplied(store: Store, d: Desired) {
    d.key in store && (!d.key.kind.Secret? ==> store[d.key].body == d.content.body)
  }

  lemma CleanedBody(o: Object)
    ensures CleanMetadata(o).body == o.body && CleanMetadata(o).status == o.status
  {
  }

  lemma AppliedThere(store: Store, objects: seq<Desired>, filter: Filter, immutable: set<ObjectKey>, i: nat)
    requires DistinctKeys(objects) && i < |objects| && Admits(filter, objects[i].key.name)
    requires objects[i].key.kind.Job? ==> objects[i].key !in immutable
    ensures var d, after := objects[i], Apply(store, objects, filter, immutable);
      && IsApplied(after, d)
      && (!d.key.kind.Secret? ==> after[d.key].status == (if d.key in store then store[d.key] else d.content).status)
  {
    hide Admits, Apply, CleanMetadata, DistinctKeys;
    var d := objects[i];
    ApplyPost(store, objects, filter, immutable, i);
    CleanedBody(ServerSideApply(store, d));
  }

  lemma RolloutKeepsApplied(a: Store, b: Store, agw: Agw, d: Desired)
    requires RolloutLink(a, b, agw) && IsApplied(a, d) && (d.key.kind.Pod? ==> a[d.key].status.reason != "NodeAffinity")
    ensures IsApplied(b, d)
  {
    hide ReleaseName;
  }

  lemma ValidationKeepsApplied(a: Store, b: Store, agw: Agw, crypto: Crypto, o: Oracle, d: Desired)
    requires ValidationLink(a, b, agw, crypto, o) && IsApplied(a, d) && d.key != ValidationJobKey(agw) && !RbacKey(agw.namespace, d.key)
    ensures IsApplied(b, d)
  {
    hide ReconcileValidation, ReleaseName, RbacKey;
    ValidationTouches(a, agw, crypto, o);
  }

  /** After an apply that ran to its end, every listed object is in the cluster as the manifest has it, simulator objects if the simulator may run. */
  lemma ListedApplied(w: World, op: Operator, o: Oracle, i: nat)
    requires Flows(w, o) && ApplyEnds(w, op, o) && DistinctKeys(Wanted(w, op, o)) && i < |Wanted(w, op, o)|
    requires MayRun(w.objects, w.cr.value) || !SimulatorName(Wanted(w, op, o)[i].key.name)
    requires Lasting(w.objects, w.cr.value, Wanted(w, op, o)[i], o.immutable)
    ensures IsApplied(Pass(w, op, o).world.objects, Wanted(w, op, o)[i])
  {
    hide Pass, Trails, ApplyLaunch, HeldBack, MayRun, SimulatorName, OwnKey, PassFinal, AgwObjects, ReconcileIdentity, SimulatorStage, PastPods, Evicted, DistinctKeys, ValidationJobKey, RbacKey, IsApplied, Admits;
    var t := PassTrail(w, op, o);
    var f, d := ApplyLaunch(WorkingCopy(w), op, o).value, Wanted(w, op, o)[i];
    LaunchDecides(w.objects, w.nodes, w.cr.value, op, o, t, f);
    NamesAdmitted(SimulatorFilter(t.simulator), d.key.name);
    AppliedThere(t.registered, f.desired, SimulatorFilter(t.simulator), o.immutable, i);
    if d.key.kind.Pod? {
      PodsAreNotOwn(w.cr.value, d.key);
      LaunchKeeps(w.objects, w.cr.value, op, o, t, d.key);
    }
    TrailEnd(w.objects, w.cr.value, op, o, t);
    IsThere(t.applied, d);
    RolloutKeepsApplied(t.applied, t.rolled, w.cr.value, d);
    ValidationKeepsApplied(t.rolled, t.last, w.cr.value, op.crypto, o, d);
  }

  lemma IsThere(store: Store, d: Desired)
    requires IsApplied(store, d)
    ensures d.key in store
  {
  }

  lemma PodsAreNotOwn(agw: Agw, k: ObjectKey)
    requires k.kind.Pod?
    ensures !OwnKey(agw, k)
  {
    hide ReleaseName;
  }

  lemma TrailEnd(objects: Store, agw: Agw, op: Operator, o: Oracle, t: Trail)
    requires Trails(objects, agw, op, o, t)
    ensures RolloutLink(t.applied, t.rolled, agw) && ValidationLink(t.rolled, t.last, agw, op.crypto, o)
  {
    hide RolloutLink, ValidationLink, ReconcileIdentity, TrustLink, RegistrationLink, ApplyLink;
  }

  // ----- Pods -----

  lemma FlowKeepsPod(objects: Store, agw: Agw, op: Operator, o: Oracle, t: Trail, k: ObjectKey)
    requires Trails(objects, agw, op, o, t) && k.kind.Pod? && !AppliedByPass(objects, agw, op, o, k)
    ensures Same(objects, t.applied, k)
    ensures k in t.last <==> k in t.rolled
    ensures k in t.last ==> k in objects && t.last[k] == t.rolled[k] == objects[k]
    ensures k in objects && k !in t.last ==> Evicted(objects[k], k, agw)
  {
    hide Trails, OwnKey, ValidationLink, AppliedByPass, ReleaseName, Evicted, RbacKey, Annotate;
    PodsAreNotOwn(agw, k);
    LaunchKeeps(objects, agw, op, o, t, k);
    ApplyAdds(objects, agw, op, o, t, k);
    TrailEnd(objects, agw, op, o, t);
    LastKeepsPod(t.rolled, t.last, agw, op.crypto, o, k);
  }

  lemma LastKeepsPod(rolled: Store, last: Store, agw: Agw, crypto: Crypto, o: Oracle, k: ObjectKey)
    requires ValidationLink(rolled, last, agw, crypto, o) && k.kind.Pod?
    ensures Same(rolled, last, k)
  {
    hide ReconcileValidation, ReleaseName;
    ValidationTouches(rolled, agw, crypto, o);
  }

  lemma DeletionKeepsPod(w: World, op: Operator, o: Oracle, k: ObjectKey)
    requires HasFinalizer(w) && k.kind.Pod? && OutsideManifest(op, w.cr.value, k)
    ensures Same(w.objects, DeletionPass(w, w.cr.value, Live(w.cr, o), op, o).world.objects, k)
  {
    hide AgwObjects, DeletionRetry, DeletionCleanup, ReconcileDeregistration, Delete;
    var agw, live := w.cr.value, Live(w.cr, o);
    var dereg := ReconcileDeregistration(w.objects, agw, o.failing);
    DeregistrationKeeps(w.objects, agw, o.failing);
    DeregistrationAdds(w.objects, agw, o.failing);
    var doomed := AgwObjects(agw, map[], op);
    var part := doomed[..Handled(o.deleteStop, |doomed|)];
    if Lists(part, k) {
      PrefixLists(doomed, Handled(o.deleteStop, |doomed|), k);
    }
    DeletePost(dereg.store, part, k);
    CleanupKeepsPod(Delete(dereg.store, part), w.nodes, agw, live, o, k);
  }

  lemma CleanupKeepsPod(store: Store, nodes: seq<Node>, agw: Agw, live: Option<Agw>, o: Oracle, k: ObjectKey)
    requires k.kind.Pod?
    ensures Same(store, DeletionCleanup(store, nodes, agw, live, o).world.objects, k)
  {
    hide UnlabelUpTo, UnlabelCompletes, NodeSelector, ReadyLabelKey, ReleaseName;
  }

  /** No pass touches a pod that it does not list, unless the pod is of its release and its node has evicted it for node affinity. */
  lemma PodsStay(w: World, op: Operator, o: Oracle, k: ObjectKey)
    requires k.kind.Pod? && (w.cr.Some? ==> Spared(w.objects, w.cr.value, op, o, k))
    ensures var after := Pass(w, op, o).world.objects;
      && (k in after ==> k in w.objects && after[k] == w.objects[k])
      && (k in w.objects && k !in after ==> w.cr.Some? && Evicted(w.objects[k], k, w.cr.value))
  {
    hide MainFlow, DeletionPass, Trails, Launched, ApplyLaunch, Evicted, AppliedByPass, OutsideManifest, AgwObjects, PassFinal, ReconcileIdentity;
    if HasFinalizer(w) && ResourceGet !in o.failing {
      if w.cr.value.deleting {
        DeletionKeepsPod(w, op, o, k);
      } else {
        var t := FlowTrail(WorkingCopy(w), op, o);
        FlowKeepsPod(w.objects, w.cr.value, op, o, t, k);
      }
    }
  }

  /** A pass whose clean-up step succeeds leaves no evicted pod of the release that it does not list. */
  lemma EvictedGo(w: World, op: Operator, o: Oracle, k: ObjectKey)
    requires Flows(w, o) && !AppliedByPass(w.objects, w.cr.value, op, o, k)
    requires ApplyLaunch(WorkingCopy(w), op, o).Some? && PastPods(ApplyLaunch(WorkingCopy(w), op, o).value, o)
    requires k in w.objects && Evicted(w.objects[k], k, w.cr.value)
    ensures k !in Pass(w, op, o).world.objects
  {
    hide Pass, Trails, ApplyLaunch, PastPods, AppliedByPass, AgwObjects, PassFinal, ReconcileIdentity, ApplyUpTo, SimulatorStage;
    var t := PassTrail(w, op, o);
    hide Launched;
    FlowKeepsPod(w.objects, w.cr.value, op, o, t, k);
    NoneEvicted(t, ApplyLaunch(WorkingCopy(w), op, o), w.cr.value, o);
  }

  lemma NoneEvicted(t: Trail, launch: Option<Launch>, agw: Agw, o: Oracle)
    requires Launched(t, launch, agw, o) && launch.Some? && PastPods(launch.value, o)
    ensures forall k :: k in t.rolled ==> !Evicted(t.rolled[k], k, agw)
  {
    hide PastPods, ApplyUpTo, SimulatorStage, Evicted;
  }

  // ----- Deployments -----

  lemma StartRollsTwo(store: Store, agw: Agw, hash: string, o: Oracle, k: ObjectKey)
    requires k.kind.Deployment? && k != GnbKey(agw) && k != UeKey(agw)
    ensures Same(store, StartValidation(store, agw, hash, o).store, k)
  {
    hide DeploymentReady, HasUePod, RolledOut, Listed, ReleaseName;
  }

  lemma ValidationRollsTwo(a: Store, b: Store, agw: Agw, crypto: Crypto, o: Oracle, k: ObjectKey)
    requires ValidationLink(a, b, agw, crypto, o) && k.kind.Deployment? && k != GnbKey(agw) && k != UeKey(agw)
    ensures Same(a, b, k)
  {
    hide StartValidation, ReconcileRbac, ValidationHashOf, GnbKey, UeKey, ReleaseName;
    if a != b {
      RbacTouches(a, agw.namespace, o.failing, k);
      StartRollsTwo(ReconcileRbac(a, agw.namespace, o.failing).store, agw, ValidationHashOf(agw, crypto), o, k);
    }
  }

  lemma FlowKeepsDeployment(objects: Store, agw: Agw, op: Operator, o: Oracle, t: Trail, k: ObjectKey)
    requires Trails(objects, agw, op, o, t) && k.kind.Deployment? && !AppliedByPass(objects, agw, op, o, k) && k in objects
    ensures k in t.last && (k != GnbKey(agw) && k != UeKey(agw) ==>
      t.last[k] == objects[k] || (IsCore(objects[k], k, agw) && exists hash :: t.last[k] == Annotate(objects[k], hash)))
  {
    hide Trails, OwnKey, ValidationLink, AppliedByPass, ReleaseName, IsCore, Evicted, Annotate, GnbKey, UeKey;
    DeploymentsAreNotOwn(agw, k);
    LaunchKeeps(objects, agw, op, o, t, k);
    ApplyAdds(objects, agw, op, o, t, k);
    TrailEnd(objects, agw, op, o, t);
    LastKeepsDeployment(t.rolled, t.last, agw, op.crypto, o, k);
    if k != GnbKey(agw) && k != UeKey(agw) {
      ValidationRollsTwo(t.rolled, t.last, agw, op.crypto, o, k);
    }
  }

  lemma DeploymentsAreNotOwn(agw: Agw, k: ObjectKey)
    requires k.kind.Deployment?
    ensures !OwnKey(agw, k)
  {
    hide ReleaseName;
  }

  lemma LastKeepsDeployment(rolled: Store, last: Store, agw: Agw, crypto: Crypto, o: Oracle, k: ObjectKey)
    requires ValidationLink(rolled, last, agw, crypto, o) && k.kind.Deployment? && k in rolled
    ensures k in last
  {
    hide ReconcileValidation, ReleaseName;
    ValidationTouches(rolled, agw, crypto, o);
  }

  /** A pass that is not a deletion keeps every Deployment it does not list, and annotates no other than a core Deployment of its release, the two that it validates aside. */
  lemma DeploymentsStay(w: World, op: Operator, o: Oracle, k: ObjectKey)
    requires Flows(w, o) && k.kind.Deployment? && k in w.objects && !AppliedByPass(w.objects, w.cr.value, op, o, k)
    ensures var after := Pass(w, op, o).world.objects;
      k in after && (k != GnbKey(w.cr.value) && k != UeKey(w.cr.value) ==>
        after[k] == w.objects[k] || (IsCore(w.objects[k], k, w.cr.value) && exists hash :: after[k] == Annotate(w.objects[k], hash)))
  {
    hide Pass, Trails, Launched, ApplyLaunch, IsCore, AppliedByPass, AgwObjects, PassFinal, ReconcileIdentity, Annotate, GnbKey, UeKey;
    var t := PassTrail(w, op, o);
    FlowKeepsDeployment(w.objects, w.cr.value, op, o, t, k);
  }

  /** Changing the pod template makes a Deployment unready until its controller has seen the change. */
  lemma RolloutRestarts(o: Object, hash: string)
    requires o.status.observedGeneration <= o.generation
    ensures !DeploymentReady(RollOut(o, hash)) && !DeploymentReady(Annotate(o, hash))
    ensures Get(RollOut(o, hash).podAnnotations, "magma.infra.don/ueransim-validation-rollout-hash") == hash
    ensures Get(Annotate(o, hash).podAnnotations, "magma.infra.don/rootca-sha256") == hash
    ensures RollOut(o, hash).body == o.body && Annotate(o, hash).body == o.body
  {
  }
}
