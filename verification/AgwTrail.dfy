/** The stores one flow goes through, stage by stage, and what each stage may touch. */
module AgwTrail {
  import opened GoMaps
  import opened Objects
  import opened NativeRelease
  import opened AgwModel
  import opened AgwIdentity
  import opened AgwDatapath
  import opened AgwTrust
  import opened AgwRegistration
  import opened AgwValues
  import opened AgwValidation
  import opened AgwPass
  import opened AgwRuns
  import HashedJob

  /** The stores between the stages, and the choices made on the way; a stage that is not reached changes nothing. */
  datatype Trail = Trail(
    identified: Store, trusted: Store, registered: Store, applied: Store, rolled: Store, last: Store,
    alias: Alias, simulator: Simulator)

  ghost predicate TrustLink(a: Store, b: Store, agw: Agw, id: Option<Identity>, alias: Alias, crypto: Crypto, o: Oracle) {
    || b == a
    || (id.Some? && b == ReconcileTrustBundle(a, agw, WithAlias(PassValues(agw, id.value), alias), crypto, o.failing).store)
  }

  ghost predicate RegistrationLink(a: Store, b: Store, agw: Agw, id: Option<Identity>, crypto: Crypto, o: Oracle) {
    b == a || (id.Some? && b == ReconcileRegistration(a, agw, id.value, crypto, o.failing).store)
  }

  ghost predicate ApplyLink(a: Store, b: Store, agw: Agw, values: StringMap, simulator: Simulator, op: Operator, o: Oracle) {
    b == a || b == ApplyUpTo(a, AgwObjects(agw, values, op), SimulatorFilter(simulator), o.immutable, o.applyStop)
  }

  /** The values that a pass renders the manifest with, once its identity step has succeeded. */
  ghost function PassFinal(objects: Store, agw: Agw, op: Operator, o: Oracle, simulator: bool): StringMap
    requires ReconcileIdentity(objects, agw, op.crypto, o).identity.Some?
  {
    var step := ReconcileIdentity(objects, agw, op.crypto, o);
    var id := step.identity.value;
    FinalValues(agw, id, HostAlias(step.store, agw.spec, PassValues(agw, id), o.failing), simulator)
  }

  predicate Same(a: Store, b: Store, key: ObjectKey) {
    (key in a <==> key in b) && (key in a ==> b[key] == a[key])
  }

  /** A Deployment of the release that does not belong to the simulator. */
  predicate IsCore(o: Object, k: ObjectKey, agw: Agw) {
    && k.kind.Deployment? && k.namespace == agw.namespace && !Contains(ToLower(k.name), "ueransim")
    && Carries(o.labels, map["app.kubernetes.io/instance" := ReleaseName(agw), "app.kubernetes.io/name" := "magma-agw-upstream"])
  }

  /** A pod of the release that its node has evicted for node affinity. */
  predicate Evicted(o: Object, k: ObjectKey, agw: Agw) {
    && k.kind.Pod? && k.namespace == agw.namespace && o.status.reason == "NodeAffinity"
    && Carries(o.labels, map["app.kubernetes.io/instance" := ReleaseName(agw), "app.kubernetes.io/name" := "magma-agw-upstream"])
  }

  /** Rollout annotations and stale pods: nothing but pod templates of Deployments changes, nothing but evicted Pods goes. */
  ghost predicate RolloutLink(a: Store, b: Store, agw: Agw) {
    forall k: ObjectKey ::
      && (!k.kind.Pod? && !k.kind.Deployment? ==> Same(a, b, k))
      && (k in b ==> k in a)
      && (k.kind.Deployment? && k in a ==> k in b && (b[k] == a[k] || (IsCore(a[k], k, agw) && exists hash :: b[k] == Annotate(a[k], hash))))
      && (k.kind.Pod? && k in b ==> b[k] == a[k])
      && (k.kind.Pod? && k in a && k !in b ==> Evicted(a[k], k, agw))
  }

  ghost predicate ValidationLink(a: Store, b: Store, agw: Agw, crypto: Crypto, o: Oracle) {
    b == a || b == ReconcileValidation(a, agw, crypto, o).store
  }

  ghost predicate Trails(objects: Store, agw: Agw, op: Operator, o: Oracle, t: Trail) {
    var id := ReconcileIdentity(objects, agw, op.crypto, o).identity;
    && t.identified == ReconcileIdentity(objects, agw, op.crypto, o).store
    && TrustLink(t.identified, t.trusted, agw, id, t.alias, op.crypto, o)
    && RegistrationLink(t.trusted, t.registered, agw, id, op.crypto, o)
    && (if id.None? then t.applied == t.registered
        else ApplyLink(t.registered, t.applied, agw, PassFinal(objects, agw, op, o, t.simulator.On?), t.simulator, op, o))
    && RolloutLink(t.applied, t.rolled, agw)
    && ValidationLink(t.rolled, t.last, agw, op.crypto, o)
  }

  // ----- Nothing depends on the status except the status -----

  lemma TrustIgnoresStatus(store: Store, a: Agw, b: Agw, id: Identity, alias: Alias, crypto: Crypto, failing: set<Call>)
    requires SameResource(a, b)
    ensures ReconcileTrustBundle(store, a, WithAlias(PassValues(a, id), alias), crypto, failing)
         == ReconcileTrustBundle(store, b, WithAlias(PassValues(b, id), alias), crypto, failing)
  {
    hide PassValues, ReconcileTrustBundle;
    ValuesIgnoreStatus(a, b, id);
    BundleIgnoresStatus(store, a, b, WithAlias(PassValues(a, id), alias), crypto, failing);
  }

  lemma BundleIgnoresStatus(store: Store, a: Agw, b: Agw, values: StringMap, crypto: Crypto, failing: set<Call>)
    requires SameResource(a, b)
    ensures ReconcileTrustBundle(store, a, values, crypto, failing) == ReconcileTrustBundle(store, b, values, crypto, failing)
  {
    hide HashedJob.Advance, WithRootCA, ReleaseName;
    assert ReleaseName(a) == ReleaseName(b) by { NamesIgnoreStatus(a, b); }
    assert CertSecretKey(a, values) == CertSecretKey(b, values);
  }

  lemma NamesIgnoreStatus(a: Agw, b: Agw)
    requires SameResource(a, b)
    ensures ReleaseName(a) == ReleaseName(b)
  {
  }

  lemma ValuesIgnoreStatus(a: Agw, b: Agw, id: Identity)
    requires SameResource(a, b)
    ensures PassValues(a, id) == PassValues(b, id)
  {
    hide SelectorEntries;
  }

  lemma RegistrationIgnoresStatus(store: Store, a: Agw, b: Agw, id: Identity, crypto: Crypto, failing: set<Call>)
    requires SameResource(a, b)
    ensures ReconcileRegistration(store, a, id, crypto, failing) == ReconcileRegistration(store, b, id, crypto, failing)
  {
    hide HashedJob.Advance;
  }

  lemma ValidationIgnoresStatus(store: Store, a: Agw, b: Agw, crypto: Crypto, o: Oracle)
    requires SameResource(a, b)
    ensures ReconcileValidation(store, a, crypto, o) == ReconcileValidation(store, b, crypto, o)
  {
    hide ReconcileValidationJob, ReconcileRbac;
    ValidationJobIgnoresStatus(ReconcileRbac(store, a.namespace, o.failing).store, a, b, ValidationHashOf(a, crypto), o);
  }

  lemma ValidationJobIgnoresStatus(store: Store, a: Agw, b: Agw, hash: string, o: Oracle)
    requires SameResource(a, b)
    ensures ReconcileValidationJob(store, a, hash, o) == ReconcileValidationJob(store, b, hash, o)
  {
    hide RollOutAll, DeploymentReady, HashedJob.Inspect, HashedJob.NewJob;
    assert Unrolled(store, a, hash) == Unrolled(store, b, hash);
    assert HasUePod(store, a) <==> HasUePod(store, b);
  }

  lemma ObjectsIgnoreStatus(a: Agw, b: Agw, id: Identity, alias: Alias, simulator: bool, op: Operator)
    requires SameResource(a, b)
    ensures AgwObjects(a, FinalValues(a, id, alias, simulator), op) == AgwObjects(b, FinalValues(b, id, alias, simulator), op)
  {
    hide PassValues, ReleaseObjects;
    ValuesIgnoreStatus(a, b, id);
  }

  // ----- The last step, if the flow gets there -----

  /** The working copy with which the last step starts; None when the flow ends before it. */
  ghost function ApplyReach(l: Local, gate: Gate, simulator: Simulator, desired: seq<Desired>, o: Oracle): Option<Local> {
    match ApplyStage(l, desired, simulator, o)
    case Halt(_, _) => None
    case Go(m, _) =>
      match LabelStage(m, gate, o)
      case Halt(_, _) => None
      case Go(n, _) => if simulator.Pending? then None else Some(n)
  }

  ghost function TrustReach(l: Local, id: Identity, gate: Gate, op: Operator, o: Oracle): Option<Local> {
    match TrustStage(l, PassValues(l.agw, id), op.crypto, o)
    case Halt(_, _) => None
    case Go(m, alias) =>
      match RegistrationStage(m, id, op.crypto, o)
      case Halt(_, _) => None
      case Go(n, _) =>
        match SimulatorStage(n, o)
        case Halt(_, _) => None
        case Go(p, simulator) =>
          ApplyReach(p, gate, simulator, AgwObjects(l.agw, FinalValues(l.agw, id, alias, simulator.On?), op), o)
  }

  ghost function LastReach(l: Local, op: Operator, o: Oracle): Option<Local> {
    match IdentityStage(l, op.crypto, o)
    case Halt(_, _) => None
    case Go(m, id) =>
      match DatapathStage(m, o)
      case Halt(_, _) => None
      case Go(n, gate) => TrustReach(n, id, gate, op, o)
  }

  // ----- Where the apply starts, if the flow gets there -----

  /** The working copy with which the apply starts, the decision about the simulator, and the list that is applied. */
  datatype Launch = Launch(local: Local, simulator: Simulator, desired: seq<Desired>)

  ghost function TrustLaunch(l: Local, id: Identity, op: Operator, o: Oracle): Option<Launch> {
    match TrustStage(l, PassValues(l.agw, id), op.crypto, o)
    case Halt(_, _) => None
    case Go(m, alias) =>
      match RegistrationStage(m, id, op.crypto, o)
      case Halt(_, _) => None
      case Go(n, _) =>
        match SimulatorStage(n, o)
        case Halt(_, _) => None
        case Go(p, simulator) => Some(Launch(p, simulator, AgwObjects(l.agw, FinalValues(l.agw, id, alias, simulator.On?), op)))
  }

  ghost function ApplyLaunch(l: Local, op: Operator, o: Oracle): Option<Launch> {
    match IdentityStage(l, op.crypto, o)
    case Halt(_, _) => None
    case Go(m, id) =>
      match DatapathStage(m, o)
      case Halt(_, _) => None
      case Go(n, _) => TrustLaunch(n, id, op, o)
  }

  /** The apply ran to its end, and so did the root CA rollout and the clean-up of evicted pods. */
  ghost predicate PastPods(f: Launch, o: Oracle) {
    ApplyStage(f.local, f.desired, f.simulator, o).Go?
  }

  /** How the trail continues from the launch; without one nothing changes any more. */
  ghost predicate Launched(t: Trail, launch: Option<Launch>, agw: Agw, o: Oracle) {
    match launch
    case None => t.applied == t.registered && t.rolled == t.registered && t.last == t.registered
    case Some(f) =>
      && t.registered == f.local.objects && SameResource(agw, f.local.agw)
      && t.simulator == f.simulator && SimulatorStage(f.local, o) == Go(f.local, f.simulator)
      && t.applied == ApplyUpTo(t.registered, f.desired, SimulatorFilter(t.simulator), o.immutable, o.applyStop)
      && (f.simulator.Pending? ==> t.last == t.rolled)
      && (PastPods(f, o) ==> Completes(o.applyStop, |f.desired|) && forall k :: k in t.rolled ==> !Evicted(t.rolled[k], k, agw))
  }

  // ----- The trail of a flow -----

  lemma RolloutTrail(l: Local, o: Oracle)
    ensures RolloutLink(l.objects, RolloutStage(l, o).local.objects, l.agw)
    ensures RolloutStage(l, o).Go? ==> forall k :: k in RolloutStage(l, o).local.objects ==> !Evicted(RolloutStage(l, o).local.objects[k], k, l.agw)
  {
    hide Unannotated, AnnotateAll, StalePods, RolloutLink, Evicted, IsCore;
    var hash := l.agw.status.trustBundleHash;
    var targets := if hash == "" then {} else Unannotated(l.objects, l.agw, hash);
    UnannotatedAreDeployments(l.objects, l.agw, hash);
    var b := AnnotateAll(l.objects, Served(targets, o.annotated), hash);
    var pods := Served(StalePods(b, l.agw), o.podsDeleted);
    StalePodsArePods(b, l.agw);
    ReflexiveRollout(l.objects, l.agw);
    RolloutOf(l.objects, Served(targets, o.annotated), hash, {}, l.agw);
    assert b - {} == b;
    RolloutOf(l.objects, Served(targets, o.annotated), hash, pods, l.agw);
  }

  lemma StalePodsArePods(store: Store, agw: Agw)
    ensures forall k :: k in StalePods(store, agw) <==> k in store && Evicted(store[k], k, agw)
  {
  }

  lemma RolloutOf(a: Store, targets: set<ObjectKey>, hash: string, pods: set<ObjectKey>, agw: Agw)
    requires forall k :: k in targets ==> k in a && IsCore(a[k], k, agw)
    requires forall k :: k in pods ==> k in AnnotateAll(a, targets, hash) && Evicted(AnnotateAll(a, targets, hash)[k], k, agw)
    ensures RolloutLink(a, AnnotateAll(a, targets, hash) - pods, agw)
  {
    hide Annotate;
  }

  lemma UnannotatedAreDeployments(store: Store, agw: Agw, hash: string)
    ensures forall k :: k in Unannotated(store, agw, hash) ==> k in store && IsCore(store[k], k, agw)
  {
  }

  /** The last three stages, from the store they start with. */
  ghost predicate ApplyTrails(l: Local, desired: seq<Desired>, simulator: Simulator, crypto: Crypto, o: Oracle, applied: Store, rolled: Store, last: Store) {
    && applied == ApplyUpTo(l.objects, desired, SimulatorFilter(simulator), o.immutable, o.applyStop)
    && RolloutLink(applied, rolled, l.agw)
    && ValidationLink(rolled, last, l.agw, crypto, o)
  }

  lemma ApplyTrail(l: Local, gate: Gate, simulator: Simulator, desired: seq<Desired>, crypto: Crypto, o: Oracle)
    returns (applied: Store, rolled: Store, last: Store)
    ensures ApplyTrails(l, desired, simulator, crypto, o, applied, rolled, last)
    ensures last == ApplyFlow(l, gate, simulator, desired, crypto, o).local.objects
    ensures var r := ApplyReach(l, gate, simulator, desired, o); r.Some? ==> r.value.objects == rolled
    ensures simulator.Pending? ==> last == rolled
    ensures ApplyStage(l, desired, simulator, o).Go? ==> Completes(o.applyStop, |desired|) && forall k :: k in rolled ==> !Evicted(rolled[k], k, l.agw)
  {
    hide RolloutStage, ReconcileLabels, ReconcileValidation, ApplyUpTo, Handled, Completes, FinishStage;
    hide RolloutLink, Evicted;
    var l1 := l.(agw := RemoveCondition(l.agw, ConditionType.UERANSIMReady));
    applied := ApplyUpTo(l.objects, desired, SimulatorFilter(simulator), o.immutable, o.applyStop);
    var a := ApplyStage(l, desired, simulator, o);
    if Completes(o.applyStop, |desired|) {
      RolloutTrail(l1.(objects := applied), o);
      RolloutAgw(l1.(objects := applied), o);
    } else {
      assert RolloutLink(applied, applied, l.agw) by { ReflexiveRollout(applied, l.agw); }
    }
    rolled := a.local.objects;
    last := ApplyFlow(l, gate, simulator, desired, crypto, o).local.objects;
    RolloutIgnoresStatus(applied, rolled, l.agw, l1.agw);
    ValidationIgnoresStatus(rolled, l.agw, l1.agw, crypto, o);
    FinishStore(a.local, simulator, crypto, o);
  }

  lemma RolloutIgnoresStatus(applied: Store, rolled: Store, a: Agw, b: Agw)
    requires SameResource(a, b)
    ensures RolloutLink(applied, rolled, a) <==> RolloutLink(applied, rolled, b)
    ensures forall o: Object, k: ObjectKey :: Evicted(o, k, a) <==> Evicted(o, k, b)
    ensures forall o: Object, k: ObjectKey :: IsCore(o, k, a) <==> IsCore(o, k, b)
  {
    hide Annotate;
    NamesIgnoreStatus(a, b);
    hide ReleaseName;
  }

  lemma FinishStore(l: Local, simulator: Simulator, crypto: Crypto, o: Oracle)
    ensures ValidationLink(l.objects, FinishStage(l, simulator, crypto, o).local.objects, l.agw, crypto, o)
    ensures simulator.Pending? ==> FinishStage(l, simulator, crypto, o).local.objects == l.objects
  {
    hide ReconcileValidation;
  }

  lemma RolloutAgw(l: Local, o: Oracle)
    ensures RolloutStage(l, o).local.agw == l.agw
  {
    hide AnnotateAll, StalePods, Unannotated;
  }

  lemma ReflexiveRollout(a: Store, agw: Agw)
    ensures RolloutLink(a, a, agw)
  {
  }

  lemma StoredTrail(l: Local, crypto: Crypto, o: Oracle)
    ensures var s := IdentityStage(l, crypto, o);
      && s.local.objects == ReconcileIdentity(l.objects, l.agw, crypto, o).store
      && (s.Go? ==> ReconcileIdentity(l.objects, l.agw, crypto, o).identity == Some(s.value))
  {
    hide ReconcileIdentity;
  }

  lemma TrustTrail(l: Local, id: Identity, crypto: Crypto, o: Oracle) returns (alias: Alias)
    ensures TrustLink(l.objects, TrustStage(l, PassValues(l.agw, id), crypto, o).local.objects, l.agw, Some(id), alias, crypto, o)
    ensures alias == HostAlias(l.objects, l.agw.spec, PassValues(l.agw, id), o.failing)
    ensures TrustStage(l, PassValues(l.agw, id), crypto, o).Go? ==> alias == TrustStage(l, PassValues(l.agw, id), crypto, o).value
  {
    hide HostAlias, ReconcileTrustBundle, PassValues;
    alias := HostAlias(l.objects, l.agw.spec, PassValues(l.agw, id), o.failing);
  }

  lemma RegistrationTrail(l: Local, id: Identity, crypto: Crypto, o: Oracle)
    ensures RegistrationLink(l.objects, RegistrationStage(l, id, crypto, o).local.objects, l.agw, Some(id), crypto, o)
  {
    hide ReconcileRegistration;
  }

  lemma SimulatorTrail(l: Local, o: Oracle)
    ensures SimulatorStage(l, o).local == l
  {
    hide GateOpen;
  }

  lemma FlowTrail(l: Local, op: Operator, o: Oracle) returns (t: Trail)
    ensures Trails(l.objects, l.agw, op, o, t)
    ensures t.last == MainFlow(l, op, o).local.objects
    ensures LastReach(l, op, o).Some? ==> LastReach(l, op, o).value.objects == t.rolled
  {
    hide Trails, MainFlow, LastReach, ApplyLaunch, Launched, AgwObjects, PassFinal, ReconcileIdentity;
    t := LaunchTrail(l, op, o);
  }

  /** The trail with the launch it goes through. */
  lemma LaunchTrail(l: Local, op: Operator, o: Oracle) returns (t: Trail)
    ensures Trails(l.objects, l.agw, op, o, t)
    ensures t.last == MainFlow(l, op, o).local.objects
    ensures LastReach(l, op, o).Some? ==> LastReach(l, op, o).value.objects == t.rolled
    ensures Launched(t, ApplyLaunch(l, op, o), l.agw, o)
    ensures ApplyLaunch(l, op, o).Some? ==>
      && ReconcileIdentity(l.objects, l.agw, op.crypto, o).identity.Some?
      && ApplyLaunch(l, op, o).value.desired == AgwObjects(l.agw, PassFinal(l.objects, l.agw, op, o, t.simulator.On?), op)
  {
    hide Launched, TrustLaunch, TrustReach, IdentityStage, DatapathStage, TrustFlow, ReconcileIdentity, RolloutLink, ReconcileTrustBundle, ReconcileRegistration, ApplyUpTo, AgwObjects, PassValues, FinalValues, ReconcileValidation;
    var a := IdentityStage(l, op.crypto, o);
    StoredTrail(l, op.crypto, o);
    IdentityKeepsResource(l, op.crypto, o);
    var s := a.local.objects;
    t := Trail(s, s, s, s, s, s, NoAlias, Off);
    ReflexiveRollout(s, l.agw);
    assert Launched(t, None, l.agw, o) by { NotLaunched(t, l.agw, o); }
    if a.Go? {
      var b := DatapathStage(a.local, o);
      DatapathTrail(a.local, o);
      DatapathKeepsResource(a.local, o);
      if b.Go? {
        t := TrustFlowTrail(l.agw, b.local, a.value, b.value, op, o);
      }
    }
  }

  lemma NotLaunched(t: Trail, agw: Agw, o: Oracle)
    requires t.applied == t.registered && t.rolled == t.registered && t.last == t.registered
    ensures Launched(t, None, agw, o)
  {
  }

  lemma DatapathTrail(l: Local, o: Oracle)
    ensures DatapathStage(l, o).local.objects == l.objects && DatapathStage(l, o).local.nodes == l.nodes
  {
    hide CheckNodes;
  }

  lemma TrustFlowTrail(agw: Agw, l: Local, id: Identity, gate: Gate, op: Operator, o: Oracle) returns (t: Trail)
    requires SameResource(agw, l.agw)
    ensures t.identified == l.objects
    ensures TrustLink(t.identified, t.trusted, agw, Some(id), t.alias, op.crypto, o)
    ensures RegistrationLink(t.trusted, t.registered, agw, Some(id), op.crypto, o)
    ensures ApplyLink(t.registered, t.applied, agw,
                      FinalValues(agw, id, HostAlias(l.objects, agw.spec, PassValues(agw, id), o.failing), t.simulator.On?), t.simulator, op, o)
    ensures RolloutLink(t.applied, t.rolled, agw)
    ensures ValidationLink(t.rolled, t.last, agw, op.crypto, o)
    ensures t.last == TrustFlow(l, id, gate, op, o).local.objects
    ensures TrustReach(l, id, gate, op, o).Some? ==> TrustReach(l, id, gate, op, o).value.objects == t.rolled
    ensures Launched(t, TrustLaunch(l, id, op, o), agw, o)
    ensures TrustLaunch(l, id, op, o).Some? ==>
      TrustLaunch(l, id, op, o).value.desired
        == AgwObjects(agw, FinalValues(agw, id, HostAlias(l.objects, agw.spec, PassValues(agw, id), o.failing), t.simulator.On?), op)
  {
    hide ApplyStage, Evicted, Completes;
    hide ApplyReach, TrustStage, RegistrationStage, SimulatorStage, ApplyFlow, HostAlias, RolloutLink, ReconcileTrustBundle, ReconcileRegistration, ApplyUpTo, AgwObjects, PassValues, FinalValues, ReconcileValidation;
    var values := PassValues(l.agw, id);
    var a := TrustStage(l, values, op.crypto, o);
    TrustKeepsResource(l, values, op.crypto, o);
    var alias := TrustTrail(l, id, op.crypto, o);
    TrustIgnoresStatus(l.objects, agw, l.agw, id, alias, op.crypto, o.failing);
    ValuesIgnoreStatus(agw, l.agw, id);
    var s := a.local.objects;
    t := Trail(l.objects, s, s, s, s, s, alias, Off);
    ReflexiveRollout(s, agw);
    if a.Go? {
      var b := RegistrationStage(a.local, id, op.crypto, o);
      RegistrationTrail(a.local, id, op.crypto, o);
      RegistrationKeepsResource(a.local, id, op.crypto, o);
      RegistrationIgnoresStatus(s, agw, a.local.agw, id, op.crypto, o.failing);
      var r := b.local.objects;
      t := Trail(l.objects, s, r, r, r, r, alias, Off);
      ReflexiveRollout(r, agw);
      if b.Go? {
        var c := SimulatorStage(b.local, o);
        SimulatorTrail(b.local, o);
        if c.Go? {
          var desired := AgwObjects(l.agw, FinalValues(l.agw, id, alias, c.value.On?), op);
          var applied, rolled, last := ApplyTrail(c.local, gate, c.value, desired, op.crypto, o);
          ObjectsIgnoreStatus(agw, l.agw, id, alias, c.value.On?, op);
          ValidationIgnoresStatus(rolled, agw, c.local.agw, op.crypto, o);
          RolloutIgnoresStatus(applied, rolled, agw, c.local.agw);
          t := Trail(l.objects, s, r, applied, rolled, last, alias, c.value);
        }
      }
    }
  }
}
