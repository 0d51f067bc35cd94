/** Convergence over whole runs, and one-time replacement of Jobs. */
module AgwEventually {
  import opened Objects
  import opened NativeRelease
  import opened AgwModel
  import opened AgwIdentity
  import opened AgwDatapath
  import opened AgwTrust
  import opened AgwRegistration
  import opened AgwPass
  import opened AgwRuns
  import opened AgwReady
  import opened AgwTrail
  import opened AgwFootprint
  import opened AgwFinalizer
  import opened AgwJobs
  import opened AgwStability
  import opened AgwMeasure
  import opened AgwProgress
  import opened AgwFlowMeasure
  import opened AgwBounded
  import HashedJob

  // ----- Only name, namespace and specification matter -----

  predicate Alike(a: Agw, b: Agw) {
    a.name == b.name && a.namespace == b.namespace && a.spec == b.spec && a.deleting == b.deleting
  }

  lemma AlikeKeys(a: Agw, b: Agw)
    requires Alike(a, b)
    ensures RootCAJobKey(a) == RootCAJobKey(b) && RegistrationJobKey(a) == RegistrationJobKey(b) && GateKey(a) == GateKey(b) && PvcKey(a) == PvcKey(b)
    ensures IdentityKey(a) == IdentityKey(b) && CertKey(a) == CertKey(b) && ImportKey(a) == ImportKey(b) && AgwTarget(a) == AgwTarget(b)
  {
  }

  lemma AlikeManifest(op: Operator, a: Agw, b: Agw)
    requires Alike(a, b)
    ensures forall v :: AgwObjects(a, v, op) == AgwObjects(b, v, op)
    ensures forall k :: OutsideManifest(op, a, k) <==> OutsideManifest(op, b, k)
  {
    AlikeKeys(a, b);
    hide AgwTarget;
    assert forall v :: AgwObjects(a, v, op) == AgwObjects(b, v, op);
    hide AgwObjects;
  }

  lemma AlikeTrust(op: Operator, a: Agw, b: Agw)
    requires Alike(a, b) && TrustPosed(op, a)
    ensures TrustPosed(op, b)
  {
    AlikeKeys(a, b);
    AlikeManifest(op, a, b);
    hide RootCAJobKey, IdentityKey, CertKey, Orc8rCertKey, OutsideManifest;
  }

  lemma AlikeRegistration(op: Operator, a: Agw, b: Agw)
    requires Alike(a, b) && RegistrationPosed(op, a)
    ensures RegistrationPosed(op, b)
  {
    AlikeKeys(a, b);
    AlikeManifest(op, a, b);
    assert Rotates(a) == Rotates(b) && ImportStable(a) == ImportStable(b);
    hide RegistrationJobKey, IdentityKey, CertKey, ImportKey, OutsideManifest, Rotates, KeysAreTexts, ImportStable;
  }

  lemma AlikePosed(op: Operator, a: Agw, b: Agw)
    requires Alike(a, b) && WellPosed(op, a)
    ensures WellPosed(op, b)
  {
    AlikeKeys(a, b);
    AlikeManifest(op, a, b);
    AlikeTrust(op, a, b);
    AlikeRegistration(op, a, b);
    assert forall id :: GatewayPayload(a, id) == GatewayPayload(b, id);
    hide TrustPosed, RegistrationPosed, GateKey, MagmalteKey, OutsideManifest, AgwObjects, GatewayPayload, StartPolicy, NodeSelector, Lists;
  }

  lemma AlikeProvided(store: Store, nodes: seq<Node>, a: Agw, b: Agw, crypto: Crypto)
    requires Alike(a, b)
    ensures Provided(store, nodes, a, crypto) <==> Provided(store, nodes, b, crypto)
  {
    AlikeKeys(a, b);
    assert DesiredPrivateKey(store, a, crypto, false) == DesiredPrivateKey(store, b, crypto, false);
    hide DesiredPrivateKey, IdentityKey, RootCA, MagmalteImage, AnySelected;
  }

  lemma AlikeSettled(store: Store, a: Agw, b: Agw, crypto: Crypto)
    requires Alike(a, b)
    ensures Settled(store, a, crypto) <==> Settled(store, b, crypto)
    ensures IdentityKey(a) == IdentityKey(b)
    ensures IdentityKey(a) in store ==> SettledPayload(store, a, crypto) == SettledPayload(store, b, crypto)
  {
    SettledSame(store, a, b, crypto);
    hide Settled;
  }

  lemma AlikeViews(store: Store, a: Agw, b: Agw, payload: string, crypto: Crypto)
    requires Alike(a, b)
    ensures RootCAView(store, a, crypto) == RootCAView(store, b, crypto)
    ensures RegistrationView(store, a, payload, crypto) == RegistrationView(store, b, payload, crypto)
    ensures SimulatorEvidence(store, a) <==> SimulatorEvidence(store, b)
  {
    AlikeKeys(a, b);
    hide RootCAJobKey, RegistrationJobKey, GateKey, HashedJob.Inspect, RootCA, EqualFold;
  }

  lemma AlikeMeasure(store: Store, nodes: seq<Node>, a: Agw, b: Agw, crypto: Crypto)
    requires Alike(a, b)
    ensures ObjectMeasure(store, nodes, a, crypto) == ObjectMeasure(store, nodes, b, crypto)
    ensures Waiting(store, a, crypto) <==> Waiting(store, b, crypto)
  {
    AlikeKeys(a, b);
    AlikeSettled(store, a, b, crypto);
    assert IdentityKey(a) in store || !Settled(store, a, crypto);
    var payload := if Settled(store, a, crypto) && SettledPayload(store, a, crypto).Some? then SettledPayload(store, a, crypto).value else "";
    AlikeViews(store, a, b, payload, crypto);
    hide PvcKey, Settled, SettledPayload, RootCAView, RegistrationView, HashedJob.Distance, NodesReady, PrepReady, SimulatorEvidence, InFlight, IdentityKey;
  }

  // ----- A cooperative cluster between passes -----

  /** A Job is left to run: it keeps its annotations, and success stays. */
  predicate JobRuns(a: Store, b: Store, k: ObjectKey) {
    && (k in a <==> k in b)
    && (k in a ==> b[k].annotations == a[k].annotations && (a[k].status.succeeded > 0 ==> b[k].status.succeeded > 0))
  }

  /** Others leave the root CA Job and the Orc8r certificate Secret alone. */
  predicate LeavesTrust(a: Store, b: Store, agw: Agw) {
    Same(a, b, Orc8rCertKey(agw.spec)) && JobRuns(a, b, RootCAJobKey(agw))
  }

  /** Others leave the registration Job, the identity Secret and its import source alone. */
  predicate LeavesRegistration(a: Store, b: Store, agw: Agw) {
    IdentityUndisturbed(a, b, agw) && JobRuns(a, b, RegistrationJobKey(agw))
  }

  /** Others leave the operator's objects alone and do not undo what is ready. */
  ghost predicate Cooperates(a: World, b: World, agw: Agw) {
    && (HasFinalizer(a) ==> HasFinalizer(b))
    && LeavesTrust(a.objects, b.objects, agw) && LeavesRegistration(a.objects, b.objects, agw)
    && (PrepKey(agw.namespace) in a.objects ==> PrepKey(agw.namespace) in b.objects)
    && (PrepReady(a.objects, agw.namespace) ==> PrepReady(b.objects, agw.namespace))
    && (DatapathEvidence(a.objects, a.nodes, agw) ==> DatapathEvidence(b.objects, b.nodes, agw))
    && (SimulatorEvidence(a.objects, agw) ==> SimulatorEvidence(b.objects, agw))
  }

  lemma RunsDistance(a: Store, b: Store, k: ObjectKey, annotation: string, hash: string)
    requires JobRuns(a, b, k)
    ensures HashedJob.Distance(HashedJob.Inspect(b, k, annotation, hash)) <= HashedJob.Distance(HashedJob.Inspect(a, k, annotation, hash))
    ensures HashedJob.Inspect(a, k, annotation, hash).Stale? <==> HashedJob.Inspect(b, k, annotation, hash).Stale?
  {
  }

  lemma EnvRootCA(a: Store, b: Store, agw: Agw, crypto: Crypto)
    requires LeavesTrust(a, b, agw)
    ensures RootCADistance(b, agw, crypto) <= RootCADistance(a, agw, crypto)
  {
    hide RootCAJobKey, RootCA, Orc8rCertKey, HashedJob.Inspect, HashedJob.Distance, JobRuns, Same;
    SameRootCA(a, b, agw.spec);
    RunsDistance(a, b, RootCAJobKey(agw), ROOT_CA_HASH, crypto.sha(RootCA(a, agw.spec)));
  }

  lemma EnvRegistration(a: Store, b: Store, agw: Agw, crypto: Crypto)
    requires LeavesRegistration(a, b, agw)
    ensures RegistrationDistance(b, agw, crypto) <= RegistrationDistance(a, agw, crypto)
  {
    RegistrationBound(b, agw, crypto);
    if RegistrationEnabled(agw.spec.registration) && Settled(a, agw, crypto) {
      SettledMoves(a, b, agw, crypto);
      assert SettledPayload(a, agw, crypto) == SettledPayload(b, agw, crypto);
      if SettledPayload(a, agw, crypto).Some? {
        RunsDistance(a, b, RegistrationJobKey(agw), PAYLOAD_HASH, crypto.sha(SettledPayload(a, agw, crypto).value));
      }
    }
    hide HashedJob.Inspect, HashedJob.Distance, SettledPayload, IdentityUndisturbed, JobRuns, Consistent, AsRequested, RegistrationJobKey;
  }

  /** A cooperative cluster never raises the measure. */
  lemma EnvMeasure(a: World, b: World, agw: Agw, crypto: Crypto)
    requires Cooperates(a, b, agw)
    ensures Measure(b, agw, crypto) <= Measure(a, agw, crypto)
  {
    hide RootCADistance, RegistrationDistance, LeavesTrust, LeavesRegistration, DatapathEvidence, SimulatorEvidence, PrepReady;
    EnvRootCA(a.objects, b.objects, agw, crypto);
    EnvRegistration(a.objects, b.objects, agw, crypto);
  }

  // ----- Runs -----

  /** A run with one specification and tame values; passes may fail, conflict or wait anywhere. */
  ghost predicate SteadyRun(op: Operator, agw: Agw, ws: seq<World>, es: seq<Event>) {
    && Run(op, ws, es)
    && forall i :: 0 <= i < |es| ==> SteadyStep(op, agw, ws[i], es[i])
  }

  ghost predicate SteadyStep(op: Operator, agw: Agw, w: World, e: Event) {
    Kept(w, agw) && (e.PassEvent? ==> TamePass(w.objects, w.cr.value, op, e.o))
  }

  // ----- No pass takes a part of the measure further away, whatever fails -----

  lemma PassRootCA(w: World, op: Operator, o: Oracle)
    requires w.cr.Some? && !w.cr.value.deleting && TrustPosed(op, w.cr.value) && TamePass(w.objects, w.cr.value, op, o)
    ensures RootCADistance(Pass(w, op, o).world.objects, w.cr.value, op.crypto) <= RootCADistance(w.objects, w.cr.value, op.crypto)
    ensures Same(w.objects, Pass(w, op, o).world.objects, Orc8rCertKey(w.cr.value.spec))
  {
    hide MainFlow, DeletionPass, Trails, RootCADistance, TrustPosed, TamePass;
    if HasFinalizer(w) {
      var t := FlowTrail(Local(w.objects, w.nodes, w.cr.value), op, o);
      FlowRootCA(w.objects, w.cr.value, op, o, t);
    }
  }

  /** What a pass does to the registration Job, by the payload it has. */
  lemma PassRegistration(w: World, op: Operator, o: Oracle)
    requires w.cr.Some? && !w.cr.value.deleting && RegistrationPosed(op, w.cr.value) && TamePass(w.objects, w.cr.value, op, o)
    ensures RegistrationJobStep(w.objects, Pass(w, op, o).world.objects, w.cr.value, if HasFinalizer(w) && ResourceGet !in o.failing then PayloadOf(w, op, o) else None, op.crypto)
    ensures HasFinalizer(w) && ResourceGet !in o.failing && PayloadOf(w, op, o).Some? ==> PaysAs(Pass(w, op, o).world.objects, w.cr.value, op.crypto, PayloadOf(w, op, o))
  {
    hide MainFlow, DeletionPass, Trails, Spared, OutsideManifest, IdentityApart, KeysAreTexts, Rotates, TamePass, Settled, SettledPayload, HashedJob.Moves, ReconcileIdentity, GatewayPayload;
    var agw := w.cr.value;
    if HasFinalizer(w) && ResourceGet !in o.failing {
      var t := FlowTrail(Local(w.objects, w.nodes, agw), op, o);
      TameSpares(w.objects, agw, op, o, RegistrationJobKey(agw));
      FlowRegistrationJob(w.objects, w.nodes, agw, op, o, t);
      assert World(Some(agw), w.objects, w.nodes) == w;
      if PayloadOf(w, op, o).Some? {
        FlowIdentity(w.objects, agw, op, o, t, ReconcileIdentity(w.objects, agw, op.crypto, o).identity.value);
      }
    }
  }

  /** The identity is settled and gives this payload. */
  ghost predicate PaysAs(store: Store, agw: Agw, crypto: Crypto, payload: Option<string>) {
    Settled(store, agw, crypto) && SettledPayload(store, agw, crypto) == payload
  }

  ghost predicate Pays(store: Store, agw: Agw, crypto: Crypto, payload: string) {
    PaysAs(store, agw, crypto, Some(payload))
  }

  lemma StepDistance(a: Store, b: Store, agw: Agw, payload: string, p: Option<string>, crypto: Crypto)
    requires RegistrationJobStep(a, b, agw, p, crypto) && (p.None? || p == Some(payload))
    ensures HashedJob.Distance(RegistrationView(b, agw, payload, crypto)) <= HashedJob.Distance(RegistrationView(a, agw, payload, crypto))
  {
    hide RegistrationJobKey, HashedJob.Inspect, HashedJob.Distance, HashedJob.Moves, Same;
    if Same(a, b, RegistrationJobKey(agw)) {
      SameInspect(a, b, RegistrationJobKey(agw), PAYLOAD_HASH, crypto.sha(payload));
    } else {
      MovesDistance(a, b, RegistrationJobKey(agw), PAYLOAD_HASH, crypto.sha(payload), payload);
    }
  }

  lemma PaysMoves(a: Store, b: Store, agw: Agw, crypto: Crypto, payload: string)
    requires Pays(a, agw, crypto, payload) && IdentityUndisturbed(a, b, agw)
    ensures Pays(b, agw, crypto, payload)
  {
    SettledMoves(a, b, agw, crypto);
    hide Consistent, AsRequested, IdentityUndisturbed;
  }

  lemma PassPays(w: World, op: Operator, o: Oracle, payload: string)
    requires w.cr.Some? && !w.cr.value.deleting && RegistrationPosed(op, w.cr.value) && TamePass(w.objects, w.cr.value, op, o)
    requires Pays(w.objects, w.cr.value, op.crypto, payload)
    ensures Pays(Pass(w, op, o).world.objects, w.cr.value, op.crypto, payload)
    ensures PayloadOf(w, op, o).None? || PayloadOf(w, op, o) == Some(payload)
    ensures HashedJob.Distance(RegistrationView(Pass(w, op, o).world.objects, w.cr.value, payload, op.crypto))
         <= HashedJob.Distance(RegistrationView(w.objects, w.cr.value, payload, op.crypto))
  {
    hide Pass, PayloadOf, TamePass, IdentityApart, OutsideManifest, RegistrationView, Consistent, AsRequested, RegistrationJobStep;
    PassKeepsIdentity(w, op, o);
    SettledPayloadOf(w, op, o, w.cr.value);
    PassRegistration(w, op, o);
    StepDistance(w.objects, Pass(w, op, o).world.objects, w.cr.value, payload, if HasFinalizer(w) && ResourceGet !in o.failing then PayloadOf(w, op, o) else None, op.crypto);
  }

  lemma PassRegistrationDistance(w: World, op: Operator, o: Oracle)
    requires w.cr.Some? && !w.cr.value.deleting && RegistrationPosed(op, w.cr.value) && TamePass(w.objects, w.cr.value, op, o)
    ensures RegistrationDistance(Pass(w, op, o).world.objects, w.cr.value, op.crypto) <= RegistrationDistance(w.objects, w.cr.value, op.crypto)
  {
    hide Pass, RegistrationPosed, TamePass, Consistent, AsRequested, DesiredPrivateKey, RegistrationView, HashedJob.Distance, SettledPayload;
    var agw, after := w.cr.value, Pass(w, op, o).world.objects;
    RegistrationBound(after, agw, op.crypto);
    if RegistrationEnabled(agw.spec.registration) && Settled(w.objects, agw, op.crypto) && SettledPayload(w.objects, agw, op.crypto).Some? {
      PassPays(w, op, o, SettledPayload(w.objects, agw, op.crypto).value);
    }
  }

  lemma PassLabels(w: World, op: Operator, o: Oracle)
    requires w.cr.Some? && !w.cr.value.deleting
    ensures var w' := Pass(w, op, o).world;
      LabelDistance(w'.objects, w'.nodes, w.cr.value) <= LabelDistance(w.objects, w.nodes, w.cr.value)
  {
    hide MainFlow, DeletionPass, Trails, LabelDistance, NodesFrom;
    if HasFinalizer(w) {
      var l := Local(w.objects, w.nodes, w.cr.value);
      var t := FlowTrail(l, op, o);
      FlowKeepsDaemon(w.objects, w.cr.value, op, o, t, PrepKey(w.cr.value.namespace));
      FlowNodes(l, op, o);
      LabelsNotFurther(l, t.last, MainFlow(l, op, o).local.nodes, o);
    }
  }

  lemma PassGate(w: World, op: Operator, o: Oracle)
    requires w.cr.Some? && !w.cr.value.deleting && Spared(w.objects, w.cr.value, op, o, GateKey(w.cr.value))
    ensures GateDistance(Pass(w, op, o).world.objects, w.cr.value) == GateDistance(w.objects, w.cr.value)
  {
    hide MainFlow, DeletionPass, Trails, Spared, SimulatorEvidence;
    if HasFinalizer(w) {
      var t := FlowTrail(Local(w.objects, w.nodes, w.cr.value), op, o);
      FlowGate(w.objects, w.cr.value, op, o, t);
    }
  }

  /** No pass, whatever fails in it, raises the measure. */
  lemma PassMeasure(w: World, op: Operator, o: Oracle)
    requires w.cr.Some? && WellPosed(op, w.cr.value) && TamePass(w.objects, w.cr.value, op, o)
    ensures Measure(Pass(w, op, o).world, w.cr.value, op.crypto) <= Measure(w, w.cr.value, op.crypto)
  {
    hide Pass, TrustPosed, RegistrationPosed, TamePass, Spared, OutsideManifest, AgwObjects, GatewayPayload, RootCADistance, RegistrationDistance, LabelDistance, GateDistance;
    PassRootCA(w, op, o);
    PassRegistrationDistance(w, op, o);
    PassLabels(w, op, o);
    TameSpares(w.objects, w.cr.value, op, o, GateKey(w.cr.value));
    PassGate(w, op, o);
    if HasFinalizer(w) && !HasFinalizer(Pass(w, op, o).world) {
      RemovalIsDeletion(w, op, o);
    }
  }

  // ----- Convergence -----

  /** A run with one specification in which the rest of the cluster cooperates; passes may fail, conflict or wait anywhere. */
  ghost predicate CooperativeRun(op: Operator, agw: Agw, ws: seq<World>, es: seq<Event>) {
    && SteadyRun(op, agw, ws, es) && WellPosed(op, agw)
    && forall i :: 0 <= i < |es| && es[i].EnvEvent? ==> Cooperates(ws[i], ws[i + 1], agw)
  }

  /** A pass that finds the prerequisites, meets no failure and has nothing to wait for. */
  ghost predicate Productive(op: Operator, agw: Agw, w: World, e: Event) {
    && e.PassEvent? && Smooth(w, op, e.o)
    && Provided(w.objects, w.nodes, agw, op.crypto) && !Waiting(w.objects, agw, op.crypto)
  }

  /** How many passes of the run are productive. */
  ghost function Productives(op: Operator, agw: Agw, ws: seq<World>, es: seq<Event>): nat
    requires |ws| == |es| + 1
    decreases |es|
  {
    if es == [] then 0 else (if Productive(op, agw, ws[0], es[0]) then 1 else 0) + Productives(op, agw, ws[1..], es[1..])
  }

  /** One step of a cooperative run never raises the measure, and a productive pass lowers it or reports Ready. */
  lemma StepMeasure(op: Operator, agw: Agw, w: World, e: Event, w': World)
    requires WellPosed(op, agw) && Steps(op, w, e, w') && SteadyStep(op, agw, w, e) && (e.EnvEvent? ==> Cooperates(w, w', agw))
    ensures Measure(w', agw, op.crypto) <= Measure(w, agw, op.crypto)
    ensures Productive(op, agw, w, e) ==> ReadyNow(w') || Measure(w', agw, op.crypto) < Measure(w, agw, op.crypto)
  {
    hide Pass, WellPosed, Provided, Waiting, ObjectMeasure, Smooth, TamePass, Cooperates;
    if e.EnvEvent? {
      EnvMeasure(w, w', agw, op.crypto);
    } else {
      var a := w.cr.value;
      AlikePosed(op, agw, a);
      AlikeMeasure(w.objects, w.nodes, agw, a, op.crypto);
      AlikeMeasure(w'.objects, w'.nodes, agw, a, op.crypto);
      PassMeasure(w, op, e.o);
      if Productive(op, agw, w, e) {
        AlikeProvided(w.objects, w.nodes, agw, a, op.crypto);
        PassProgress(w, op, e.o);
      }
    }
  }

  ghost predicate ReadyAt(op: Operator, agw: Agw, ws: seq<World>, es: seq<Event>, i: nat)
    requires |ws| == |es| + 1
  {
    i < |es| && Productive(op, agw, ws[i], es[i]) && ReadyNow(ws[i + 1])
  }

  lemma CooperativeTail(op: Operator, agw: Agw, ws: seq<World>, es: seq<Event>)
    requires CooperativeRun(op, agw, ws, es) && es != []
    ensures CooperativeRun(op, agw, ws[1..], es[1..])
    ensures Steps(op, ws[0], es[0], ws[1]) && SteadyStep(op, agw, ws[0], es[0]) && (es[0].EnvEvent? ==> Cooperates(ws[0], ws[1], agw))
  {
    hide Steps, WellPosed, SteadyStep, Cooperates;
    assert forall i :: 0 <= i < |es| - 1 ==> ws[1..][i] == ws[i + 1] && es[1..][i] == es[i + 1];
  }

  /**
   Over any cooperative run, passes that fail, conflict or wait included: of the first
   Measure + 1 productive passes one writes Ready=True for the current generation.
   */
  lemma {:induction false} ReadyInTime(op: Operator, agw: Agw, ws: seq<World>, es: seq<Event>) returns (i: nat)
    requires CooperativeRun(op, agw, ws, es) && Productives(op, agw, ws, es) > Measure(ws[0], agw, op.crypto)
    ensures ReadyAt(op, agw, ws, es, i)
    ensures Productives(op, agw, ws[..i + 1], es[..i]) <= Measure(ws[0], agw, op.crypto)
    decreases |es|
  {
    hide Steps, WellPosed, Measure, Productive, SteadyStep, Cooperates, ReadyNow;
    CooperativeTail(op, agw, ws, es);
    StepMeasure(op, agw, ws[0], es[0], ws[1]);
    if Productive(op, agw, ws[0], es[0]) && ReadyNow(ws[1]) {
      i := 0;
    } else {
      var j := ReadyInTime(op, agw, ws[1..], es[1..]);
      i := j + 1;
      PrefixProductives(op, agw, ws, es, j);
    }
  }

  lemma PrefixProductives(op: Operator, agw: Agw, ws: seq<World>, es: seq<Event>, j: nat)
    requires |ws| == |es| + 1 && j < |es|
    ensures Productives(op, agw, ws[..j + 2], es[..j + 1]) ==
      (if Productive(op, agw, ws[0], es[0]) then 1 else 0) + Productives(op, agw, ws[1..][..j + 1], es[1..][..j])
  {
    hide Productive;
    assert ws[..j + 2][1..] == ws[1..][..j + 1] && es[..j + 1][1..] == es[1..][..j];
  }

  /** Twelve productive passes are always enough. */
  lemma ReadyWithinTwelve(op: Operator, agw: Agw, ws: seq<World>, es: seq<Event>) returns (i: nat)
    requires CooperativeRun(op, agw, ws, es) && Productives(op, agw, ws, es) >= 12
    ensures ReadyAt(op, agw, ws, es, i) && Productives(op, agw, ws[..i + 1], es[..i]) < 12
  {
    hide Steps, SteadyStep, ReadyAt, Measure, WellPosed, Cooperates, Productive;
    MeasureBounded(ws[0], agw, op.crypto);
    i := ReadyInTime(op, agw, ws, es);
  }

  // ----- At most one deletion and one creation per Job -----

  lemma {:induction false} RootCANeverFurther(op: Operator, agw: Agw, ws: seq<World>, es: seq<Event>, i: nat, j: nat)
    requires SteadyRun(op, agw, ws, es) && i <= j < |ws| && TrustPosed(op, agw) && !agw.deleting
    requires forall m :: 0 <= m < |es| && es[m].EnvEvent? ==> LeavesTrust(ws[m].objects, ws[m + 1].objects, agw)
    ensures RootCADistance(ws[j].objects, agw, op.crypto) <= RootCADistance(ws[i].objects, agw, op.crypto)
    ensures Same(ws[i].objects, ws[j].objects, Orc8rCertKey(agw.spec))
    decreases j
  {
    hide Pass, TrustPosed, TamePass, RootCAView, JobRuns, RootCAJobKey, Orc8rCertKey, HashedJob.Distance;
    if i < j {
      var w, w' := ws[j - 1], ws[j];
      RootCANeverFurther(op, agw, ws, es, i, j - 1);
      assert Steps(op, w, es[j - 1], w') && SteadyStep(op, agw, w, es[j - 1]);
      if es[j - 1].PassEvent? {
        AlikeTrust(op, agw, w.cr.value);
        PassRootCA(w, op, es[j - 1].o);
        AlikeViews(w.objects, agw, w.cr.value, "", op.crypto);
        AlikeViews(w'.objects, agw, w.cr.value, "", op.crypto);
      } else {
        EnvRootCA(w.objects, w'.objects, agw, op.crypto);
      }
    }
  }

  predicate Deleted(a: Store, b: Store, k: ObjectKey) {
    k in a && k !in b
  }

  /** Two deletions, or two creations, of a Job would need its distance to grow in between. */
  lemma TwiceNeedsGrowth(a: Store, b: Store, c: Store, d: Store, k: ObjectKey, annotation: string, hash: string)
    requires HashedJob.Distance(HashedJob.Inspect(b, k, annotation, hash)) <= HashedJob.Distance(HashedJob.Inspect(a, k, annotation, hash))
    requires HashedJob.Distance(HashedJob.Inspect(c, k, annotation, hash)) <= HashedJob.Distance(HashedJob.Inspect(b, k, annotation, hash))
    requires HashedJob.Distance(HashedJob.Inspect(d, k, annotation, hash)) <= HashedJob.Distance(HashedJob.Inspect(c, k, annotation, hash))
    ensures !(Deleted(a, b, k) && Deleted(c, d, k))
    ensures !(Deleted(b, a, k) && Deleted(d, c, k))
  {
  }

  /** The root CA Job is deleted at most once and created at most once, whatever fails. */
  lemma RootCAJobOnce(op: Operator, agw: Agw, ws: seq<World>, es: seq<Event>, i: nat, j: nat)
    requires SteadyRun(op, agw, ws, es) && i < j < |es| && TrustPosed(op, agw) && !agw.deleting
    requires forall m :: 0 <= m < |es| && es[m].EnvEvent? ==> LeavesTrust(ws[m].objects, ws[m + 1].objects, agw)
    ensures !(Deleted(ws[i].objects, ws[i + 1].objects, RootCAJobKey(agw)) && Deleted(ws[j].objects, ws[j + 1].objects, RootCAJobKey(agw)))
    ensures !(Deleted(ws[i + 1].objects, ws[i].objects, RootCAJobKey(agw)) && Deleted(ws[j + 1].objects, ws[j].objects, RootCAJobKey(agw)))
  {
    hide Steps, SteadyStep, TrustPosed, LeavesTrust, RootCA, RootCAJobKey, Orc8rCertKey, HashedJob.Distance, HashedJob.Inspect, Deleted, Same;
    var a, b, c, d := ws[i].objects, ws[i + 1].objects, ws[j].objects, ws[j + 1].objects;
    RootCANeverFurther(op, agw, ws, es, i, i + 1);
    RootCANeverFurther(op, agw, ws, es, i + 1, j);
    RootCANeverFurther(op, agw, ws, es, j, j + 1);
    SameRootCA(a, b, agw.spec);
    SameRootCA(b, c, agw.spec);
    SameRootCA(c, d, agw.spec);
    TwiceNeedsGrowth(a, b, c, d, RootCAJobKey(agw), ROOT_CA_HASH, op.crypto.sha(RootCA(a, agw.spec)));
  }

  lemma AlikePays(store: Store, a: Agw, b: Agw, crypto: Crypto, payload: string)
    requires Alike(a, b)
    ensures Pays(store, a, crypto, payload) <==> Pays(store, b, crypto, payload)
  {
    AlikeSettled(store, a, b, crypto);
    hide Consistent, AsRequested, SettledPayload;
  }

  lemma {:induction false} RegistrationNeverFurther(op: Operator, agw: Agw, ws: seq<World>, es: seq<Event>, i: nat, j: nat, payload: string)
    requires SteadyRun(op, agw, ws, es) && i <= j < |ws| && RegistrationPosed(op, agw) && !agw.deleting
    requires forall m :: 0 <= m < |es| && es[m].EnvEvent? ==> LeavesRegistration(ws[m].objects, ws[m + 1].objects, agw)
    requires Pays(ws[i].objects, agw, op.crypto, payload)
    ensures Pays(ws[j].objects, agw, op.crypto, payload)
    ensures HashedJob.Distance(RegistrationView(ws[j].objects, agw, payload, op.crypto)) <= HashedJob.Distance(RegistrationView(ws[i].objects, agw, payload, op.crypto))
    decreases j
  {
    hide Pass, RegistrationPosed, TamePass, Pays, IdentityUndisturbed, JobRuns, RegistrationJobKey, HashedJob.Distance, HashedJob.Inspect;
    if i < j {
      var w, w' := ws[j - 1], ws[j];
      RegistrationNeverFurther(op, agw, ws, es, i, j - 1, payload);
      assert Steps(op, w, es[j - 1], w') && SteadyStep(op, agw, w, es[j - 1]);
      if es[j - 1].PassEvent? {
        AlikeRegistration(op, agw, w.cr.value);
        AlikePays(w.objects, agw, w.cr.value, op.crypto, payload);
        PassPays(w, op, es[j - 1].o, payload);
        AlikePays(w'.objects, agw, w.cr.value, op.crypto, payload);
        AlikeViews(w.objects, agw, w.cr.value, payload, op.crypto);
        AlikeViews(w'.objects, agw, w.cr.value, payload, op.crypto);
      } else {
        PaysMoves(w.objects, w'.objects, agw, op.crypto, payload);
        RunsDistance(w.objects, w'.objects, RegistrationJobKey(agw), PAYLOAD_HASH, op.crypto.sha(payload));
      }
    }
  }

  /** If a step changes the presence of the registration Job, it is a pass, and its payload is settled from then on. */
  lemma PresenceNeedsPayload(op: Operator, agw: Agw, w: World, e: Event, w': World) returns (payload: string)
    requires Steps(op, w, e, w') && SteadyStep(op, agw, w, e) && RegistrationPosed(op, agw) && !agw.deleting
    requires e.EnvEvent? ==> LeavesRegistration(w.objects, w'.objects, agw)
    requires RegistrationJobKey(agw) in w.objects <==> RegistrationJobKey(agw) !in w'.objects
    ensures Pays(w'.objects, agw, op.crypto, payload)
    ensures HashedJob.Distance(RegistrationView(w'.objects, agw, payload, op.crypto)) <= HashedJob.Distance(RegistrationView(w.objects, agw, payload, op.crypto))
  {
    hide Pass, RegistrationPosed, TamePass, PaysAs, IdentityUndisturbed, HashedJob.Distance, HashedJob.Inspect, HashedJob.Moves, PayloadOf;
    AlikeKeys(agw, w.cr.value);
    AlikeRegistration(op, agw, w.cr.value);
    PassRegistration(w, op, e.o);
    payload := PayloadOf(w, op, e.o).value;
    assert Pays(w'.objects, w.cr.value, op.crypto, payload);
    AlikePays(w'.objects, agw, w.cr.value, op.crypto, payload);
    StepDistance(w.objects, w'.objects, w.cr.value, payload, PayloadOf(w, op, e.o), op.crypto);
    AlikeViews(w.objects, agw, w.cr.value, payload, op.crypto);
    AlikeViews(w'.objects, agw, w.cr.value, payload, op.crypto);
  }

  /** The registration Job is deleted at most once and created at most once, whatever fails. */
  lemma RegistrationJobOnce(op: Operator, agw: Agw, ws: seq<World>, es: seq<Event>, i: nat, j: nat)
    requires SteadyRun(op, agw, ws, es) && i < j < |es| && RegistrationPosed(op, agw) && !agw.deleting
    requires forall m :: 0 <= m < |es| && es[m].EnvEvent? ==> LeavesRegistration(ws[m].objects, ws[m + 1].objects, agw)
    ensures !(Deleted(ws[i].objects, ws[i + 1].objects, RegistrationJobKey(agw)) && Deleted(ws[j].objects, ws[j + 1].objects, RegistrationJobKey(agw)))
    ensures !(Deleted(ws[i + 1].objects, ws[i].objects, RegistrationJobKey(agw)) && Deleted(ws[j + 1].objects, ws[j].objects, RegistrationJobKey(agw)))
  {
    hide Steps, RegistrationPosed, Pays, RegistrationJobKey, HashedJob.Distance, HashedJob.Inspect, SteadyStep, LeavesRegistration;
    var a, b, c, d := ws[i].objects, ws[i + 1].objects, ws[j].objects, ws[j + 1].objects;
    var k := RegistrationJobKey(agw);
    if k in a <==> k !in b {
      assert Steps(op, ws[i], es[i], ws[i + 1]) && SteadyStep(op, agw, ws[i], es[i]);
      var payload := PresenceNeedsPayload(op, agw, ws[i], es[i], ws[i + 1]);
      RegistrationNeverFurther(op, agw, ws, es, i + 1, j, payload);
      RegistrationNeverFurther(op, agw, ws, es, j, j + 1, payload);
      TwiceNeedsGrowth(a, b, c, d, k, PAYLOAD_HASH, op.crypto.sha(payload));
    }
  }
}
