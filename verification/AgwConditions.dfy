/** A condition is only ever persisted as True by a pass that had read the evidence for it. */
module AgwConditions {
  import opened GoMaps
  import opened Objects
  import opened NativeRelease
  import opened AgwModel
  import opened AgwIdentity
  import opened AgwDatapath
  import opened AgwTrust
  import opened AgwRegistration
  import opened AgwValues
  import opened AgwValidation
  import opened AgwPass
  import opened AgwRuns
  import opened AgwReady
  import opened AgwHistory
  import opened AgwTrail
  import opened AgwFootprint
  import opened AgwFinalizer
  import opened AgwJobs
  import opened AgwCredit
  import HashedJob
  import ValidationKey

  ghost predicate Reports(w: World, c: ConditionType) {
    w.cr.Some? && ConditionIs(w.cr.value.status, c, True)
  }

  function ConditionOf(w: World, c: ConditionType): Condition
    requires Reports(w, c)
  {
    w.cr.value.status.conditions[c]
  }

  /** The working copy of a pass when it has read the resource. */
  function Start(w: World): Local
    requires w.cr.Some?
  {
    Local(w.objects, w.nodes, w.cr.value)
  }

  // ----- Evidence -----

  ghost predicate SyncedBy(l: Local, op: Operator, o: Oracle) {
    var step := ReconcileIdentity(l.objects, l.agw, op.crypto, o);
    step.identity.Some? && TrustEvidence(step.store, l.agw, op.crypto)
  }

  ghost predicate RegisteredBy(l: Local, op: Operator, o: Oracle) {
    var step := ReconcileIdentity(l.objects, l.agw, op.crypto, o);
    && SyncedBy(l, op, o) && RegistrationEnabled(l.agw.spec.registration)
    && RegistrationEvidence(l.objects, l.agw, step.identity.value, op.crypto)
  }

  ghost predicate PreparedBy(l: Local, op: Operator, o: Oracle) {
    && ReconcileIdentity(l.objects, l.agw, op.crypto, o).identity.Some?
    && DatapathGateEnabled(l.agw.spec.datapath) && DatapathEvidence(l.objects, l.nodes, l.agw)
  }

  ghost predicate EvidentBy(l: Local, op: Operator, o: Oracle) {
    exists id :: Evidence(World(Some(l.agw), l.objects, l.nodes), op, o, l.agw, id)
  }

  /** The last step is reached, and there the Job for the request of the specification has succeeded. */
  ghost predicate Succeeds(reach: Option<Local>, agw: Agw, crypto: Crypto) {
    reach.Some? && JobDone(reach.value.objects, ValidationJobKey(agw), VALIDATION_HASH, ValidationHashOf(agw, crypto))
  }

  ghost predicate ValidatedBy(l: Local, op: Operator, o: Oracle) {
    Succeeds(LastReach(l, op, o), l.agw, op.crypto)
  }

  /** What a pass must have read before it reports the condition as True; the simulator condition is never reported. */
  ghost predicate ReadBy(c: ConditionType, l: Local, op: Operator, o: Oracle) {
    match c
    case Ready => EvidentBy(l, op, o)
    case IdentityReady => ReconcileIdentity(l.objects, l.agw, op.crypto, o).identity.Some?
    case DatapathReady => PreparedBy(l, op, o)
    case TrustBundleSynced => SyncedBy(l, op, o)
    case GatewayRegistered => RegisteredBy(l, op, o)
    case UERANSIMReady => false
    case UERANSIMValidated => EvidentBy(l, op, o) && ValidatedBy(l, op, o)
  }

  /** A True condition is the one from before, or is for the generation that was read, on evidence. */
  ghost predicate Earned(c: ConditionType, before: Agw, after: AgwStatus, evidence: bool) {
    ConditionIs(after, c, True) ==>
      || (c in before.status.conditions && before.status.conditions[c] == after.conditions[c])
      || (after.conditions[c].observedGeneration == before.generation && evidence)
  }

  // ----- Each stage writes its own condition -----

  lemma IdentityEarns(l: Local, crypto: Crypto, o: Oracle)
    ensures var s := IdentityStage(l, crypto, o);
      && SameConditions(l.agw.status, s.local.agw.status, {ConditionType.IdentityReady})
      && Earned(ConditionType.IdentityReady, l.agw, s.local.agw.status, ReconcileIdentity(l.objects, l.agw, crypto, o).identity.Some?)
  {
    hide ReconcileIdentity;
  }

  lemma DatapathEarns(l: Local, o: Oracle)
    ensures var s := DatapathStage(l, o);
      && SameConditions(l.agw.status, s.local.agw.status, {ConditionType.DatapathReady})
      && Earned(ConditionType.DatapathReady, l.agw, s.local.agw.status,
                DatapathGateEnabled(l.agw.spec.datapath) && DatapathEvidence(l.objects, l.nodes, l.agw))
  {
    hide CheckNodes, DatapathEvidence;
    if DatapathStage(l, o).Go? {
      DatapathGo(l, o);
    }
  }

  lemma TrustEarns(l: Local, values: StringMap, crypto: Crypto, o: Oracle)
    ensures var s := TrustStage(l, values, crypto, o);
      && SameConditions(l.agw.status, s.local.agw.status, {ConditionType.TrustBundleSynced})
      && Earned(ConditionType.TrustBundleSynced, l.agw, s.local.agw.status, TrustEvidence(l.objects, l.agw, crypto))
  {
    hide HostAlias, ReconcileTrustBundle, TrustEvidence;
    if TrustStage(l, values, crypto, o).Go? {
      TrustGo(l, values, crypto, o);
    }
  }

  lemma RegistrationEarns(l: Local, id: Identity, crypto: Crypto, o: Oracle)
    ensures var s := RegistrationStage(l, id, crypto, o);
      && SameConditions(l.agw.status, s.local.agw.status, {ConditionType.GatewayRegistered})
      && Earned(ConditionType.GatewayRegistered, l.agw, s.local.agw.status,
                RegistrationEnabled(l.agw.spec.registration) && RegistrationEvidence(l.objects, l.agw, id, crypto))
  {
    hide ReconcileRegistration, RegistrationEvidence;
    if RegistrationStage(l, id, crypto, o).Go? {
      RegistrationGo(l, id, crypto, o);
    }
  }

  lemma PassedMeansDone(store: Store, agw: Agw, crypto: Crypto, o: Oracle)
    ensures ReconcileValidation(store, agw, crypto, o).verdict.Passed? ==>
      JobDone(store, ValidationJobKey(agw), VALIDATION_HASH, ValidationHashOf(agw, crypto))
  {
    hide ValidationHashOf, ReleaseName, RollOutAll, DeploymentReady, HasUePod, Unrolled, HashedJob.NewJob, ReconcileRbac;
    RbacTouches(store, agw.namespace, o.failing, ValidationJobKey(agw));
  }

  lemma FinishEarns(l: Local, simulator: Simulator, crypto: Crypto, o: Oracle)
    ensures var f := FinishStage(l, simulator, crypto, o);
      && SameConditions(l.agw.status, f.local.agw.status, {ConditionType.UERANSIMValidated})
      && Earned(ConditionType.UERANSIMValidated, l.agw, f.local.agw.status,
                !simulator.Pending? && JobDone(l.objects, ValidationJobKey(l.agw), VALIDATION_HASH, ValidationHashOf(l.agw, crypto)))
  {
    hide ReconcileValidation, ValidationHashOf, JobDone, ValidationJobKey;
    PassedMeansDone(l.objects, l.agw, crypto, o);
  }

  lemma ApplyEarns(l: Local, gate: Gate, simulator: Simulator, desired: seq<Desired>, crypto: Crypto, o: Oracle)
    ensures var out, reach := ApplyFlow(l, gate, simulator, desired, crypto, o), ApplyReach(l, gate, simulator, desired, o);
      && SameConditions(l.agw.status, out.local.agw.status, {ConditionType.UERANSIMReady, ConditionType.UERANSIMValidated})
      && (ConditionType.UERANSIMReady in out.local.agw.status.conditions ==> ConditionType.UERANSIMReady in l.agw.status.conditions)
      && Earned(ConditionType.UERANSIMReady, l.agw, out.local.agw.status, false)
      && Earned(ConditionType.UERANSIMValidated, l.agw, out.local.agw.status, Succeeds(reach, l.agw, crypto))
      && (reach.Some? ==> out.write.status.True?)
  {
    hide ApplyStage, LabelStage, FinishStage, JobDone, ValidationHashOf, ReleaseName;
    var a := ApplyStage(l, desired, simulator, o);
    ApplyFacts(l, desired, simulator, o);
    LabelFacts(a.local, gate, o);
    FinishFacts(a.local, simulator, crypto, o);
    FinishEarns(a.local, simulator, crypto, o);
    assert ReleaseName(a.local.agw) == ReleaseName(l.agw) by { NamesIgnoreStatus(a.local.agw, l.agw); }
    assert ValidationHashOf(a.local.agw, crypto) == ValidationHashOf(l.agw, crypto) by { HashIgnoresStatus(a.local.agw, l.agw, crypto); }
  }

  lemma HashIgnoresStatus(a: Agw, b: Agw, crypto: Crypto)
    requires SameResource(a, b)
    ensures ValidationHashOf(a, crypto) == ValidationHashOf(b, crypto)
  {
  }

  lemma SucceedsMoves(reach: Option<Local>, a: Agw, b: Agw, crypto: Crypto)
    requires SameResource(a, b)
    ensures Succeeds(reach, a, crypto) <==> Succeeds(reach, b, crypto)
  {
    hide JobDone, ValidationHashOf, ReleaseName;
    NamesIgnoreStatus(a, b);
    HashIgnoresStatus(a, b, crypto);
  }

  // ----- From the trust bundle onward -----

  const AFTER_TRUST := {ConditionType.GatewayRegistered, ConditionType.UERANSIMReady, ConditionType.UERANSIMValidated}
  const ONWARD := {ConditionType.TrustBundleSynced, ConditionType.GatewayRegistered, ConditionType.UERANSIMReady, ConditionType.UERANSIMValidated}

  /** The flow once its trust stage has gone on. */
  ghost function AfterTrust(m: Local, agw: Agw, id: Identity, alias: Alias, gate: Gate, op: Operator, o: Oracle): Outcome {
    match RegistrationStage(m, id, op.crypto, o)
    case Halt(n, w) => Outcome(n, w)
    case Go(n, _) =>
      match SimulatorStage(n, o)
      case Halt(p, w) => Outcome(p, w)
      case Go(p, simulator) =>
        ApplyFlow(p, gate, simulator, AgwObjects(agw, FinalValues(agw, id, alias, simulator.On?), op), op.crypto, o)
  }

  ghost function AfterTrustReach(m: Local, agw: Agw, id: Identity, alias: Alias, gate: Gate, op: Operator, o: Oracle): Option<Local> {
    match RegistrationStage(m, id, op.crypto, o)
    case Halt(_, _) => None
    case Go(n, _) =>
      match SimulatorStage(n, o)
      case Halt(_, _) => None
      case Go(p, simulator) =>
        ApplyReach(p, gate, simulator, AgwObjects(agw, FinalValues(agw, id, alias, simulator.On?), op), o)
  }

  lemma AfterTrustEarns(m: Local, agw: Agw, id: Identity, alias: Alias, gate: Gate, op: Operator, o: Oracle)
    ensures var out, reach := AfterTrust(m, agw, id, alias, gate, op, o), AfterTrustReach(m, agw, id, alias, gate, op, o);
      && SameConditions(m.agw.status, out.local.agw.status, AFTER_TRUST)
      && Earned(ConditionType.GatewayRegistered, m.agw, out.local.agw.status,
                RegistrationEnabled(m.agw.spec.registration) && RegistrationEvidence(m.objects, m.agw, id, op.crypto))
      && Earned(ConditionType.UERANSIMReady, m.agw, out.local.agw.status, false)
      && Earned(ConditionType.UERANSIMValidated, m.agw, out.local.agw.status, Succeeds(reach, m.agw, op.crypto))
      && (reach.Some? ==> out.write.status.True?)
  {
    hide RegistrationStage, SimulatorStage, ApplyFlow, ApplyReach, AgwObjects, FinalValues, RegistrationEvidence, Succeeds;
    var b := RegistrationStage(m, id, op.crypto, o);
    RegistrationEarns(m, id, op.crypto, o);
    RegistrationKeepsResource(m, id, op.crypto, o);
    SimulatorTrail(b.local, o);
    if b.Go? && SimulatorStage(b.local, o).Go? {
      var c := SimulatorStage(b.local, o);
      var desired := AgwObjects(agw, FinalValues(agw, id, alias, c.value.On?), op);
      ApplyEarns(c.local, gate, c.value, desired, op.crypto, o);
      SucceedsMoves(ApplyReach(c.local, gate, c.value, desired, o), b.local.agw, m.agw, op.crypto);
    }
  }

  lemma TrustFlowIs(l: Local, id: Identity, gate: Gate, op: Operator, o: Oracle)
    ensures var a := TrustStage(l, PassValues(l.agw, id), op.crypto, o);
      && TrustFlow(l, id, gate, op, o) == (if a.Halt? then Outcome(a.local, a.write) else AfterTrust(a.local, l.agw, id, a.value, gate, op, o))
      && TrustReach(l, id, gate, op, o) == (if a.Halt? then None else AfterTrustReach(a.local, l.agw, id, a.value, gate, op, o))
  {
    hide TrustStage, RegistrationStage, SimulatorStage, ApplyFlow, ApplyReach, AgwObjects, FinalValues, PassValues;
  }

  lemma TrustFlowEarns(l: Local, id: Identity, gate: Gate, op: Operator, o: Oracle)
    ensures var out, reach := TrustFlow(l, id, gate, op, o), TrustReach(l, id, gate, op, o);
      && SameConditions(l.agw.status, out.local.agw.status, ONWARD)
      && Earned(ConditionType.TrustBundleSynced, l.agw, out.local.agw.status, TrustEvidence(l.objects, l.agw, op.crypto))
      && Earned(ConditionType.GatewayRegistered, l.agw, out.local.agw.status,
                && TrustEvidence(l.objects, l.agw, op.crypto)
                && RegistrationEnabled(l.agw.spec.registration) && RegistrationEvidence(l.objects, l.agw, id, op.crypto))
      && Earned(ConditionType.UERANSIMReady, l.agw, out.local.agw.status, false)
      && Earned(ConditionType.UERANSIMValidated, l.agw, out.local.agw.status, Succeeds(reach, l.agw, op.crypto))
      && (reach.Some? ==> out.write.status.True?)
  {
    hide TrustStage, TrustFlow, TrustReach, AfterTrust, AfterTrustReach, PassValues, RegistrationEvidence, TrustEvidence, Succeeds, SimulatorEvidence, SyncRootCA;
    var values := PassValues(l.agw, id);
    var a := TrustStage(l, values, op.crypto, o);
    TrustFlowIs(l, id, gate, op, o);
    TrustEarns(l, values, op.crypto, o);
    TrustKeepsResource(l, values, op.crypto, o);
    if a.Go? {
      TrustGo(l, values, op.crypto, o);
      AfterTrustEarns(a.local, l.agw, id, a.value, gate, op, o);
      EvidenceMoves(l.objects, a.local.objects, l.agw, a.local.agw, a.local.agw, id, op.crypto);
      SucceedsMoves(AfterTrustReach(a.local, l.agw, id, a.value, gate, op, o), a.local.agw, l.agw, op.crypto);
    }
  }

  // ----- The whole flow -----

  lemma MainFlowIs(l: Local, op: Operator, o: Oracle)
    ensures var a := IdentityStage(l, op.crypto, o);
      if a.Halt? then MainFlow(l, op, o) == Outcome(a.local, a.write) && LastReach(l, op, o) == None
      else
        var b := DatapathStage(a.local, o);
        if b.Halt? then MainFlow(l, op, o) == Outcome(b.local, b.write) && LastReach(l, op, o) == None
        else MainFlow(l, op, o) == TrustFlow(b.local, a.value, b.value, op, o) && LastReach(l, op, o) == TrustReach(b.local, a.value, b.value, op, o)
  {
    hide IdentityStage, DatapathStage, TrustFlow, TrustReach;
  }

  /** Up to the trust bundle. */
  lemma EarlyEarns(l: Local, op: Operator, o: Oracle)
    ensures var out := MainFlow(l, op, o).local.agw.status;
      && Earned(ConditionType.IdentityReady, l.agw, out, ReadBy(ConditionType.IdentityReady, l, op, o))
      && Earned(ConditionType.DatapathReady, l.agw, out, ReadBy(ConditionType.DatapathReady, l, op, o))
  {
    hide MainFlow, IdentityStage, DatapathStage, TrustFlow, TrustReach, ReconcileIdentity, TrustEvidence, RegistrationEvidence, DatapathEvidence, SimulatorEvidence, Succeeds;
    var a := IdentityStage(l, op.crypto, o);
    MainFlowIs(l, op, o);
    IdentityEarns(l, op.crypto, o);
    IdentityKeepsResource(l, op.crypto, o);
    if a.Go? {
      IdentityGo(l, op.crypto, o);
      var b := DatapathStage(a.local, o);
      DatapathEarns(a.local, o);
      DatapathKeepsResource(a.local, o);
      EarlyEvidenceMoves(l.objects, a.local.objects, l.nodes, l.agw, a.local.agw, b.local.agw, a.value, op.crypto);
      if b.Go? {
        TrustFlowEarns(b.local, a.value, b.value, op, o);
      }
    }
  }

  lemma LateEarns(l: Local, op: Operator, o: Oracle)
    ensures var out := MainFlow(l, op, o).local.agw.status;
      && Earned(ConditionType.TrustBundleSynced, l.agw, out, SyncedBy(l, op, o))
      && Earned(ConditionType.GatewayRegistered, l.agw, out, RegisteredBy(l, op, o))
      && Earned(ConditionType.UERANSIMReady, l.agw, out, false)
      && Earned(ConditionType.UERANSIMValidated, l.agw, out, Succeeds(LastReach(l, op, o), l.agw, op.crypto))
    ensures LastReach(l, op, o).Some? ==> MainFlow(l, op, o).write.status.True?
  {
    hide MainFlow, LastReach, IdentityStage, DatapathStage, TrustFlow, TrustReach, ReconcileIdentity, TrustEvidence, RegistrationEvidence, DatapathEvidence, SimulatorEvidence, Succeeds;
    var a := IdentityStage(l, op.crypto, o);
    MainFlowIs(l, op, o);
    IdentityEarns(l, op.crypto, o);
    IdentityKeepsResource(l, op.crypto, o);
    if a.Go? {
      IdentityGo(l, op.crypto, o);
      var b := DatapathStage(a.local, o);
      DatapathEarns(a.local, o);
      DatapathKeepsResource(a.local, o);
      DatapathTrail(a.local, o);
      if b.Go? {
        TrustFlowEarns(b.local, a.value, b.value, op, o);
        EarlyEvidenceMoves(l.objects, a.local.objects, l.nodes, l.agw, a.local.agw, b.local.agw, a.value, op.crypto);
        SucceedsMoves(TrustReach(b.local, a.value, b.value, op, o), b.local.agw, l.agw, op.crypto);
      }
    }
  }

  lemma FinalKeeps(agw: Agw, write: Write)
    ensures SameConditions(agw.status, FinalStatus(agw, write), {ConditionType.Ready})
    ensures ConditionIs(FinalStatus(agw, write), ConditionType.Ready, True) <==> write.status.True?
    ensures ConditionType.Ready in FinalStatus(agw, write).conditions
    ensures FinalStatus(agw, write).conditions[ConditionType.Ready].observedGeneration == agw.generation
  {
  }

  /** Every condition that a flow wants to write as True is earned. */
  lemma FlowEarns(l: Local, op: Operator, o: Oracle, c: ConditionType)
    ensures Earned(c, l.agw, FinalStatus(MainFlow(l, op, o).local.agw, MainFlow(l, op, o).write), ReadBy(c, l, op, o))
  {
    hide MainFlow, LastReach, ReconcileIdentity, SyncedBy, RegisteredBy, PreparedBy, FinalStatus, Evidence, ReadyConditions;
    var out := MainFlow(l, op, o);
    FlowKeepsResource(l, op, o);
    FinalKeeps(out.local.agw, out.write);
    EarlyEarns(l, op, o);
    LateEarns(l, op, o);
    if out.write.status.True? {
      MainFlowReady(l, op, o);
    }
  }

  // ----- One pass -----

  /** A pass leaves the condition as it is, or writes it for the generation it has read, True only on evidence. */
  ghost predicate ConditionStep(c: ConditionType, w: World, op: Operator, o: Oracle, w': World) {
    Reports(w', c) ==>
      || (Reports(w, c) && ConditionOf(w, c) == ConditionOf(w', c))
      || (&& StatusLanded(w, o, w') && ConditionOf(w', c).observedGeneration == w.cr.value.generation
          && ReadBy(c, Start(w), op, o))
  }

  lemma PassEarns(w: World, op: Operator, o: Oracle, c: ConditionType)
    ensures ConditionStep(c, w, op, o, Pass(w, op, o).world)
  {
    hide MainFlow, DeletionPass, ReadBy, CommitStatus, FinalStatus;
    if HasFinalizer(w) && ResourceGet !in o.failing {
      if w.cr.value.deleting {
        DeletionKeepsConditions(w, op, o, c);
      } else {
        var out := MainFlow(Start(w), op, o);
        FlowKeepsResource(Start(w), op, o);
        CommitFacts(w.cr, Live(w.cr, o), out.local.agw, out.write, o.failing);
        FlowEarns(Start(w), op, o, c);
      }
    }
  }

  /** If this resource reports the condition, it is the report that was there before. */
  ghost predicate NoNewReport(w: World, cr: Option<Agw>, c: ConditionType) {
    cr.Some? && ConditionIs(cr.value.status, c, True) ==> Reports(w, c) && ConditionOf(w, c) == cr.value.status.conditions[c]
  }

  lemma RetryStatus(w: World, o: Oracle, reason: Reason, seconds: nat, c: ConditionType)
    requires w.cr.Some?
    ensures NoNewReport(w, DeletionRetry(Live(w.cr, o), w.cr.value, reason, o.failing, seconds).cr, c)
  {
    hide CommitStatus, FinalStatus;
    var write := NotReady(reason, TWO_MINUTES);
    CommitFacts(w.cr, Live(w.cr, o), w.cr.value, write, o.failing);
    FinalKeeps(w.cr.value, write);
  }

  lemma CleanupStatus(store: Store, w: World, o: Oracle, c: ConditionType)
    requires w.cr.Some?
    ensures NoNewReport(w, DeletionCleanup(store, w.nodes, w.cr.value, Live(w.cr, o), o).world.cr, c)
  {
    hide UnlabelUpTo, UnlabelCompletes, CleanupDurable, NodeSelector, ReadyLabelKey;
  }

  /** A deletion pass reports nothing new. */
  lemma DeletionKeepsConditions(w: World, op: Operator, o: Oracle, c: ConditionType)
    requires HasFinalizer(w) && w.cr.value.deleting
    ensures NoNewReport(w, DeletionPass(w, w.cr.value, Live(w.cr, o), op, o).world.cr, c)
  {
    hide ReconcileDeregistration, AgwObjects, Delete, Handled, Completes, DeletionRetry, DeletionCleanup, NoNewReport;
    RetryStatus(w, o, GatewayDeregistrationBlocked, 30, c);
    RetryStatus(w, o, GatewayDeregistrationPending, 20, c);
    RetryStatus(w, o, NativeDeleteFailed, 30, c);
    var doomed := AgwObjects(w.cr.value, map[], op);
    var dereg := ReconcileDeregistration(w.objects, w.cr.value, o.failing);
    CleanupStatus(Delete(dereg.store, doomed[..Handled(o.deleteStop, |doomed|)]), w, o, c);
  }

  // ----- Runs -----

  /** Step k of the run is the pass that wrote the condition seen in state n, on evidence, for the generation it names; it has stayed since. */
  ghost predicate EarnedAt(op: Operator, ws: seq<World>, es: seq<Event>, c: ConditionType, k: nat, n: nat)
    requires |ws| == |es| + 1 && n < |ws| && Reports(ws[n], c)
  {
    && k < n && es[k].PassEvent? && StatusLanded(ws[k], es[k].o, ws[k + 1])
    && !(Reports(ws[k], c) && ConditionOf(ws[k], c) == ConditionOf(ws[n], c))
    && (forall m :: k < m <= n ==> Reports(ws[m], c) && ConditionOf(ws[m], c) == ConditionOf(ws[n], c))
    && ConditionOf(ws[n], c).observedGeneration == ws[k].cr.value.generation
    && ReadBy(c, Start(ws[k]), op, es[k].o)
  }

  /** In every state of every run, every condition that is persisted as True was written by a pass that had read the evidence for it. */
  lemma {:induction false} ConditionSoundness(op: Operator, ws: seq<World>, es: seq<Event>, c: ConditionType, n: nat) returns (k: nat)
    requires Run(op, ws, es) && n < |ws| && !Reports(ws[0], c) && Reports(ws[n], c)
    ensures EarnedAt(op, ws, es, c, k, n)
    decreases n
  {
    hide Pass, ReadBy;
    var last := n - 1;
    assert Steps(op, ws[last], es[last], ws[n]);
    if es[last].PassEvent? {
      PassEarns(ws[last], op, es[last].o, c);
      if !(Reports(ws[last], c) && ConditionOf(ws[last], c) == ConditionOf(ws[n], c)) {
        k := last;
        return;
      }
    }
    k := ConditionSoundness(op, ws, es, c, last);
  }

  /** Behind every TrustBundleSynced=True of a gateway with a volume stands a succeeded Job of an earlier pass that had read the same root CA. */
  lemma SyncedMeansTrusted(op: Operator, ws: seq<World>, es: seq<Event>, n: nat) returns (k: nat, i: nat)
    requires Run(op, ws, es) && n < |ws| && !Reports(ws[0], ConditionType.TrustBundleSynced) && Reports(ws[n], ConditionType.TrustBundleSynced)
    requires forall m :: 0 <= m < |ws| && ws[m].cr.Some? ==> OwnJob(op, ws, es, RootCAJobKey(ws[m].cr.value))
    requires Injective(op.crypto.sha)
    ensures EarnedAt(op, ws, es, ConditionType.TrustBundleSynced, k, n)
    ensures PvcKey(ws[k].cr.value) in ws[k].objects ==> TrustedFrom(op, ws, es, k, i)
  {
    hide Pass, OwnJob, ReconcileIdentity, TrustEvidence, TrustedFrom, Injective;
    k := ConditionSoundness(op, ws, es, ConditionType.TrustBundleSynced, n);
    i := 0;
    if PvcKey(ws[k].cr.value) in ws[k].objects {
      i := TrustStands(op, ws, es, k);
    }
  }

  /** Behind every GatewayRegistered=True stands a succeeded Job that carried exactly the payload of the pass that reported it. */
  lemma RegisteredMeansRan(op: Operator, ws: seq<World>, es: seq<Event>, n: nat) returns (k: nat, i: nat)
    requires Run(op, ws, es) && n < |ws| && !Reports(ws[0], ConditionType.GatewayRegistered) && Reports(ws[n], ConditionType.GatewayRegistered)
    requires forall m :: 0 <= m < |ws| && ws[m].cr.Some? ==> OwnJob(op, ws, es, RegistrationJobKey(ws[m].cr.value))
    requires Injective(op.crypto.sha)
    ensures EarnedAt(op, ws, es, ConditionType.GatewayRegistered, k, n)
    ensures RegisteredFrom(op, ws, es, k, i)
  {
    hide Pass, OwnJob, ReconcileIdentity, TrustEvidence, RegistrationEvidence, RegisteredFrom, Injective;
    k := ConditionSoundness(op, ws, es, ConditionType.GatewayRegistered, n);
    i := RegistrationStands(op, ws, es, k, ReconcileIdentity(ws[k].objects, ws[k].cr.value, op.crypto, es[k].o).identity.value);
  }

  lemma ReadInWorld(l: Local, op: Operator, o: Oracle)
    requires ValidatedBy(l, op, o) && Spared(l.objects, l.agw, op, o, ValidationJobKey(l.agw))
    ensures JobDone(l.objects, ValidationJobKey(l.agw), VALIDATION_HASH, ValidationHashOf(l.agw, op.crypto))
  {
    hide Trails, Spared, ValidationHashOf, ReleaseName, LastReach, MainFlow;
    var t := FlowTrail(l, op, o);
    ValidationJobUntouched(l.objects, l.agw, op, o, t);
  }

  /**
   Behind every UERANSIMValidated=True stands a succeeded Job that an earlier pass created for
   the same request, when both Deployments were rolled out and ready and a UE pod was running.
   */
  lemma ValidatedMeansRan(op: Operator, ws: seq<World>, es: seq<Event>, n: nat) returns (k: nat, i: nat)
    requires Run(op, ws, es) && n < |ws| && !Reports(ws[0], ConditionType.UERANSIMValidated) && Reports(ws[n], ConditionType.UERANSIMValidated)
    requires forall m :: 0 <= m < |ws| && ws[m].cr.Some? ==> OwnJob(op, ws, es, ValidationJobKey(ws[m].cr.value))
    requires Injective(op.crypto.sha)
    ensures EarnedAt(op, ws, es, ConditionType.UERANSIMValidated, k, n)
    ensures Origin(ws, es, ValidationJobKey(ws[k].cr.value), i, k) && ws[i].cr.Some?
    ensures ws[k].objects[ValidationJobKey(ws[k].cr.value)].status.succeeded > 0
    ensures ReadyToValidate(ws[i + 1].objects, ws[i].cr.value, ValidationHashOf(ws[k].cr.value, op.crypto))
    ensures ValidationKey.Encode(ValidationFields(ws[i].cr.value)) == ValidationKey.Encode(ValidationFields(ws[k].cr.value))
  {
    hide Pass, ValidatedBy, Spared, ReadyToValidate, ValidationFields, ValidationKey.Encode, ReleaseName, Origin, Injective, EvidentBy;
    k := ConditionSoundness(op, ws, es, ConditionType.UERANSIMValidated, n);
    ReadInWorld(Start(ws[k]), op, es[k].o);
    i := ValidationCredit(op, ws, es, k);
  }
}
