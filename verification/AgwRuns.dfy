/** Runs: any interleaving of passes with changes made by the rest of the cluster. */
module AgwRuns {
  import opened GoMaps
  import opened NativeRelease
  import opened AgwModel
  import opened AgwIdentity
  import opened AgwDatapath
  import opened AgwTrust
  import opened AgwRegistration
  import opened AgwValues
  import opened AgwValidation
  import opened AgwPass

  /** A pass with what it meets, or a step of the environment. */
  datatype Event = PassEvent(o: Oracle) | EnvEvent

  /**
   Between passes, cluster contents and nodes may change in any way; the resource changes only
   as the API server lets others change it.
   */
  ghost predicate Steps(op: Operator, w: World, e: Event, w': World) {
    match e
    case PassEvent(o) => w' == Pass(w, op, o).world
    case EnvEvent => CrEvolves(w.cr, w'.cr)
  }

  ghost predicate Run(op: Operator, ws: seq<World>, es: seq<Event>) {
    && |ws| == |es| + 1
    && forall i :: 0 <= i < |es| ==> Steps(op, ws[i], es[i], ws[i + 1])
  }

  /** The same resource, up to its status. */
  predicate SameResource(a: Agw, b: Agw) {
    a.(status := b.status) == b
  }

  /** Every condition was observed at or before this generation. */
  predicate ObservedBy(status: AgwStatus, generation: nat) {
    forall t :: t in status.conditions ==> status.conditions[t].observedGeneration <= generation
  }

  /** Same resource up to the status; no condition claims a generation that has not been read. */
  predicate Tracks(a: Agw, b: Agw) {
    SameResource(a, b) && (ObservedBy(a.status, a.generation) ==> ObservedBy(b.status, b.generation))
  }

  // ----- The flow never touches anything of the resource but its status -----

  lemma IdentityKeepsResource(l: Local, crypto: Crypto, o: Oracle)
    ensures Tracks(l.agw, IdentityStage(l, crypto, o).local.agw)
  {
    hide ReconcileIdentity;
  }

  lemma DatapathKeepsResource(l: Local, o: Oracle)
    ensures Tracks(l.agw, DatapathStage(l, o).local.agw)
  {
    hide CheckNodes;
  }

  lemma TrustKeepsResource(l: Local, values: StringMap, crypto: Crypto, o: Oracle)
    ensures Tracks(l.agw, TrustStage(l, values, crypto, o).local.agw)
  {
    hide HostAlias, ReconcileTrustBundle;
  }

  lemma RegistrationKeepsResource(l: Local, id: Identity, crypto: Crypto, o: Oracle)
    ensures Tracks(l.agw, RegistrationStage(l, id, crypto, o).local.agw)
  {
    hide ReconcileRegistration;
  }

  lemma ApplyFlowKeepsResource(l: Local, gate: Gate, simulator: Simulator, desired: seq<Desired>, crypto: Crypto, o: Oracle)
    ensures Tracks(l.agw, ApplyFlow(l, gate, simulator, desired, crypto, o).local.agw)
  {
    hide ApplyStage, LabelStage, FinishStage;
    var a := ApplyStage(l, desired, simulator, o);
    ApplyKeepsResource(l, desired, simulator, o);
    var b := LabelStage(a.local, gate, o);
    LabelKeepsResource(a.local, gate, o);
    FinishKeepsResource(b.local, simulator, crypto, o);
  }

  lemma ApplyKeepsResource(l: Local, desired: seq<Desired>, simulator: Simulator, o: Oracle)
    ensures Tracks(l.agw, ApplyStage(l, desired, simulator, o).local.agw)
  {
    hide ApplyUpTo, AnnotateAll, StalePods, Unannotated, Handled, Completes;
  }

  lemma LabelKeepsResource(l: Local, gate: Gate, o: Oracle)
    ensures Tracks(l.agw, LabelStage(l, gate, o).local.agw)
  {
    hide ReconcileLabels;
  }

  lemma FinishKeepsResource(l: Local, simulator: Simulator, crypto: Crypto, o: Oracle)
    ensures Tracks(l.agw, FinishStage(l, simulator, crypto, o).local.agw)
  {
    hide ReconcileValidation;
  }

  lemma FlowKeepsResource(l: Local, op: Operator, o: Oracle)
    ensures Tracks(l.agw, MainFlow(l, op, o).local.agw)
  {
    hide IdentityStage, DatapathStage, TrustStage, RegistrationStage, ApplyFlow;
    hide AgwObjects, FinalValues, PassValues;
    var a := IdentityStage(l, op.crypto, o);
    IdentityKeepsResource(l, op.crypto, o);
    if a.Go? {
      var b := DatapathStage(a.local, o);
      DatapathKeepsResource(a.local, o);
      if b.Go? {
        TrustFlowKeepsResource(b.local, a.value, b.value, op, o);
      }
    }
  }

  lemma TrustFlowKeepsResource(l: Local, id: Identity, gate: Gate, op: Operator, o: Oracle)
    ensures Tracks(l.agw, TrustFlow(l, id, gate, op, o).local.agw)
  {
    hide TrustStage, RegistrationStage, ApplyFlow, AgwObjects, FinalValues, PassValues;
    var a := TrustStage(l, PassValues(l.agw, id), op.crypto, o);
    TrustKeepsResource(l, PassValues(l.agw, id), op.crypto, o);
    if a.Go? {
      var b := RegistrationStage(a.local, id, op.crypto, o);
      RegistrationKeepsResource(a.local, id, op.crypto, o);
      if b.Go? {
        var c := SimulatorStage(b.local, o);
        if c.Go? {
          ApplyFlowKeepsResource(c.local, gate, c.value, AgwObjects(l.agw, FinalValues(l.agw, id, a.value, c.value.On?), op), op.crypto, o);
        }
      }
    }
  }
}
