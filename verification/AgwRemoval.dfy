/** The finalizer goes in a bounded number of productive deletion passes. */
module AgwRemoval {
  import opened GoMaps
  import opened Objects
  import opened NativeRelease
  import opened AgwModel
  import opened AgwIdentity
  import opened AgwDatapath
  import opened AgwTrust
  import opened AgwRegistration
  import opened AgwPass
  import opened AgwRuns
  import opened AgwFootprint
  import opened AgwFinalizer
  import opened AgwStability
  import opened AgwEventually

  // ----- Progress of a deletion -----

  /** How many productive passes come before the one that removes the finalizer: one if the Job is still to be created. */
  function RemovalMeasure(store: Store, agw: Agw): nat {
    if DeregistrationRequested(agw) && DeregistrationJobKey(agw) !in store then 1 else 0
  }

  /** What deregistration needs: the identifiers, the NMS certificates and an image for the Job. */
  predicate RemovalProvided(store: Store, agw: Agw) {
    DeregistrationRequested(agw) ==>
      agw.spec.networkID != "" && agw.spec.accessGatewayID != "" && Orc8rCertKey(agw.spec) in store && MagmalteImage(store, agw.spec) != ""
  }

  /** The deregistration Job is not running and has not failed. */
  predicate NothingToAwait(store: Store, agw: Agw) {
    DeregistrationRequested(agw) && DeregistrationJobKey(agw) in store ==> store[DeregistrationJobKey(agw)].status.succeeded > 0
  }

  const DELETION_CALLS := {ResourceGet, NmsSecretGet, MagmalteGet, DeregistrationJobGet, DeregistrationJobCreate, CleanupNodeList, PvcDelete, IdentityDelete, FinalizerPatch}

  /** None of the calls of a deletion fails. */
  ghost predicate SmoothRemoval(w: World, agw: Agw, op: Operator, o: Oracle) {
    && (forall c :: c in DELETION_CALLS ==> c !in o.failing)
    && Completes(o.deleteStop, |AgwObjects(agw, map[], op)|)
    && (NodeSelector(agw.spec) != map[] ==> UnlabelCompletes(w.nodes, NodeSelector(agw.spec), ReadyLabelKey(agw.spec.datapath), o.unlabelStop))
  }

  /** A deletion pass that finds the prerequisites, meets no failure and has nothing to wait for. */
  ghost predicate ProductiveRemoval(op: Operator, w: World, e: Event) {
    && e.PassEvent? && HasFinalizer(w) && w.cr.value.deleting
    && SmoothRemoval(w, w.cr.value, op, e.o) && RemovalProvided(w.objects, w.cr.value) && NothingToAwait(w.objects, w.cr.value)
  }

  lemma DeregistrationAdvances(store: Store, agw: Agw, failing: set<Call>)
    requires RemovalProvided(store, agw) && NothingToAwait(store, agw) && forall c :: c in DELETION_CALLS ==> c !in failing
    ensures var step := ReconcileDeregistration(store, agw, failing);
      if RemovalMeasure(store, agw) == 0 then step.verdict.Deregistered?
      else step.verdict.NotDeregistered? && DeregistrationJobKey(agw) in step.store
  {
    assert forall c :: c in {NmsSecretGet, MagmalteGet, DeregistrationJobGet, DeregistrationJobCreate} ==> c in DELETION_CALLS;
  }

  lemma CleanupRemoves(store: Store, w: World, o: Oracle, op: Operator)
    requires HasFinalizer(w) && w.cr.value.deleting && SmoothRemoval(w, w.cr.value, op, o)
    ensures !HasFinalizer(DeletionCleanup(store, w.nodes, w.cr.value, Live(w.cr, o), o).world)
  {
    hide AgwObjects, NodeSelector, ReadyLabelKey, UnlabelUpTo, UnlabelCompletes, Completes, ReleaseName;
    assert forall c :: c in {CleanupNodeList, PvcDelete, IdentityDelete, FinalizerPatch} ==> c in DELETION_CALLS;
  }

  /** A productive pass removes the finalizer, or creates the deregistration Job when that was missing. */
  lemma RemovalProgress(w: World, op: Operator, o: Oracle)
    requires ProductiveRemoval(op, w, PassEvent(o))
    ensures var w' := Pass(w, op, o).world;
      if RemovalMeasure(w.objects, w.cr.value) == 0 then !HasFinalizer(w')
      else RemovalMeasure(w'.objects, w.cr.value) == 0
  {
    hide MainFlow, AgwObjects, Delete, Handled, Completes, DeletionRetry, DeletionCleanup, ReconcileDeregistration, RemovalProvided, NothingToAwait, UnlabelCompletes;
    var agw := w.cr.value;
    assert ResourceGet in DELETION_CALLS;
    DeregistrationAdvances(w.objects, agw, o.failing);
    var dereg := ReconcileDeregistration(w.objects, agw, o.failing);
    var doomed := AgwObjects(agw, map[], op);
    CleanupRemoves(Delete(dereg.store, doomed[..Handled(o.deleteStop, |doomed|)]), w, o, op);
  }

  /** A pass in which nothing fails removes the finalizer exactly when the deregistration that was asked for has succeeded; a failed Job blocks it. */
  lemma SmoothRemovalExact(w: World, op: Operator, o: Oracle)
    requires HasFinalizer(w) && w.cr.value.deleting && SmoothRemoval(w, w.cr.value, op, o) && RemovalProvided(w.objects, w.cr.value)
    ensures !HasFinalizer(Pass(w, op, o).world) <==>
      (DeregistrationRequested(w.cr.value) ==>
         DeregistrationJobKey(w.cr.value) in w.objects && w.objects[DeregistrationJobKey(w.cr.value)].status.succeeded > 0)
  {
    hide Pass, SmoothRemoval, RemovalProvided, AgwObjects, OnlyReadyKeyChanges, NoneCarries, NodeSelector;
    if !HasFinalizer(Pass(w, op, o).world) {
      RemovalExact(w, op, o);
    } else if NothingToAwait(w.objects, w.cr.value) {
      RemovalProgress(w, op, o);
    }
  }

  /** The deregistration Job is not among the objects that the deletion itself takes away. */
  ghost predicate RemovalPosed(op: Operator, agw: Agw) {
    DeregistrationRequested(agw) ==> OutsideManifest(op, agw, DeregistrationJobKey(agw))
  }

  /** No deletion pass, whatever fails in it, raises the measure. */
  lemma RemovalNotFurther(w: World, op: Operator, o: Oracle)
    requires HasFinalizer(w) && w.cr.value.deleting && RemovalPosed(op, w.cr.value)
    ensures RemovalMeasure(Pass(w, op, o).world.objects, w.cr.value) <= RemovalMeasure(w.objects, w.cr.value)
  {
    hide MainFlow, DeletionPass, OutsideManifest;
    if DeregistrationRequested(w.cr.value) && DeregistrationJobKey(w.cr.value) in w.objects {
      DeletionKeepsJob(w, op, o, DeregistrationJobKey(w.cr.value));
    }
  }

  // ----- Whole deletions -----

  /**
   A deletion with one specification in which nobody else deletes the deregistration Job.
   Passes may fail, conflict or wait anywhere, and the cluster may change otherwise.
   */
  ghost predicate DeletionRun(op: Operator, agw: Agw, ws: seq<World>, es: seq<Event>) {
    && Run(op, ws, es) && RemovalPosed(op, agw) && agw.deleting && HasFinalizer(ws[0])
    && (forall i :: 0 <= i < |ws| && HasFinalizer(ws[i]) ==> Alike(agw, ws[i].cr.value))
    && (forall i :: 0 <= i < |es| && es[i].EnvEvent? && DeregistrationJobKey(agw) in ws[i].objects ==> DeregistrationJobKey(agw) in ws[i + 1].objects)
  }

  ghost function ProductiveRemovals(op: Operator, ws: seq<World>, es: seq<Event>): nat
    requires |ws| == |es| + 1
    decreases |es|
  {
    if es == [] then 0 else (if ProductiveRemoval(op, ws[0], es[0]) then 1 else 0) + ProductiveRemovals(op, ws[1..], es[1..])
  }

  lemma AlikeRemoval(op: Operator, store: Store, a: Agw, b: Agw)
    requires Alike(a, b)
    ensures RemovalMeasure(store, a) == RemovalMeasure(store, b)
    ensures RemovalPosed(op, a) <==> RemovalPosed(op, b)
  {
    hide OutsideManifest, AgwObjects;
    AlikeManifest(op, a, b);
  }

  lemma RemovalStep(op: Operator, agw: Agw, w: World, e: Event, w': World)
    requires Steps(op, w, e, w') && RemovalPosed(op, agw) && agw.deleting && HasFinalizer(w) && Alike(agw, w.cr.value)
    requires e.EnvEvent? && DeregistrationJobKey(agw) in w.objects ==> DeregistrationJobKey(agw) in w'.objects
    ensures RemovalMeasure(w'.objects, agw) <= RemovalMeasure(w.objects, agw)
    ensures ProductiveRemoval(op, w, e) ==> !HasFinalizer(w') || RemovalMeasure(w'.objects, agw) < RemovalMeasure(w.objects, agw)
    ensures e.EnvEvent? ==> HasFinalizer(w')
  {
    hide Pass, RemovalPosed, SmoothRemoval, RemovalProvided, NothingToAwait, DeregistrationRequested;
    if e.PassEvent? {
      AlikeRemoval(op, w.objects, agw, w.cr.value);
      AlikeRemoval(op, w'.objects, agw, w.cr.value);
      RemovalNotFurther(w, op, e.o);
      if ProductiveRemoval(op, w, e) {
        RemovalProgress(w, op, e.o);
      }
    }
  }

  lemma DeletionTail(op: Operator, agw: Agw, ws: seq<World>, es: seq<Event>)
    requires DeletionRun(op, agw, ws, es) && es != []
    ensures Steps(op, ws[0], es[0], ws[1])
    ensures HasFinalizer(ws[1]) ==> DeletionRun(op, agw, ws[1..], es[1..])
  {
    hide Steps, RemovalPosed, HasFinalizer, Alike;
    assert forall i :: 0 <= i < |es| ==> ws[1..][i] == ws[i + 1];
    assert forall i :: 0 <= i < |es| - 1 ==> es[1..][i] == es[i + 1];
  }

  /** Pass i removes the finalizer, with everything cleaned up. */
  ghost predicate RemovedAt(op: Operator, ws: seq<World>, es: seq<Event>, i: nat)
    requires |ws| == |es| + 1
  {
    && i < |es| && es[i].PassEvent? && HasFinalizer(ws[i]) && !HasFinalizer(ws[i + 1])
    && CleanedUp(ws[i], ws[i + 1], ws[i].cr.value, op)
  }

  /**
   Over any deletion in which nobody else deletes the deregistration Job, failures and waits
   included: one of the first RemovalMeasure + 1 productive passes, if not an earlier pass,
   removes the finalizer and leaves everything cleaned up.
   */
  lemma {:induction false} RemovedInTime(op: Operator, agw: Agw, ws: seq<World>, es: seq<Event>) returns (i: nat)
    requires DeletionRun(op, agw, ws, es) && ProductiveRemovals(op, ws, es) > RemovalMeasure(ws[0].objects, agw)
    ensures RemovedAt(op, ws, es, i)
    ensures ProductiveRemovals(op, ws[..i + 1], es[..i]) <= RemovalMeasure(ws[0].objects, agw)
    decreases |es|
  {
    hide Pass, RemovalPosed, RemovalMeasure, ProductiveRemoval, CleanedUp;
    DeletionTail(op, agw, ws, es);
    RemovalStep(op, agw, ws[0], es[0], ws[1]);
    if HasFinalizer(ws[1]) {
      var j := RemovedInTime(op, agw, ws[1..], es[1..]);
      i := j + 1;
      PrefixRemovals(op, ws, es, j);
    } else {
      i := 0;
      RemovalExact(ws[0], op, es[0].o);
    }
  }

  lemma PrefixRemovals(op: Operator, ws: seq<World>, es: seq<Event>, j: nat)
    requires |ws| == |es| + 1 && j < |es|
    ensures ProductiveRemovals(op, ws[..j + 2], es[..j + 1]) ==
      (if ProductiveRemoval(op, ws[0], es[0]) then 1 else 0) + ProductiveRemovals(op, ws[1..][..j + 1], es[1..][..j])
  {
    hide ProductiveRemoval;
    assert ws[..j + 2][1..] == ws[1..][..j + 1] && es[..j + 1][1..] == es[1..][..j];
  }

  /** Two productive deletion passes are always enough. */
  lemma RemovedWithinTwo(op: Operator, agw: Agw, ws: seq<World>, es: seq<Event>) returns (i: nat)
    requires DeletionRun(op, agw, ws, es) && ProductiveRemovals(op, ws, es) >= 2
    ensures RemovedAt(op, ws, es, i) && ProductiveRemovals(op, ws[..i + 1], es[..i]) < 2
  {
    hide Steps, RemovalPosed, ProductiveRemoval, CleanedUp;
    i := RemovedInTime(op, agw, ws, es);
  }
}
