/** The finalizer protocol: nothing is applied before the finalizer is there, nothing of the release is left when it goes. */
module AgwFinalizer {
  import opened GoMaps
  import opened Objects
  import opened NativeRelease
  import opened AgwModel
  import opened AgwIdentity
  import opened AgwDatapath
  import opened AgwTrust
  import opened AgwRegistration
  import opened AgwPass
  import opened AgwRuns
  import opened AgwReady
  import opened AgwTrail
  import opened AgwFootprint

  predicate HasFinalizer(w: World) {
    w.cr.Some? && FINALIZER in w.cr.value.finalizers
  }

  /** A pass over a resource without the finalizer touches neither objects nor nodes. */
  lemma InertWithoutFinalizer(w: World, op: Operator, o: Oracle)
    requires !HasFinalizer(w)
    ensures Pass(w, op, o).world.objects == w.objects && Pass(w, op, o).world.nodes == w.nodes
  {
    hide MainFlow, DeletionPass;
  }

  // ----- What is left when the finalizer goes -----

  /** Asked for by the deletion policy. */
  predicate OptedIn(agw: Agw, k: ObjectKey) {
    || (agw.spec.deletionPolicy.deletePVC && k == PvcKey(agw))
    || (agw.spec.deletionPolicy.deleteIdentitySecret && k == IdentityKey(agw))
  }

  predicate DeregistrationRequested(agw: Agw) {
    agw.spec.registration.deleteOnRemoval && RegistrationEnabled(agw.spec.registration)
  }

  /** Exactly the objects of the manifest and the opted-in ones are gone, and the ready key is off the selected nodes. */
  ghost predicate CleanedUp(before: World, after: World, agw: Agw, op: Operator) {
    && (forall k :: k in after.objects <==> k in before.objects && !Lists(AgwObjects(agw, map[], op), k) && !OptedIn(agw, k))
    && (forall k :: k in after.objects ==> after.objects[k] == before.objects[k])
    && OnlyReadyKeyChanges(before.nodes, after.nodes, NodeSelector(agw.spec), ReadyLabelKey(agw.spec.datapath))
    && (NodeSelector(agw.spec) != map[] ==> NoneCarries(after.nodes, NodeSelector(agw.spec), ReadyLabelKey(agw.spec.datapath)))
    && (DeregistrationRequested(agw) ==>
          DeregistrationJobKey(agw) in before.objects && before.objects[DeregistrationJobKey(agw)].status.succeeded > 0)
  }

  lemma DeregistrationDone(store: Store, agw: Agw, failing: set<Call>)
    requires ReconcileDeregistration(store, agw, failing).verdict.Deregistered?
    ensures ReconcileDeregistration(store, agw, failing).store == store
    ensures DeregistrationRequested(agw) ==>
      DeregistrationJobKey(agw) in store && store[DeregistrationJobKey(agw)].status.succeeded > 0
  {
    hide MagmalteImage, MagmalteKey, Orc8rCertKey;
  }

  lemma CleanupFacts(store: Store, nodes: seq<Node>, agw: Agw, live: Option<Agw>, o: Oracle)
    requires !DeletionCleanup(store, nodes, agw, live, o).result.error
    ensures var w' := DeletionCleanup(store, nodes, agw, live, o).world;
      && (forall k :: k in w'.objects <==> k in store && !OptedIn(agw, k))
      && (forall k :: k in w'.objects ==> w'.objects[k] == store[k])
      && OnlyReadyKeyChanges(nodes, w'.nodes, NodeSelector(agw.spec), ReadyLabelKey(agw.spec.datapath))
      && (NodeSelector(agw.spec) != map[] ==> NoneCarries(w'.nodes, NodeSelector(agw.spec), ReadyLabelKey(agw.spec.datapath)))
  {
    hide ReleaseName, NodeSelector, ReadyLabelKey, NoneCarries, OnlyReadyKeyChanges, UnlabelUpTo, UnlabelCompletes;
    UnlabelFacts(nodes, NodeSelector(agw.spec), ReadyLabelKey(agw.spec.datapath), o.unlabelStop);
  }

  lemma UnlabelFacts(nodes: seq<Node>, selector: StringMap, key: string, stop: nat)
    ensures OnlyReadyKeyChanges(nodes, UnlabelUpTo(nodes, selector, key, stop), selector, key)
    ensures OnlyReadyKeyChanges(nodes, nodes, selector, key)
    ensures UnlabelCompletes(nodes, selector, key, stop) ==> NoneCarries(UnlabelUpTo(nodes, selector, key, stop), selector, key)
  {
    if UnlabelCompletes(nodes, selector, key, stop) {
      UnlabelPost(nodes, selector, key, stop);
    }
  }

  /** A retry never removes the finalizer. */
  lemma RetryKeepsFinalizer(w: World, o: Oracle, agw: Agw, reason: Reason, seconds: nat)
    requires HasFinalizer(w) && w.cr == Some(agw)
    ensures var c := DeletionRetry(Live(w.cr, o), agw, reason, o.failing, seconds);
      c.cr.Some? && FINALIZER in c.cr.value.finalizers
  {
  }

  lemma CleanupKeepsFinalizer(store: Store, w: World, agw: Agw, o: Oracle)
    requires HasFinalizer(w) && w.cr == Some(agw)
    requires DeletionCleanup(store, w.nodes, agw, Live(w.cr, o), o).result.error
    ensures HasFinalizer(DeletionCleanup(store, w.nodes, agw, Live(w.cr, o), o).world)
  {
    hide UnlabelUpTo, UnlabelCompletes, CleanupDurable;
  }

  /**
   A pass that removes the finalizer leaves exactly what belongs neither to the manifest nor to
   the opted-in clean-up, takes the ready key off every selected node, and has seen the
   deregistration Job succeed if one was asked for.
   */
  lemma RemovalExact(w: World, op: Operator, o: Oracle)
    requires HasFinalizer(w) && !HasFinalizer(Pass(w, op, o).world)
    ensures w.cr.value.deleting && CleanedUp(w, Pass(w, op, o).world, w.cr.value, op)
  {
    var agw, live := w.cr.value, Live(w.cr, o);
    RemovalIsDeletion(w, op, o);
    DeletionCleans(w, op, o);
  }

  lemma RemovalIsDeletion(w: World, op: Operator, o: Oracle)
    requires HasFinalizer(w) && !HasFinalizer(Pass(w, op, o).world)
    ensures w.cr.value.deleting && Pass(w, op, o) == DeletionPass(w, w.cr.value, Live(w.cr, o), op, o)
  {
    hide MainFlow, DeletionPass, CommitStatus;
    if !w.cr.value.deleting {
      var l := Local(w.objects, w.nodes, w.cr.value);
      var out := MainFlow(l, op, o);
      FlowKeepsResource(l, op, o);
      CommitFacts(w.cr, Live(w.cr, o), out.local.agw, out.write, o.failing);
    }
  }

  lemma DeletionCleans(w: World, op: Operator, o: Oracle)
    requires HasFinalizer(w) && !HasFinalizer(DeletionPass(w, w.cr.value, Live(w.cr, o), op, o).world)
    ensures CleanedUp(w, DeletionPass(w, w.cr.value, Live(w.cr, o), op, o).world, w.cr.value, op)
  {
    hide ReconcileDeregistration, AgwObjects, Delete, DeletionRetry, DeletionCleanup, OptedIn, NodeSelector, ReadyLabelKey, OnlyReadyKeyChanges, NoneCarries, DeregistrationRequested;
    var agw, live := w.cr.value, Live(w.cr, o);
    RetryKeepsFinalizer(w, o, agw, GatewayDeregistrationBlocked, 30);
    RetryKeepsFinalizer(w, o, agw, GatewayDeregistrationPending, 20);
    RetryKeepsFinalizer(w, o, agw, NativeDeleteFailed, 30);
    var dereg := ReconcileDeregistration(w.objects, agw, o.failing);
    assert dereg.verdict.Deregistered?;
    DeregistrationDone(w.objects, agw, o.failing);
    var doomed := AgwObjects(agw, map[], op);
    assert Completes(o.deleteStop, |doomed|);
    assert doomed[..|doomed|] == doomed;
    var left := Delete(w.objects, doomed);
    if DeletionCleanup(left, w.nodes, agw, live, o).result.error {
      CleanupKeepsFinalizer(left, w, agw, o);
    }
    CleanupFacts(left, w.nodes, agw, live, o);
    forall k
      ensures k in left <==> k in w.objects && !Lists(doomed, k)
      ensures k in left ==> left[k] == w.objects[k]
    {
      DeletePost(w.objects, doomed, k);
    }
  }

  // ----- No leak, over whole runs -----

  /** An object that a pass creates needs the finalizer, and is of the manifest or one of the operator's own. */
  lemma CreationNeedsFinalizer(w: World, op: Operator, o: Oracle, k: ObjectKey)
    requires k in Pass(w, op, o).world.objects && k !in w.objects
    ensures HasFinalizer(w)
    ensures
      || OwnKey(w.cr.value, k)
      || k == DeregistrationJobKey(w.cr.value)
      || AppliedByPass(w.objects, w.cr.value, op, o, k)
  {
    hide MainFlow, DeletionPass, OwnKey, AgwObjects, Trails, AppliedByPass;
    if w.cr.Some? && HasFinalizer(w) {
      if w.cr.value.deleting {
        DeletionAdds(w, op, o, k);
      } else {
        var t := FlowTrail(Local(w.objects, w.nodes, w.cr.value), op, o);
        FlowAdds(w.objects, w.cr.value, op, o, t, k);
      }
    }
  }

  lemma DeletionAdds(w: World, op: Operator, o: Oracle, k: ObjectKey)
    requires HasFinalizer(w) && k !in w.objects
    requires k in DeletionPass(w, w.cr.value, Live(w.cr, o), op, o).world.objects
    ensures k == DeregistrationJobKey(w.cr.value)
  {
    hide AgwObjects, DeletionRetry, DeletionCleanup, DeregistrationJobKey, ReconcileDeregistration, Delete;
    var agw, live := w.cr.value, Live(w.cr, o);
    var dereg := ReconcileDeregistration(w.objects, agw, o.failing);
    if k in dereg.store {
      DeregistrationAdds(w.objects, agw, o.failing);
    } else {
      var doomed := AgwObjects(agw, map[], op);
      var left := Delete(dereg.store, doomed[..Handled(o.deleteStop, |doomed|)]);
      DeletePost(dereg.store, doomed[..Handled(o.deleteStop, |doomed|)], k);
      CleanupAdds(left, w.nodes, agw, live, o);
    }
  }

  lemma DeregistrationAdds(store: Store, agw: Agw, failing: set<Call>)
    ensures forall k :: k in ReconcileDeregistration(store, agw, failing).store && k !in store ==> k == DeregistrationJobKey(agw)
  {
    hide MagmalteImage, MagmalteKey, Orc8rCertKey;
  }

  lemma DeregistrationKeeps(store: Store, agw: Agw, failing: set<Call>)
    ensures forall k :: k in store ==> k in ReconcileDeregistration(store, agw, failing).store && ReconcileDeregistration(store, agw, failing).store[k] == store[k]
  {
    hide MagmalteImage, MagmalteKey, Orc8rCertKey;
  }

  lemma CleanupAdds(store: Store, nodes: seq<Node>, agw: Agw, live: Option<Agw>, o: Oracle)
    ensures DeletionCleanup(store, nodes, agw, live, o).world.objects.Keys <= store.Keys
  {
    hide UnlabelUpTo, UnlabelCompletes, ReleaseName;
  }

  /** The same release: what an apply with tame values lists, a later deletion lists. */
  lemma SameRelease(objects: Store, a: Agw, b: Agw, op: Operator, o: Oracle, k: ObjectKey)
    requires AgwTarget(a) == AgwTarget(b) && TamePass(objects, a, op, o) && AppliedByPass(objects, a, op, o, k)
    ensures Lists(AgwObjects(b, map[], op), k)
  {
    hide ReconcileIdentity, TamePass, PassFinal, ReleaseObjects, AgwTarget;
    var simulator: bool :| Lists(AgwObjects(a, PassFinal(objects, a, op, o, simulator), op), k);
    TameListing(objects, a, op, o, k, simulator);
  }

  /** What a pass other than the removal itself made outside the manifest. */
  predicate OutsideRelease(agw: Agw, k: ObjectKey) {
    OwnKey(agw, k) || k == DeregistrationJobKey(agw)
  }

  /**
   Over any run: whatever any pass ever created for a release is gone once the finalizer of
   that release is removed, except the operator's own Jobs and Secrets, which RemovalExact
   accounts for.  The values of the creating pass stay within the lines they are written into.
   */
  lemma NoLeak(op: Operator, ws: seq<World>, es: seq<Event>, i: nat, j: nat, k: ObjectKey)
    requires Run(op, ws, es) && i <= j < |es|
    requires es[i].PassEvent? && k !in ws[i].objects && k in ws[i + 1].objects
    requires es[j].PassEvent? && HasFinalizer(ws[j]) && !HasFinalizer(ws[j + 1])
    requires ws[i].cr.Some? ==> TamePass(ws[i].objects, ws[i].cr.value, op, es[i].o) && AgwTarget(ws[i].cr.value) == AgwTarget(ws[j].cr.value)
    ensures HasFinalizer(ws[i])
    ensures k !in ws[j + 1].objects || OutsideRelease(ws[i].cr.value, k)
  {
    hide Pass, AgwObjects, OwnKey, TamePass, AppliedByPass;
    assert Steps(op, ws[i], es[i], ws[i + 1]) && Steps(op, ws[j], es[j], ws[j + 1]);
    CreationNeedsFinalizer(ws[i], op, es[i].o, k);
    RemovalExact(ws[j], op, es[j].o);
    if !OutsideRelease(ws[i].cr.value, k) {
      SameRelease(ws[i].objects, ws[i].cr.value, ws[j].cr.value, op, es[i].o, k);
    }
  }
}
