/** What a pass can do to the resource, and what therefore holds over whole runs. */
module AgwHistory {
  import opened Objects
  import opened NativeRelease
  import opened AgwModel
  import opened AgwDatapath
  import opened AgwRegistration
  import opened AgwPass
  import opened AgwRuns
  import opened AgwReady

  /** What a pass may have done to the resource. */
  datatype CrChange = Untouched | StatusWritten(agw: Agw, write: Write) | FinalizerAdded | FinalizerRemoved

  /** The status written by a pass: on the version it read, for the generation it read, Ready only on evidence. */
  ghost predicate GoodWrite(w: World, op: Operator, o: Oracle, agw: Agw, write: Write) {
    && w.cr.Some? && FINALIZER in w.cr.value.finalizers && Tracks(w.cr.value, agw)
    && (write.status.True? ==> !w.cr.value.deleting && Certified(w, op, o, FinalStatus(agw, write)))
    && (write.requeueAfter.None? ==> write.status.True? && ValidationSettled(w.cr.value.spec, agw.status))
  }

  ghost predicate ChangedAs(w: World, op: Operator, o: Oracle, r: PassResult, change: CrChange) {
    var live := Live(w.cr, o);
    match change
    case Untouched =>
      && r.world.cr == live
      && (r.result == DONE ==> w.cr.None? || (w.cr.value.deleting && FINALIZER !in w.cr.value.finalizers))
    case StatusWritten(agw, write) =>
      && live == w.cr && GoodWrite(w, op, o, agw, write)
      && r.world.cr == Some(w.cr.value.(status := FinalStatus(agw, write), resourceVersion := w.cr.value.resourceVersion + 1))
      && (r.result == DONE ==> write.requeueAfter.None?)
    case FinalizerAdded =>
      && w.cr.Some? && live.Some? && !live.value.deleting && FINALIZER !in w.cr.value.finalizers
      && r.world.cr == Some(live.value.(finalizers := w.cr.value.finalizers + {FINALIZER}, resourceVersion := live.value.resourceVersion + 1))
      && r.result == Again(0)
    case FinalizerRemoved =>
      && w.cr.Some? && live.Some? && w.cr.value.deleting && FINALIZER in w.cr.value.finalizers
      && r.world.cr == (if w.cr.value.finalizers - {FINALIZER} == {} then None
                        else Some(live.value.(finalizers := w.cr.value.finalizers - {FINALIZER}, resourceVersion := live.value.resourceVersion + 1)))
      && r.result == DONE
  }

  lemma PassChange(w: World, op: Operator, o: Oracle) returns (change: CrChange)
    ensures ChangedAs(w, op, o, Pass(w, op, o), change)
  {
    hide MainFlow, DeletionPass, Certified, ValidationSettled;
    if w.cr.None? || ResourceGet in o.failing {
      change := Untouched;
    } else if w.cr.value.deleting && FINALIZER in w.cr.value.finalizers {
      change := DeletionChange(w, op, o);
    } else if w.cr.value.deleting {
      change := Untouched;
    } else if FINALIZER !in w.cr.value.finalizers {
      change := if AddFinalizer(Live(w.cr, o), w.cr.value, o.failing).result.error then Untouched else FinalizerAdded;
    } else {
      change := FlowChange(w, op, o);
    }
  }

  lemma FlowChange(w: World, op: Operator, o: Oracle) returns (change: CrChange)
    requires w.cr.Some? && !w.cr.value.deleting && FINALIZER in w.cr.value.finalizers && ResourceGet !in o.failing
    ensures ChangedAs(w, op, o, Pass(w, op, o), change)
  {
    hide MainFlow, DeletionPass, Evidence, ValidationSettled, ReadyConditions, CommitStatus;
    var l := Local(w.objects, w.nodes, w.cr.value);
    var out := MainFlow(l, op, o);
    FlowKeepsResource(l, op, o);
    QuietFlow(l, op, o);
    CommitFacts(w.cr, Live(w.cr, o), out.local.agw, out.write, o.failing);
    if out.write.status.True? {
      MainFlowReady(l, op, o);
      assert World(Some(l.agw), l.objects, l.nodes) == w;
      assert Certified(w, op, o, FinalStatus(out.local.agw, out.write));
    }
    assert GoodWrite(w, op, o, out.local.agw, out.write);
    change := if CommitStatus(Live(w.cr, o), out.local.agw, out.write, o.failing).cr == Live(w.cr, o) then Untouched
              else StatusWritten(out.local.agw, out.write);
  }

  lemma RetryChange(w: World, op: Operator, o: Oracle, objects: Store, nodes: seq<Node>, reason: Reason, seconds: nat) returns (change: CrChange)
    requires w.cr.Some? && w.cr.value.deleting && FINALIZER in w.cr.value.finalizers
    ensures ChangedAs(w, op, o, Ends(objects, nodes, DeletionRetry(Live(w.cr, o), w.cr.value, reason, o.failing, seconds)), change)
  {
    hide CommitStatus, Certified, ValidationSettled;
    var write := NotReady(reason, TWO_MINUTES);
    CommitFacts(w.cr, Live(w.cr, o), w.cr.value, write, o.failing);
    change := if CommitStatus(Live(w.cr, o), w.cr.value, write, o.failing).cr == Live(w.cr, o) then Untouched
              else StatusWritten(w.cr.value, write);
  }

  lemma DeletionChange(w: World, op: Operator, o: Oracle) returns (change: CrChange)
    requires w.cr.Some? && w.cr.value.deleting && FINALIZER in w.cr.value.finalizers && ResourceGet !in o.failing
    ensures ChangedAs(w, op, o, Pass(w, op, o), change)
  {
    hide MainFlow, ReconcileDeregistration, AgwObjects, Delete, Handled, Completes, ChangedAs, DeletionRetry, DeletionCleanup;
    var agw, live := w.cr.value, Live(w.cr, o);
    var dereg := ReconcileDeregistration(w.objects, agw, o.failing);
    if dereg.verdict.DeregistrationFailed? {
      change := RetryChange(w, op, o, dereg.store, w.nodes, GatewayDeregistrationBlocked, 30);
    } else if dereg.verdict.NotDeregistered? {
      change := RetryChange(w, op, o, dereg.store, w.nodes, GatewayDeregistrationPending, 20);
    } else {
      var doomed := AgwObjects(agw, map[], op);
      var left := Delete(dereg.store, doomed[..Handled(o.deleteStop, |doomed|)]);
      if Completes(o.deleteStop, |doomed|) {
        change := CleanupChange(w, op, o, left);
      } else {
        change := RetryChange(w, op, o, left, w.nodes, NativeDeleteFailed, 30);
      }
    }
  }

  lemma CleanupChange(w: World, op: Operator, o: Oracle, store: Store) returns (change: CrChange)
    requires w.cr.Some? && w.cr.value.deleting && FINALIZER in w.cr.value.finalizers
    ensures ChangedAs(w, op, o, DeletionCleanup(store, w.nodes, w.cr.value, Live(w.cr, o), o), change)
  {
    hide UnlabelUpTo, UnlabelCompletes, CleanupDurable, Certified, ValidationSettled;
    change := if DeletionCleanup(store, w.nodes, w.cr.value, Live(w.cr, o), o).result.error then Untouched else FinalizerRemoved;
  }

  // ----- No lost wake-up -----

  /** Why nothing more needs to be done until something changes. */
  ghost predicate NothingLeft(w: World, w': World) {
    || w.cr.None?
    || (w.cr.value.deleting && FINALIZER !in w.cr.value.finalizers)
    || (w.cr.value.deleting && (w'.cr.None? || FINALIZER !in w'.cr.value.finalizers))
    || (&& w'.cr.Some? && ConditionIs(w'.cr.value.status, ConditionType.Ready, True)
        && w'.cr.value.status.observedGeneration == w'.cr.value.generation
        && ValidationSettled(w'.cr.value.spec, w'.cr.value.status))
  }

  /** A pass ends with neither an error nor a requeue only when there is nothing to come back for. */
  lemma NoLostWakeUp(w: World, op: Operator, o: Oracle)
    requires Pass(w, op, o).result == DONE
    ensures NothingLeft(w, Pass(w, op, o).world)
  {
    hide Pass, Certified, ObservedBy;
    var change := PassChange(w, op, o);
    if change.StatusWritten? {
      assert ConditionType.UERANSIMValidated != ConditionType.Ready;
    }
  }

  // ----- Monotone observation -----

  /** The status never runs ahead of the resource, and no condition runs ahead of the status. */
  ghost predicate Observes(w: World) {
    w.cr.Some? ==>
      && w.cr.value.status.observedGeneration <= w.cr.value.generation
      && ObservedBy(w.cr.value.status, w.cr.value.status.observedGeneration)
  }

  /** Neither the generation nor the observed generation has gone back. */
  ghost predicate NoEarlier(w: World, w': World) {
    w'.cr.Some? ==>
      && w.cr.Some? && w.cr.value.generation <= w'.cr.value.generation
      && w.cr.value.status.observedGeneration <= w'.cr.value.status.observedGeneration
  }

  lemma ObservedLater(status: AgwStatus, a: nat, b: nat)
    requires ObservedBy(status, a) && a <= b
    ensures ObservedBy(status, b)
  {
  }

  lemma PassObserves(w: World, op: Operator, o: Oracle)
    requires Observes(w)
    ensures var w' := Pass(w, op, o).world;
      && Observes(w')
      && NoEarlier(w, w')
  {
    hide Pass, Certified, ValidationSettled;
    var change := PassChange(w, op, o);
    if w.cr.Some? {
      ObservedLater(w.cr.value.status, w.cr.value.status.observedGeneration, w.cr.value.generation);
    }
  }

  lemma {:induction false} MonotoneObservation(op: Operator, ws: seq<World>, es: seq<Event>, i: nat, j: nat)
    requires Run(op, ws, es) && i <= j < |ws| && Observes(ws[0])
    ensures Observes(ws[j])
    ensures NoEarlier(ws[i], ws[j])
    decreases j
  {
    hide Pass;
    if j > 0 {
      MonotoneObservation(op, ws, es, if i < j then i else 0, j - 1);
      if es[j - 1].PassEvent? {
        PassObserves(ws[j - 1], op, es[j - 1].o);
      }
      assert Steps(op, ws[j - 1], es[j - 1], ws[j]);
    }
  }

  // ----- Ready soundness over whole runs -----

  /** A generation number stands for one specification during the life of the resource. */
  lemma {:induction false} GenerationFixesSpec(op: Operator, ws: seq<World>, es: seq<Event>, i: nat, j: nat)
    requires Run(op, ws, es) && i <= j < |ws| && Observes(ws[0])
    requires ws[j].cr.Some?
    ensures ws[i].cr.Some?
    ensures ws[i].cr.value.generation == ws[j].cr.value.generation ==> ws[i].cr.value.spec == ws[j].cr.value.spec
    decreases j
  {
    hide Pass, Certified, ValidationSettled;
    MonotoneObservation(op, ws, es, i, j);
    if i < j {
      assert Steps(op, ws[j - 1], es[j - 1], ws[j]);
      MonotoneObservation(op, ws, es, j - 1, j);
      MonotoneObservation(op, ws, es, i, j - 1);
      if es[j - 1].PassEvent? {
        var change := PassChange(ws[j - 1], op, es[j - 1].o);
      }
      GenerationFixesSpec(op, ws, es, i, j - 1);
    }
  }

  ghost predicate ReportsReady(w: World) {
    w.cr.Some? && ConditionIs(w.cr.value.status, ConditionType.Ready, True)
  }

  /** The resource was as the pass had read it, and the pass wrote the status and nothing else. */
  ghost predicate StatusLanded(w: World, o: Oracle, w': World) {
    && w.cr.Some? && w'.cr.Some? && Live(w.cr, o) == w.cr
    && w'.cr.value == w.cr.value.(status := w'.cr.value.status, resourceVersion := w.cr.value.resourceVersion + 1)
  }

  /** Step k of the run is the pass that wrote the status seen in state n; it had the evidence, and the status has stayed since. */
  ghost predicate WrittenAt(op: Operator, ws: seq<World>, es: seq<Event>, k: nat, n: nat)
    requires |ws| == |es| + 1 && n < |ws| && ws[n].cr.Some?
  {
    && k < n && es[k].PassEvent? && Certified(ws[k], op, es[k].o, ws[n].cr.value.status)
    && StatusLanded(ws[k], es[k].o, ws[k + 1])
    && forall m :: k < m <= n ==> ws[m].cr.Some? && ws[m].cr.value.status == ws[n].cr.value.status
  }

  /**
   In every state of every run, a persisted Ready=True was written by a pass that had read, for
   the generation the status names, a synced trust bundle, a registration Job for the current
   payload, a fully labelled and prepared node set, and no pending simulator gate.
   */
  lemma {:induction false} ReadySoundness(op: Operator, ws: seq<World>, es: seq<Event>, n: nat) returns (k: nat)
    requires Run(op, ws, es) && n < |ws|
    requires !ReportsReady(ws[0]) && ReportsReady(ws[n])
    ensures WrittenAt(op, ws, es, k, n)
    decreases n
  {
    hide Pass, Certified, ValidationSettled, ObservedBy;
    var last := n - 1;
    assert Steps(op, ws[last], es[last], ws[n]);
    if es[last].PassEvent? {
      var change := PassChange(ws[last], op, es[last].o);
      if change.StatusWritten? {
        k := last;
        return;
      }
    }
    k := ReadySoundness(op, ws, es, last);
  }

  /** If the status is up to date, the evidence was for the specification as it is now. */
  lemma ReadyForCurrentSpec(op: Operator, ws: seq<World>, es: seq<Event>, n: nat) returns (k: nat)
    requires Run(op, ws, es) && n < |ws| && Observes(ws[0])
    requires !ReportsReady(ws[0]) && ReportsReady(ws[n])
    requires ws[n].cr.value.status.observedGeneration == ws[n].cr.value.generation
    ensures WrittenAt(op, ws, es, k, n)
    ensures ws[k].cr.Some? && ws[k].cr.value.spec == ws[n].cr.value.spec
  {
    hide Pass, Evidence;
    k := ReadySoundness(op, ws, es, n);
    GenerationFixesSpec(op, ws, es, k, n);
  }
}
