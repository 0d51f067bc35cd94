/** A persisted Ready of a MagmaOrc8r over whole runs, whatever others do to the cluster and to the resource. */
module Orc8rHistory {
  import opened GoMaps
  import opened Objects
  import opened NativeRelease
  import opened AgwModel
  import opened Orc8r
  import opened Orc8rRuns

  /** Between passes the cluster may change in any way, the resource as the API server lets others change it. */
  ghost predicate Moves(op: Orc8rOperator, w: Cluster, e: Orc8rEvent, w': Cluster) {
    match e
    case Orc8rPassEvent(o) => w' == Orc8rPass(w, op, o).cluster
    case OutsideEvent => Orc8rEvolves(w.cr, w'.cr)
  }

  ghost predicate History(op: Orc8rOperator, ws: seq<Cluster>, es: seq<Orc8rEvent>) {
    |ws| == |es| + 1 && forall i :: 0 <= i < |es| ==> Moves(op, ws[i], es[i], ws[i + 1])
  }

  predicate SaysReady(w: Cluster) {
    w.cr.Some? && w.cr.value.status.ready
  }

  /** This pass found the resource as it had read it, and persisted a status for the generation it has read, with the certificates rolled out everywhere. */
  ghost predicate WroteReady(op: Orc8rOperator, w: Cluster, o: Orc8rOracle, w': Cluster) {
    && Guarded(w) && !w.cr.value.deleting && LiveOrc8r(w.cr, o) == w.cr
    && w'.cr.Some? && w'.cr == Some(w.cr.value.(status := w'.cr.value.status, resourceVersion := w.cr.value.resourceVersion + 1))
    && w'.cr.value.status.observedGeneration == w'.cr.value.status.readyGeneration == w.cr.value.generation
    && RolledOutEverywhere(w'.objects, w.cr.value, op.sha)
  }

  lemma CommitWrites(cr: Option<MagmaOrc8r>, live: Option<MagmaOrc8r>, write: Orc8rWrite, failing: set<Orc8rCall>)
    requires cr.Some? && Orc8rEvolves(cr, live)
    ensures var c := SoonAfter(CommitOrc8r(live, cr.value, write, failing), write.reason);
      || c.cr == live
      || (live == cr && c.cr == Some(cr.value.(status := WrittenStatus(cr.value, write), resourceVersion := cr.value.resourceVersion + 1)))
  {
    hide WrittenStatus;
  }

  /** A pass keeps the status, reports that it is not ready, or writes Ready on a complete rollout. */
  lemma PassReports(w: Cluster, op: Orc8rOperator, o: Orc8rOracle)
    requires forall s :: op.sha(s) != ""
    ensures var w' := Orc8rPass(w, op, o).cluster;
      SaysReady(w') ==> (w.cr.Some? && w'.cr.value.status == w.cr.value.status) || WroteReady(op, w, o, w')
  {
    hide Orc8rFlow, Orc8rDeletion, RolledOutEverywhere, CommitOrc8r, SoonAfter;
    if Guarded(w) && GetResource !in o.failing {
      if w.cr.value.deleting {
        DeletionReports(w, op, o);
      } else {
        var out := Orc8rFlow(w.objects, w.cr.value, op, o);
        CommitWrites(w.cr, LiveOrc8r(w.cr, o), out.write, o.failing);
        if out.write.ready {
          Orc8rReadyMeans(w.objects, w.cr.value, op, o);
        }
      }
    }
  }

  lemma DeletionReports(w: Cluster, op: Orc8rOperator, o: Orc8rOracle)
    requires Guarded(w) && w.cr.value.deleting
    ensures var w' := Orc8rDeletion(w, w.cr.value, LiveOrc8r(w.cr, o), op, o).cluster;
      SaysReady(w') ==> w'.cr.value.status == w.cr.value.status
  {
    hide Orc8rObjects, Delete, Handled, Completes;
  }

  /** Step k of the run wrote the status seen in state n, nothing has written it since, and the rollout was complete. */
  ghost predicate ReadyWrittenAt(op: Orc8rOperator, ws: seq<Cluster>, es: seq<Orc8rEvent>, k: nat, n: nat)
    requires |ws| == |es| + 1 && n < |ws| && SaysReady(ws[n])
  {
    && k < n && es[k].Orc8rPassEvent? && WroteReady(op, ws[k], es[k].o, ws[k + 1])
    && forall m :: k < m <= n ==> ws[m].cr.Some? && ws[m].cr.value.status == ws[n].cr.value.status
  }

  /**
   In every state of every run, a persisted Ready was written by a pass that left the
   certificates for the domain of its generation, their hash on every Deployment of the release,
   and a bootstrap Job that carries it and has not failed.
   */
  lemma {:induction false} Orc8rReadySoundness(op: Orc8rOperator, ws: seq<Cluster>, es: seq<Orc8rEvent>, n: nat) returns (k: nat)
    requires History(op, ws, es) && n < |ws| && !SaysReady(ws[0]) && SaysReady(ws[n])
    requires forall s :: op.sha(s) != ""
    ensures ReadyWrittenAt(op, ws, es, k, n)
    decreases n
  {
    hide Orc8rPass, RolledOutEverywhere;
    var last := n - 1;
    assert Moves(op, ws[last], es[last], ws[n]);
    if es[last].Orc8rPassEvent? {
      PassReports(ws[last], op, es[last].o);
      if WroteReady(op, ws[last], es[last].o, ws[n]) {
        k := last;
        return;
      }
    }
    k := Orc8rReadySoundness(op, ws, es, last);
  }

  // ----- The generation names the specification -----

  predicate Descends(a: Option<MagmaOrc8r>, b: Option<MagmaOrc8r>) {
    b.Some? ==>
      && a.Some? && a.value.name == b.value.name && a.value.namespace == b.value.namespace
      && a.value.generation <= b.value.generation
      && (a.value.generation == b.value.generation ==> a.value.spec == b.value.spec)
  }

  lemma PassDescends(w: Cluster, op: Orc8rOperator, o: Orc8rOracle)
    ensures Descends(w.cr, Orc8rPass(w, op, o).cluster.cr)
  {
    hide Orc8rFlow, Orc8rObjects, Delete, Handled, Completes, WrittenStatus;
  }

  lemma {:induction false} HistoryDescends(op: Orc8rOperator, ws: seq<Cluster>, es: seq<Orc8rEvent>, i: nat, j: nat)
    requires History(op, ws, es) && i <= j < |ws|
    ensures Descends(ws[i].cr, ws[j].cr)
    decreases j
  {
    hide Orc8rPass;
    if i < j {
      HistoryDescends(op, ws, es, i, j - 1);
      assert Moves(op, ws[j - 1], es[j - 1], ws[j]);
      if es[j - 1].Orc8rPassEvent? {
        PassDescends(ws[j - 1], op, es[j - 1].o);
      }
    }
  }

  lemma SameSpecRolled(store: Store, a: MagmaOrc8r, b: MagmaOrc8r, sha: string -> string)
    requires a.name == b.name && a.namespace == b.namespace && a.spec == b.spec && RolledOutEverywhere(store, a, sha)
    ensures RolledOutEverywhere(store, b, sha)
  {
    assert OwnRelease(a) == OwnRelease(b) && CertsKey(a) == CertsKey(b) && BootstrapKey(a) == BootstrapKey(b);
    forall k | ReleaseDeployment(store, b, k)
      ensures ReleaseDeployment(store, a, k)
    {
    }
  }

  /** If the status is up to date, the rollout was complete for the specification as it is now. */
  lemma Orc8rReadyForCurrentSpec(op: Orc8rOperator, ws: seq<Cluster>, es: seq<Orc8rEvent>, n: nat) returns (k: nat)
    requires History(op, ws, es) && n < |ws| && !SaysReady(ws[0]) && SaysReady(ws[n])
    requires forall s :: op.sha(s) != ""
    requires ws[n].cr.value.status.observedGeneration == ws[n].cr.value.generation
    ensures ReadyWrittenAt(op, ws, es, k, n)
    ensures RolledOutEverywhere(ws[k + 1].objects, ws[n].cr.value, op.sha)
  {
    hide Moves, RolledOutEverywhere;
    k := Orc8rReadySoundness(op, ws, es, n);
    assert ws[k + 1].cr.value.status == ws[n].cr.value.status;
    HistoryDescends(op, ws, es, k, n);
    SameSpecRolled(ws[k + 1].objects, ws[k].cr.value, ws[n].cr.value, op.sha);
  }
}
