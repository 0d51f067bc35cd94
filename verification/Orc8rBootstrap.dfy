/** The rollout of certificates to the bootstrap Job: a finished Job is never marked again, it is replaced. */
module Orc8rBootstrap {
  import opened GoMaps
  import opened Objects
  import opened Rendering
  import opened Manifests
  import opened NativeRelease
  import opened AgwModel
  import opened Orc8r
  import opened Orc8rRuns
  import opened Orc8rHistory

  const MARK := "magma.infra.don/orc8r-secret-hash"

  /** The bootstrap Job of the release. */
  function BootstrapJob(r: MagmaOrc8r): ObjectKey {
    ObjectKey(Job, r.namespace, (if r.spec.releaseName != "" then r.spec.releaseName else r.name) + "-nms-admin")
  }

  /** The Job has failed, or has succeeded with other certificates. */
  predicate Spent(job: Object, hash: string) {
    job.status.failed > 0 || (job.status.succeeded > 0 && Get(job.annotations, MARK) != hash)
  }

  // ----- One visit to the Job -----

  /** A visit in which nothing fails deletes the Job exactly when it is spent, and says so. */
  lemma VisitExact(store: Store, r: MagmaOrc8r, hash: string, failing: set<Orc8rCall>)
    requires hash != "" && GetJob !in failing && DeleteJob !in failing && PatchJob !in failing
    ensures var k, step := BootstrapJob(r), ReconcileBootstrap(store, r, hash, failing);
      && (step.outcome.Recreated? <==> k in store && Spent(store[k], hash))
      && (k in step.store <==> k in store && !Spent(store[k], hash))
      && (k in step.store ==> step.store[k] == store[k].(annotations := store[k].annotations[MARK := hash]))
      && !step.outcome.BootstrapError?
  {
    var k := BootstrapJob(r);
    if k in store && Get(store[k].annotations, MARK) == hash {
      assert hash != "" && MARK in store[k].annotations;
      assert store[k].annotations[MARK := hash] == store[k].annotations;
    }
  }

  /** Whatever fails, a visit leaves a Job that has succeeded as it is, or deletes it, and touches no other object. */
  lemma VisitKeepsFinished(store: Store, r: MagmaOrc8r, hash: string, failing: set<Orc8rCall>, k: ObjectKey)
    ensures var after := ReconcileBootstrap(store, r, hash, failing).store;
      && (k != BootstrapJob(r) ==> (k in after <==> k in store) && (k in store ==> after[k] == store[k]))
      && (k in after ==> k in store && (store[k].status.succeeded > 0 || after[k].status.succeeded > 0 ==> after[k] == store[k]))
  {
  }

  // ----- The rollout of one pass -----

  /** Nothing fails in the rollout. */
  ghost predicate SmoothRollout(store: Store, r: MagmaOrc8r, op: Orc8rOperator, o: Orc8rOracle) {
    && o.failing == {} && forall k :: k in Outdated(store, r, SecretHash(store, r, op.sha)) ==> o.annotated(k)
  }

  lemma RolledJobs(store: Store, r: MagmaOrc8r, sha: string -> string, o: Orc8rOracle, k: ObjectKey)
    requires k.kind.Job?
    ensures var after := RollOutCerts(store, r, sha, o).store; (k in after <==> k in store) && (k in store ==> after[k] == store[k])
  {
    hide SecretHash, OwnRelease;
  }

  /** A smooth rollout with certificates: a spent Job is gone afterwards and the pass does not report Ready; any other Job carries the hash. */
  lemma SpentIsReplaced(store: Store, r: MagmaOrc8r, op: Orc8rOperator, o: Orc8rOracle)
    requires HasCerts(store, r) && SmoothRollout(store, r, op, o) && SecretHash(store, r, op.sha) != ""
    ensures var k, hash, out := BootstrapJob(r), SecretHash(store, r, op.sha), RolloutFlow(store, r, op, o);
      && (k in store && Spent(store[k], hash) ==> k !in out.store && !out.write.ready && out.write.reason == BootstrapJobRecreated)
      && (k in store && !Spent(store[k], hash) ==> k in out.store && out.store[k] == store[k].(annotations := store[k].annotations[MARK := hash]))
  {
    hide SecretHash, HasCerts, Spent, ReconcileBootstrap, Outdated, PutHashes, PatchMagmalte, BootstrapJob;
    var k, hash := BootstrapJob(r), SecretHash(store, r, op.sha);
    assert k.kind.Job? by { JobIs(r); }
    CertsThere(store, r);
    AllServed(store, r, op, o);
    RolledJobs(store, r, op.sha, o, k);
    var rolled := RollOutCerts(store, r, op.sha, o);
    VisitExact(rolled.store, r, hash, o.failing);
    WebKeepsJobs(ReconcileBootstrap(rolled.store, r, hash, o.failing).store, r, op.httpMode, o.failing, k);
  }

  lemma JobIs(r: MagmaOrc8r)
    ensures BootstrapJob(r).kind.Job? && BootstrapJob(r) == BootstrapKey(r)
  {
  }

  lemma CertsThere(store: Store, r: MagmaOrc8r)
    requires HasCerts(store, r)
    ensures CertsKey(r) in store
  {
  }

  lemma AllServed(store: Store, r: MagmaOrc8r, op: Orc8rOperator, o: Orc8rOracle)
    requires SmoothRollout(store, r, op, o)
    ensures Served(Outdated(store, r, SecretHash(store, r, op.sha)), o.annotated) == Outdated(store, r, SecretHash(store, r, op.sha))
  {
    hide Outdated, SecretHash;
  }

  lemma WebKeepsJobs(store: Store, r: MagmaOrc8r, httpMode: string -> string, failing: set<Orc8rCall>, k: ObjectKey)
    requires k.kind.Job?
    ensures var after := PatchMagmalte(store, r, httpMode, failing).store; (k in after <==> k in store) && (k in store ==> after[k] == store[k])
  {
  }

  /** Whatever fails, no step of the rollout changes a Job that has succeeded. */
  lemma RolloutKeepsFinished(store: Store, r: MagmaOrc8r, op: Orc8rOperator, o: Orc8rOracle, k: ObjectKey)
    requires k.kind.Job?
    ensures var after := RolloutFlow(store, r, op, o).store;
      k in after ==> k in store && (store[k].status.succeeded > 0 || after[k].status.succeeded > 0 ==> after[k] == store[k])
  {
    hide RollOutCerts, ReconcileBootstrap, PatchMagmalte, OwnRelease;
    RolledJobs(store, r, op.sha, o, k);
    var rolled := RollOutCerts(store, r, op.sha, o);
    VisitKeepsFinished(rolled.store, r, rolled.hash, o.failing, k);
    WebKeepsJobs(ReconcileBootstrap(rolled.store, r, rolled.hash, o.failing).store, r, op.httpMode, o.failing, k);
  }

  lemma CertsKeepJobs(store: Store, r: MagmaOrc8r, sha: string -> string, o: Orc8rOracle, k: ObjectKey)
    requires k.kind.Job?
    ensures var after := ReconcileCerts(store, r, sha, o).store; (k in after <==> k in store) && (k in store ==> after[k] == store[k])
  {
    hide HasCerts, WithCerts;
  }

  /** A Job that a flow leaves succeeded is the Job that the native apply had left. */
  lemma FlowKeepsFinished(store: Store, r: MagmaOrc8r, op: Orc8rOperator, o: Orc8rOracle, k: ObjectKey)
    requires k.kind.Job?
    ensures var after, applied := Orc8rFlow(store, r, op, o).store, Applied(store, r, op, o);
      k in after && after[k].status.succeeded > 0 ==> k in applied && after[k] == applied[k]
  {
    hide RolloutFlow, Orc8rObjects, Orc8rValues, ApplyUpTo, ReconcileCerts, Handled, Completes;
    var applied := Applied(store, r, op, o);
    CertsKeepJobs(applied, r, op.sha, o, k);
    RolloutKeepsFinished(ReconcileCerts(applied, r, op.sha, o).store, r, op, o, k);
  }

  // ----- The native apply -----

  /** The manifest does not write the mark itself, and manifests hold no status. */
  predicate Markless(objects: seq<Desired>, k: ObjectKey) {
    forall i :: 0 <= i < |objects| && objects[i].key == k ==> MARK !in objects[i].content.annotations && objects[i].content.status == NO_STATUS
  }

  /** The same Job as before, as far as its status and its mark are concerned. */
  predicate SameRun(a: Store, b: Store, k: ObjectKey) {
    k in b && b[k].status.succeeded > 0 ==>
      k in a && b[k].status == a[k].status && Get(b[k].annotations, MARK) == Get(a[k].annotations, MARK)
  }

  lemma MarkIsNotHelm()
    ensures !(HELM_PREFIX <= MARK)
  {
    assert HELM_PREFIX[0] == 'h' && MARK[0] == 'm';
  }

  lemma CleanedMark(o: Object)
    ensures CleanMetadata(o).status == o.status && Get(CleanMetadata(o).annotations, MARK) == Get(o.annotations, MARK)
  {
    MarkIsNotHelm();
  }

  lemma ServedRun(store: Store, d: Desired)
    requires MARK !in d.content.annotations && d.content.status == NO_STATUS
    ensures SameRun(store, store[d.key := ServerSideApply(store, d)], d.key)
    ensures SameRun(store, store[d.key := CleanMetadata(ServerSideApply(store, d))], d.key)
  {
    hide CleanMetadata;
    CleanedMark(ServerSideApply(store, d));
  }

  lemma OneRun(store: Store, d: Desired, immutable: set<ObjectKey>, k: ObjectKey)
    requires k.kind.Job? && (d.key == k ==> MARK !in d.content.annotations && d.content.status == NO_STATUS)
    ensures SameRun(store, ApplyOne(store, d, Everything, immutable), k)
    ensures SameRun(store, ApplyPartly(store, d, Everything, immutable), k)
  {
    hide CleanMetadata, ServerSideApply;
    if d.key == k {
      ServedRun(store, d);
    }
  }

  lemma RunChain(a: Store, b: Store, c: Store, k: ObjectKey)
    requires SameRun(a, b, k) && SameRun(b, c, k)
    ensures SameRun(a, c, k)
  {
  }

  lemma {:induction false} ApplyKeepsRun(store: Store, objects: seq<Desired>, immutable: set<ObjectKey>, k: ObjectKey)
    requires k.kind.Job? && Markless(objects, k)
    ensures SameRun(store, Apply(store, objects, Everything, immutable), k)
  {
    hide ApplyOne, SameRun;
    if objects == [] {
      SameItself(store, k);
    } else {
      var n := |objects| - 1;
      assert forall i :: 0 <= i < n ==> objects[..n][i] == objects[i];
      var before := Apply(store, objects[..n], Everything, immutable);
      ApplyKeepsRun(store, objects[..n], immutable, k);
      OneRun(before, objects[n], immutable, k);
      RunChain(store, before, Apply(store, objects, Everything, immutable), k);
    }
  }

  lemma SameItself(store: Store, k: ObjectKey)
    ensures SameRun(store, store, k)
  {
  }

  lemma UpToKeepsRun(store: Store, objects: seq<Desired>, immutable: set<ObjectKey>, stop: Stop, k: ObjectKey)
    requires k.kind.Job? && Markless(objects, k)
    ensures SameRun(store, ApplyUpTo(store, objects, Everything, immutable, stop), k)
  {
    hide Apply, ApplyOne, ApplyPartly, SameRun;
    if Completes(stop, |objects|) {
      ApplyKeepsRun(store, objects, immutable, k);
    } else {
      var part := objects[..stop.at];
      assert forall i :: 0 <= i < stop.at ==> part[i] == objects[i];
      var before := Apply(store, part, Everything, immutable);
      ApplyKeepsRun(store, part, immutable, k);
      OneRun(before, objects[stop.at], immutable, k);
      SameItself(before, k);
      RunChain(store, before, ApplyUpTo(store, objects, Everything, immutable, stop), k);
    }
  }

  lemma {:induction false} DecodedStatus(docs: seq<seq<string>>, namespace: string, decode: seq<string> -> Content, i: nat)
    requires i < |DecodeAll(docs, namespace, decode)|
    ensures DecodeAll(docs, namespace, decode)[i].content.status == NO_STATUS
  {
    hide Named, DocKey;
    if Named(docs[0]) && i > 0 {
      DecodedStatus(docs[1..], namespace, decode, i - 1);
    } else if !Named(docs[0]) {
      DecodedStatus(docs[1..], namespace, decode, i);
    }
  }

  // ----- Persisted Ready -----

  /** The manifest, rendered for this resource, does not write the mark. */
  ghost predicate LeavesMark(r: MagmaOrc8r, op: Orc8rOperator) {
    var objects := Orc8rObjects(r, Orc8rValues(r.spec), op);
    forall i :: 0 <= i < |objects| ==> MARK !in objects[i].content.annotations
  }

  lemma ListedMarkless(r: MagmaOrc8r, op: Orc8rOperator, k: ObjectKey)
    requires LeavesMark(r, op)
    ensures Markless(Orc8rObjects(r, Orc8rValues(r.spec), op), k)
  {
    hide Orc8rValues, DecodeAll, Render, Lines, Documents, Orc8rTarget;
    var objects := Orc8rObjects(r, Orc8rValues(r.spec), op);
    forall i | 0 <= i < |objects|
      ensures objects[i].content.status == NO_STATUS
    {
      DecodedStatus(Documents(Lines(Render(Join(op.manifest.lines), Orc8rTarget(r), Orc8rValues(r.spec)))), Orc8rTarget(r).namespace, op.manifest.decode, i);
    }
  }

  lemma PassFinished(w: Cluster, op: Orc8rOperator, o: Orc8rOracle)
    requires Guarded(w) && !w.cr.value.deleting && GetResource !in o.failing && LeavesMark(w.cr.value, op)
    ensures SameRun(w.objects, Orc8rPass(w, op, o).cluster.objects, BootstrapJob(w.cr.value))
  {
    hide Orc8rFlow, Orc8rDeletion, Orc8rObjects, Orc8rValues, ApplyUpTo, BootstrapJob;
    var r := w.cr.value;
    var k := BootstrapJob(r);
    JobIs(r);
    ListedMarkless(r, op, k);
    UpToKeepsRun(w.objects, Orc8rObjects(r, Orc8rValues(r.spec), op), o.immutable, o.applyStop, k);
    FlowKeepsFinished(w.objects, r, op, o, k);
  }

  lemma MarkedEverywhere(store: Store, r: MagmaOrc8r, sha: string -> string)
    requires RolledOutEverywhere(store, r, sha) && BootstrapJob(r) in store
    ensures Get(store[BootstrapJob(r)].annotations, MARK) == SecretHash(store, r, sha)
  {
    hide SecretHash, HasCerts, MustRecreate, ReleaseDeployment, CarriesHash;
  }

  lemma StaleRead(w: Cluster, op: Orc8rOperator, o: Orc8rOracle)
    requires GetResource in o.failing
    ensures Orc8rPass(w, op, o).cluster.cr == LiveOrc8r(w.cr, o)
  {
    hide Orc8rFlow, Orc8rDeletion;
  }

  /**
   Behind every persisted Ready: if a bootstrap Job has succeeded, it had succeeded, and carried
   the hash of the certificates in use, when the reporting pass read the cluster.
   */
  lemma ReadyMeansBootstrapped(op: Orc8rOperator, ws: seq<Cluster>, es: seq<Orc8rEvent>, n: nat) returns (k: nat)
    requires History(op, ws, es) && n < |ws| && !SaysReady(ws[0]) && SaysReady(ws[n])
    requires (forall s :: op.sha(s) != "") && forall m :: 0 <= m < |ws| && ws[m].cr.Some? ==> LeavesMark(ws[m].cr.value, op)
    ensures ReadyWrittenAt(op, ws, es, k, n)
    ensures var r, job := ws[k].cr.value, BootstrapJob(ws[k].cr.value);
      job in ws[k + 1].objects && ws[k + 1].objects[job].status.succeeded > 0 ==>
        && job in ws[k].objects && ws[k].objects[job].status.succeeded > 0 && ws[k].objects[job].status.failed == ws[k + 1].objects[job].status.failed
        && Get(ws[k].objects[job].annotations, MARK) == SecretHash(ws[k + 1].objects, r, op.sha)
  {
    hide Orc8rPass, LeavesMark, RolledOutEverywhere, SecretHash, BootstrapJob;
    k := Orc8rReadySoundness(op, ws, es, n);
    assert Moves(op, ws[k], es[k], ws[k + 1]);
    if GetResource in es[k].o.failing {
      StaleRead(ws[k], op, es[k].o);
    }
    PassFinished(ws[k], op, es[k].o);
    if BootstrapJob(ws[k].cr.value) in ws[k + 1].objects {
      MarkedEverywhere(ws[k + 1].objects, ws[k].cr.value, op.sha);
    }
  }
}
