/** What Ready means for a MagmaOrc8r, in the names, annotations and contents of the objects themselves. */
module Orc8rEvidence {
  import opened GoMaps
  import opened Objects
  import opened NativeRelease
  import opened SecretBytes
  import opened AgwModel
  import opened Orc8r
  import opened Orc8rRuns
  import opened Orc8rHistory
  import opened Orc8rBootstrap
  import ValidationKey

  /** Domain and host name, as the annotation of the certificates has them. */
  function DomainMark(spec: Orc8rSpec): string {
    var domain := OrDefault(spec.domainName, "magma.local");
    domain + "|" + OrDefault(spec.controllerHostname, "controller." + domain)
  }

  function CertificateSecret(r: MagmaOrc8r): ObjectKey {
    ObjectKey(Secret, r.namespace, "orc8r-secrets-certs")
  }

  /** The certificates are there, with a root CA, for this domain and host name. */
  predicate CertificatesThere(store: Store, r: MagmaOrc8r) {
    var k := CertificateSecret(r);
    && k in store && Get(store[k].data, "rootCA.pem") != ""
    && Get(store[k].annotations, "magma.infra.don/orc8r-cert-domain") == DomainMark(r.spec)
  }

  /** A Deployment in the namespace of the release that carries its label. */
  predicate OfRelease(store: Store, r: MagmaOrc8r, k: ObjectKey) {
    && k in store && k.kind == Deployment && k.namespace == r.namespace
    && "app.kubernetes.io/instance" in store[k].labels && store[k].labels["app.kubernetes.io/instance"] == OrDefault(r.spec.releaseName, r.name)
  }

  /** The certificates are in use: their hash is on every Deployment of the release and on the bootstrap Job, which has not failed. */
  ghost predicate InUse(store: Store, r: MagmaOrc8r, sha: string -> string) {
    && CertificatesThere(store, r)
    && var hash := sha(Canonical(store[CertificateSecret(r)].data));
       && (forall k :: OfRelease(store, r, k) ==> Get(store[k].podAnnotations, "magma.infra.don/orc8r-secret-hash") == hash)
       && (BootstrapJob(r) in store ==>
             store[BootstrapJob(r)].status.failed == 0 && Get(store[BootstrapJob(r)].annotations, "magma.infra.don/orc8r-secret-hash") == hash)
  }

  lemma CertsLiterally(store: Store, r: MagmaOrc8r)
    ensures HasCerts(store, r) <==> CertificatesThere(store, r)
  {
  }

  lemma ReleaseLiterally(store: Store, r: MagmaOrc8r, k: ObjectKey)
    ensures ReleaseDeployment(store, r, k) <==> OfRelease(store, r, k)
  {
  }

  /** The rollout that Ready stands for is exactly this. */
  lemma InUseExact(store: Store, r: MagmaOrc8r, sha: string -> string)
    ensures RolledOutEverywhere(store, r, sha) <==> InUse(store, r, sha)
  {
    CertsLiterally(store, r);
    JobIs(r);
    hide HasCerts, CertificatesThere, Canonical, BootstrapJob;
    if HasCerts(store, r) {
      CertsThere(store, r);
    }
    forall k
      ensures ReleaseDeployment(store, r, k) <==> OfRelease(store, r, k)
    {
      ReleaseLiterally(store, r, k);
    }
    hide ReleaseDeployment, OfRelease;
  }

  /** Behind every persisted Ready stands a pass that left the certificates in use. */
  lemma ReadyMeansInUse(op: Orc8rOperator, ws: seq<Cluster>, es: seq<Orc8rEvent>, n: nat) returns (k: nat)
    requires History(op, ws, es) && n < |ws| && !SaysReady(ws[0]) && SaysReady(ws[n]) && forall s :: op.sha(s) != ""
    ensures ReadyWrittenAt(op, ws, es, k, n)
    ensures InUse(ws[k + 1].objects, ws[k].cr.value, op.sha)
  {
    hide Orc8rPass, RolledOutEverywhere, InUse;
    k := Orc8rReadySoundness(op, ws, es, n);
    InUseExact(ws[k + 1].objects, ws[k].cr.value, op.sha);
  }

  /** New certificates: generated data, the domain they are for, and a hash of both. */
  lemma CertificatesWritten(store: Store, r: MagmaOrc8r, sha: string -> string, o: Orc8rOracle)
    requires o.failing * {GetCerts, GenerateCerts, WriteCerts} == {}
    ensures var k, step := CertificateSecret(r), ReconcileCerts(store, r, sha, o);
      && step.ok && CertificatesThere(step.store, r)
      && (CertificatesThere(store, r) ==> step.store == store)
      && (!CertificatesThere(store, r) ==>
            && step.store == store[k := step.store[k]] && step.store[k].data == o.newCerts
            && Get(step.store[k].annotations, "magma.infra.don/orc8r-cert-hash") == sha(DomainMark(r.spec) + o.newCerts["rootCA.pem"])
            && Get(step.store[k].labels, "app.kubernetes.io/managed-by") == "magma-operator")
  {
    CertsLiterally(store, r);
    var hit := o.failing * {GetCerts, GenerateCerts, WriteCerts};
    assert GetCerts in o.failing ==> GetCerts in hit;
    assert GenerateCerts in o.failing ==> GenerateCerts in hit;
    assert WriteCerts in o.failing ==> WriteCerts in hit;
    AnnotationsAreNotHelm();
    hide HasCerts;
    assert DomainMark(r.spec) == DomainKey(r.spec);
    hide DomainMark, DomainKey;
  }

  // ----- The web Deployment -----

  lemma RollOutKeepsBody(store: Store, r: MagmaOrc8r, sha: string -> string, o: Orc8rOracle, k: ObjectKey)
    requires k in store
    ensures var after := RollOutCerts(store, r, sha, o).store; k in after && after[k].body == store[k].body && after[k].data == store[k].data
  {
    hide SecretHash, OwnRelease, Outdated;
  }

  lemma BootstrapKeepsBody(store: Store, r: MagmaOrc8r, hash: string, failing: set<Orc8rCall>, k: ObjectKey)
    requires k in store && !k.kind.Job?
    ensures var after := ReconcileBootstrap(store, r, hash, failing).store; k in after && after[k] == store[k]
  {
  }

  /** With a node port, a rollout that reports Ready has put the web Deployment into HTTP mode; without containers it is left alone. */
  lemma WebModeReached(store: Store, r: MagmaOrc8r, op: Orc8rOperator, o: Orc8rOracle)
    requires RolloutFlow(store, r, op, o).write.ready && r.spec.nmsNodePort.Some?
    ensures var web, after := ObjectKey(Deployment, r.namespace, "nms-magmalte"), RolloutFlow(store, r, op, o).store;
      && web in after
      && (web in store ==> after[web].body == if Get(store[web].data, "image") == "" then store[web].body else op.httpMode(store[web].body))
  {
    hide RollOutCerts, ReconcileBootstrap;
    var web := WebKey(r);
    var rolled := RollOutCerts(store, r, op.sha, o);
    if web in store {
      RollOutKeepsBody(store, r, op.sha, o, web);
      BootstrapKeepsBody(rolled.store, r, rolled.hash, o.failing, web);
    }
  }

  /** A new hash on the pod template makes the Deployment's controller start again, and changes nothing else. */
  lemma HashRestarts(o: Object, hash: string)
    ensures var after := PutHash(o, hash);
      && after.generation > o.generation && Get(after.podAnnotations, "magma.infra.don/orc8r-secret-hash") == hash
      && after == o.(podAnnotations := after.podAnnotations, generation := after.generation)
      && forall k :: k != "magma.infra.don/orc8r-secret-hash" ==> Get(after.podAnnotations, k) == Get(o.podAnnotations, k)
  {
  }

  /** What a written status says. */
  lemma StatusWritten(r: MagmaOrc8r, write: Orc8rWrite)
    ensures var s := WrittenStatus(r, write);
      && s.observedGeneration == s.readyGeneration == r.generation && s.ready == write.ready && s.reason == Some(write.reason)
      && s.releaseName == OrDefault(r.spec.releaseName, r.name) && s.releaseNamespace == r.namespace
      && s.nmsURL == "http://<node-ip>:" + (if r.spec.nmsNodePort.Some? then ValidationKey.Decimal(r.spec.nmsNodePort.value) else "<magmalte-nodeport>") + "/user/login"
  {
    hide ValidationKey.Decimal;
    UrlParts();
  }

  lemma UrlParts()
    ensures "http://<node-ip>:" + "<magmalte-nodeport>" + "/user/login" == "http://<node-ip>:<magmalte-nodeport>/user/login"
  {
  }

  // ----- Why a pass has not reported Ready -----

  ghost predicate Orc8rCause(reason: Orc8rReason, store: Store, after: Store, r: MagmaOrc8r, op: Orc8rOperator, o: Orc8rOracle) {
    var job, applied := BootstrapJob(r), Applied(store, r, op, o);
    match reason
    case NativeFailed => o.applyStop.Stop? && o.applyStop.at < |Orc8rObjects(r, Orc8rValues(r.spec), op)|
    case CertSecretFailed => GetCerts in o.failing || GenerateCerts in o.failing || WriteCerts in o.failing
    case SecretRolloutFailed => GetSecret in o.failing || ListDeployments in o.failing || exists k :: !o.annotated(k)
    case BootstrapJobFailed => GetJob in o.failing || DeleteJob in o.failing || PatchJob in o.failing
    case BootstrapJobRecreated =>
      && job in applied && job !in after
      && exists hash :: hash != "" && Spent(applied[job], hash)
    case MagmaltePatchFailed =>
      r.spec.nmsNodePort.Some? && (GetMagmalte in o.failing || UpdateMagmalte in o.failing || ObjectKey(Deployment, r.namespace, "nms-magmalte") !in after)
    case _ => false
  }

  lemma RecreatedMeans(store: Store, r: MagmaOrc8r, hash: string, failing: set<Orc8rCall>)
    ensures var step, k := ReconcileBootstrap(store, r, hash, failing), BootstrapJob(r);
      && (step.outcome.Recreated? ==> hash != "" && k in store && Spent(store[k], hash) && k !in step.store)
      && (step.outcome.BootstrapError? ==> GetJob in failing || DeleteJob in failing || PatchJob in failing)
  {
  }

  lemma WebFails(store: Store, r: MagmaOrc8r, httpMode: string -> string, failing: set<Orc8rCall>)
    requires !PatchMagmalte(store, r, httpMode, failing).ok
    ensures GetMagmalte in failing || UpdateMagmalte in failing || ObjectKey(Deployment, r.namespace, "nms-magmalte") !in PatchMagmalte(store, r, httpMode, failing).store
  {
  }

  lemma CertsFail(store: Store, r: MagmaOrc8r, sha: string -> string, o: Orc8rOracle)
    requires !ReconcileCerts(store, r, sha, o).ok
    ensures GetCerts in o.failing || GenerateCerts in o.failing || WriteCerts in o.failing
  {
    hide HasCerts, WithCerts;
  }

  lemma RolloutFails(store: Store, r: MagmaOrc8r, sha: string -> string, o: Orc8rOracle)
    requires !RollOutCerts(store, r, sha, o).ok
    ensures GetSecret in o.failing || ListDeployments in o.failing || exists k :: !o.annotated(k)
  {
    hide SecretHash, Outdated, PutHashes;
  }

  lemma RolloutCause(applied: Store, store: Store, r: MagmaOrc8r, op: Orc8rOperator, o: Orc8rOracle)
    requires BootstrapJob(r) in applied <==> BootstrapJob(r) in store
    requires BootstrapJob(r) in store ==> store[BootstrapJob(r)] == applied[BootstrapJob(r)]
    ensures var out, job := RolloutFlow(store, r, op, o), BootstrapJob(r);
      && (out.write.ready <==> out.write.reason.ResourcesReady?)
      && (out.write.reason.SecretRolloutFailed? ==> GetSecret in o.failing || ListDeployments in o.failing || exists k :: !o.annotated(k))
      && (out.write.reason.BootstrapJobFailed? ==> GetJob in o.failing || DeleteJob in o.failing || PatchJob in o.failing)
      && (out.write.reason.BootstrapJobRecreated? ==> job in applied && job !in out.store && exists hash :: hash != "" && Spent(applied[job], hash))
      && (out.write.reason.MagmaltePatchFailed? ==>
            && r.spec.nmsNodePort.Some?
            && (GetMagmalte in o.failing || UpdateMagmalte in o.failing || ObjectKey(Deployment, r.namespace, "nms-magmalte") !in out.store))
      && !out.write.reason.NativeFailed? && !out.write.reason.CertSecretFailed? && !out.write.reason.DeleteFailed?
  {
    hide RollOutCerts, ReconcileBootstrap, PatchMagmalte, Spent, BootstrapJob;
    var rolled := RollOutCerts(store, r, op.sha, o);
    JobIs(r);
    RolledJobs(store, r, op.sha, o, BootstrapJob(r));
    if !rolled.ok {
      RolloutFails(store, r, op.sha, o);
    } else {
      RecreatedMeans(rolled.store, r, rolled.hash, o.failing);
      var boot := ReconcileBootstrap(rolled.store, r, rolled.hash, o.failing);
      if !PatchMagmalte(boot.store, r, op.httpMode, o.failing).ok {
        WebFails(boot.store, r, op.httpMode, o.failing);
      }
    }
  }

  /** Every flow that does not end in Ready names a reason that was true. */
  lemma Orc8rFlowReason(store: Store, r: MagmaOrc8r, op: Orc8rOperator, o: Orc8rOracle)
    ensures var out := Orc8rFlow(store, r, op, o);
      if out.write.ready then out.write.reason.ResourcesReady? else Orc8rCause(out.write.reason, store, out.store, r, op, o)
  {
    hide RolloutFlow, ApplyUpTo, ReconcileCerts, Orc8rObjects, Orc8rValues, BootstrapJob, Spent;
    var applied := Applied(store, r, op, o);
    if Completes(o.applyStop, |Orc8rObjects(r, Orc8rValues(r.spec), op)|) {
      JobIs(r);
      CertsKeepJobs(applied, r, op.sha, o, BootstrapJob(r));
      var certs := ReconcileCerts(applied, r, op.sha, o);
      if !certs.ok {
        CertsFail(applied, r, op.sha, o);
      } else {
        RolloutCause(applied, certs.store, r, op, o);
      }
    }
  }

  /** How a pass that is not a deletion ends: an error when its update fails, five seconds after a conflict, ten after replacing the Job, two minutes when not Ready, else never. */
  lemma Orc8rComesBack(w: Cluster, op: Orc8rOperator, o: Orc8rOracle)
    requires Guarded(w) && !w.cr.value.deleting && GetResource !in o.failing
    ensures var out, live, result := Orc8rFlow(w.objects, w.cr.value, op, o), LiveOrc8r(w.cr, o), Orc8rPass(w, op, o).result;
      if UpdateStatus in o.failing || live.None? then result == Result(true, None)
      else if out.write.reason.BootstrapJobRecreated? then result == Result(false, Some(10))
      else if live.value.resourceVersion != w.cr.value.resourceVersion then result == Result(false, Some(5))
      else result == Result(false, if out.write.ready then None else Some(120))
  {
    hide Orc8rFlow, Orc8rDeletion, WrittenStatus;
  }

  /** This pass found the resource as it had read it, and persisted this reason, which was true. */
  ghost predicate WroteReason(op: Orc8rOperator, w: Cluster, o: Orc8rOracle, w': Cluster) {
    && Guarded(w) && LiveOrc8r(w.cr, o) == w.cr && w'.cr.Some? && w'.cr.value.status.reason.Some?
    && w'.cr == Some(w.cr.value.(status := w'.cr.value.status, resourceVersion := w.cr.value.resourceVersion + 1))
    && w'.cr.value.status.observedGeneration == w.cr.value.generation
    && var reason := w'.cr.value.status.reason.value;
       if w.cr.value.deleting then reason.DeleteFailed? && o.deleteStop.Stop? && o.deleteStop.at < |Orc8rObjects(w.cr.value, map[], op)|
       else if w'.cr.value.status.ready then reason.ResourcesReady?
       else Orc8rCause(reason, w.objects, w'.objects, w.cr.value, op, o)
  }

  lemma DeletionReason(w: Cluster, op: Orc8rOperator, o: Orc8rOracle)
    requires Guarded(w) && w.cr.value.deleting
    ensures var w' := Orc8rDeletion(w, w.cr.value, LiveOrc8r(w.cr, o), op, o).cluster;
      w'.cr.Some? ==> w'.cr.value.status == w.cr.value.status || WroteReason(op, w, o, w')
  {
    hide Orc8rObjects, Delete, Handled, Orc8rCause;
  }

  lemma PassReason(w: Cluster, op: Orc8rOperator, o: Orc8rOracle)
    ensures var w' := Orc8rPass(w, op, o).cluster;
      w'.cr.Some? ==> w.cr.Some? && (w'.cr.value.status == w.cr.value.status || WroteReason(op, w, o, w'))
  {
    hide Orc8rFlow, Orc8rDeletion, Orc8rCause, CommitOrc8r, SoonAfter;
    if Guarded(w) && GetResource !in o.failing {
      if w.cr.value.deleting {
        DeletionReason(w, op, o);
      } else {
        var out := Orc8rFlow(w.objects, w.cr.value, op, o);
        CommitWrites(w.cr, LiveOrc8r(w.cr, o), out.write, o.failing);
        Orc8rFlowReason(w.objects, w.cr.value, op, o);
      }
    }
  }

  /** In every state of every run, the reason of a persisted status was true of the cluster that the pass that wrote it saw and left. */
  lemma {:induction false} Orc8rReasonSoundness(op: Orc8rOperator, ws: seq<Cluster>, es: seq<Orc8rEvent>, n: nat) returns (k: nat)
    requires History(op, ws, es) && n < |ws| && ws[n].cr.Some? && ws[0].cr.Some? && ws[n].cr.value.status != ws[0].cr.value.status
    ensures k < n && es[k].Orc8rPassEvent? && WroteReason(op, ws[k], es[k].o, ws[k + 1])
    ensures forall m :: k < m <= n ==> ws[m].cr.Some? && ws[m].cr.value.status == ws[n].cr.value.status
    decreases n
  {
    hide Orc8rPass, WroteReason;
    var last := n - 1;
    assert Moves(op, ws[last], es[last], ws[n]);
    if es[last].Orc8rPassEvent? {
      PassReason(ws[last], op, es[last].o);
    }
    if ws[last].cr.value.status != ws[n].cr.value.status {
      k := last;
    } else {
      k := Orc8rReasonSoundness(op, ws, es, last);
    }
  }
}
