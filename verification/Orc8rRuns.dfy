/** Certificates over whole runs of the Orc8r reconciler, and what its Ready and its finalizer mean. */
module Orc8rRuns {
  import opened GoMaps
  import opened Objects
  import opened Rendering
  import opened Manifests
  import opened NativeRelease
  import opened SecretBytes
  import opened AgwModel
  import opened Orc8r

  // ----- The native apply leaves certificates and rollout annotations alone -----

  lemma AnnotationsAreNotHelm()
    ensures !(HELM_PREFIX <= CERT_DOMAIN) && !(HELM_PREFIX <= CERT_HASH) && CERT_DOMAIN != CERT_HASH
  {
    assert HELM_PREFIX[0] == 'h' && CERT_DOMAIN[0] == 'm' && CERT_HASH[0] == 'm';
    assert |CERT_DOMAIN| != |CERT_HASH|;
  }

  /** The certificates are the same and made for the same domain. */
  ghost predicate SameCerts(a: Store, b: Store, r: MagmaOrc8r) {
    HasCerts(a, r) ==> HasCerts(b, r) && b[CertsKey(r)].data == a[CertsKey(r)].data
  }

  lemma ApplyKeepsCerts(store: Store, objects: seq<Desired>, immutable: set<ObjectKey>, stop: Stop, r: MagmaOrc8r)
    ensures SameCerts(store, ApplyUpTo(store, objects, Everything, immutable, stop), r)
  {
    hide ApplyUpTo, DomainKey;
    AnnotationsAreNotHelm();
    if HasCerts(store, r) {
      DomainKeyNotEmpty(r.spec);
      UpToSecret(store, objects, Everything, immutable, stop, CertsKey(r));
    }
  }

  lemma DomainKeyNotEmpty(spec: Orc8rSpec)
    ensures DomainKey(spec) != ""
  {
  }

  predicate NoPodAnnotations(objects: seq<Desired>) {
    forall i :: 0 <= i < |objects| ==> objects[i].content.podAnnotations == map[]
  }

  lemma {:induction false} DecodedPods(docs: seq<seq<string>>, namespace: string, decode: seq<string> -> Content)
    ensures NoPodAnnotations(DecodeAll(docs, namespace, decode))
  {
    if docs != [] {
      DecodedPods(docs[1..], namespace, decode);
    }
  }

  lemma {:induction false} ApplyKeepsPods(store: Store, objects: seq<Desired>, immutable: set<ObjectKey>, k: ObjectKey)
    requires k in store && k.kind.Deployment? && NoPodAnnotations(objects)
    ensures k in Apply(store, objects, Everything, immutable)
    ensures Apply(store, objects, Everything, immutable)[k].podAnnotations == store[k].podAnnotations
  {
    if objects != [] {
      var n := |objects| - 1;
      assert forall i :: 0 <= i < n ==> objects[..n][i] == objects[i];
      ApplyKeepsPods(store, objects[..n], immutable, k);
      var before := Apply(store, objects[..n], Everything, immutable);
      assert before[k].podAnnotations + map[] == before[k].podAnnotations;
    }
  }

  // ----- One flow, step by step -----

  ghost function Applied(store: Store, r: MagmaOrc8r, op: Orc8rOperator, o: Orc8rOracle): Store {
    ApplyUpTo(store, Orc8rObjects(r, Orc8rValues(r.spec), op), Everything, o.immutable, o.applyStop)
  }

  lemma AppliedPods(store: Store, r: MagmaOrc8r, op: Orc8rOperator, o: Orc8rOracle, k: ObjectKey)
    requires k in store && k.kind.Deployment?
    ensures k in Applied(store, r, op, o) && Applied(store, r, op, o)[k].podAnnotations == store[k].podAnnotations
  {
    var desired := Orc8rObjects(r, Orc8rValues(r.spec), op);
    assert NoPodAnnotations(desired) by {
      DecodedPods(Documents(Lines(Render(Join(op.manifest.lines), Orc8rTarget(r), Orc8rValues(r.spec)))), Orc8rTarget(r).namespace, op.manifest.decode);
    }
    hide Orc8rObjects, Orc8rValues;
    UpToPods(store, desired, o.immutable, o.applyStop, k);
  }

  lemma UpToPods(store: Store, objects: seq<Desired>, immutable: set<ObjectKey>, stop: Stop, k: ObjectKey)
    requires k in store && k.kind.Deployment? && NoPodAnnotations(objects)
    ensures k in ApplyUpTo(store, objects, Everything, immutable, stop)
    ensures ApplyUpTo(store, objects, Everything, immutable, stop)[k].podAnnotations == store[k].podAnnotations
  {
    hide Apply;
    if Completes(stop, |objects|) {
      ApplyKeepsPods(store, objects, immutable, k);
    } else {
      var part := objects[..stop.at];
      assert forall i :: 0 <= i < stop.at ==> part[i] == objects[i];
      ApplyKeepsPods(store, part, immutable, k);
      var before := Apply(store, part, Everything, immutable);
      assert before[k].podAnnotations + map[] == before[k].podAnnotations;
    }
  }

  predicate Unchanged(a: Store, b: Store, k: ObjectKey) {
    k in a ==> k in b && b[k] == a[k]
  }

  /** Rolling out touches outdated Deployments of the release only. */
  lemma RollOutTouches(store: Store, r: MagmaOrc8r, sha: string -> string, o: Orc8rOracle, k: ObjectKey)
    requires !k.kind.Deployment? || (k in store && CarriesHash(store[k], SecretHash(store, r, sha)))
    ensures Unchanged(store, RollOutCerts(store, r, sha, o).store, k)
  {
    hide SecretHash, OwnRelease;
  }

  lemma BootstrapTouches(store: Store, r: MagmaOrc8r, hash: string, failing: set<Orc8rCall>, k: ObjectKey)
    requires k != BootstrapKey(r)
    ensures Unchanged(store, ReconcileBootstrap(store, r, hash, failing).store, k)
  {
    hide MustRecreate, OwnRelease;
  }

  lemma MagmalteTouches(store: Store, r: MagmaOrc8r, httpMode: string -> string, failing: set<Orc8rCall>, k: ObjectKey)
    ensures k != WebKey(r) ==> Unchanged(store, PatchMagmalte(store, r, httpMode, failing).store, k)
    ensures k in store ==> k in PatchMagmalte(store, r, httpMode, failing).store
    ensures k in store ==> PatchMagmalte(store, r, httpMode, failing).store[k].podAnnotations == store[k].podAnnotations
  {
  }

  /** The rollout steps touch outdated Deployments, the bootstrap Job and the web Deployment only. */
  lemma RolloutTouches(store: Store, r: MagmaOrc8r, op: Orc8rOperator, o: Orc8rOracle, k: ObjectKey)
    requires k in store && k != BootstrapKey(r)
    requires !k.kind.Deployment? || CarriesHash(store[k], SecretHash(store, r, op.sha))
    ensures k != WebKey(r) ==> Unchanged(store, RolloutFlow(store, r, op, o).store, k)
    ensures k in RolloutFlow(store, r, op, o).store && RolloutFlow(store, r, op, o).store[k].podAnnotations == store[k].podAnnotations
  {
    hide RollOutCerts, ReconcileBootstrap, PatchMagmalte, SecretHash, OwnRelease, CarriesHash;
    RollOutTouches(store, r, op.sha, o, k);
    var rolled := RollOutCerts(store, r, op.sha, o);
    BootstrapTouches(rolled.store, r, rolled.hash, o.failing, k);
    MagmalteTouches(ReconcileBootstrap(rolled.store, r, rolled.hash, o.failing).store, r, op.httpMode, o.failing, k);
  }

  /** The certificate step of a pass generates new certificates. */
  ghost predicate Regenerates(w: Cluster, op: Orc8rOperator, o: Orc8rOracle) {
    && w.cr.Some? && !w.cr.value.deleting && ORC8R_FINALIZER in w.cr.value.finalizers
    && Completes(o.applyStop, |Orc8rObjects(w.cr.value, Orc8rValues(w.cr.value.spec), op)|)
    && !HasCerts(Applied(w.objects, w.cr.value, op, o), w.cr.value)
    && GetResource !in o.failing && o.failing * {GetCerts, GenerateCerts, WriteCerts} == {}
  }

  lemma WrittenCerts(store: Store, r: MagmaOrc8r, sha: string -> string, o: Orc8rOracle)
    requires o.failing * {GetResource, GetCerts, GenerateCerts, WriteCerts} == {}
    ensures HasCerts(ReconcileCerts(store, r, sha, o).store, r)
    ensures SameCerts(store, ReconcileCerts(store, r, sha, o).store, r)
  {
    AnnotationsAreNotHelm();
    hide DomainKey;
    assert GetCerts !in o.failing && GenerateCerts !in o.failing && WriteCerts !in o.failing by {
      assert forall c :: c in o.failing * {GetResource, GetCerts, GenerateCerts, WriteCerts} <==> c in o.failing && c in {GetCerts, GenerateCerts, WriteCerts};
    }
  }

  lemma CertsKeptByStep(store: Store, r: MagmaOrc8r, sha: string -> string, o: Orc8rOracle)
    ensures SameCerts(store, ReconcileCerts(store, r, sha, o).store, r)
  {
    hide DomainKey;
  }

  lemma RolloutKeepsCerts(store: Store, r: MagmaOrc8r, op: Orc8rOperator, o: Orc8rOracle)
    ensures SameCerts(store, RolloutFlow(store, r, op, o).store, r)
  {
    hide RolloutFlow, DomainKey, OwnRelease;
    if HasCerts(store, r) {
      RolloutTouches(store, r, op, o, CertsKey(r));
    }
  }

  lemma FlowKeepsCerts(store: Store, r: MagmaOrc8r, op: Orc8rOperator, o: Orc8rOracle)
    ensures SameCerts(store, Orc8rFlow(store, r, op, o).store, r)
  {
    hide RolloutFlow, ReconcileCerts, Orc8rObjects, ApplyUpTo, HasCerts, Orc8rValues, Handled, Completes;
    var desired := Orc8rObjects(r, Orc8rValues(r.spec), op);
    var applied := ApplyUpTo(store, desired, Everything, o.immutable, o.applyStop);
    ApplyKeepsCerts(store, desired, o.immutable, o.applyStop, r);
    CertsKeptByStep(applied, r, op.sha, o);
    RolloutKeepsCerts(ReconcileCerts(applied, r, op.sha, o).store, r, op, o);
  }

  // ----- One pass -----

  /** The resource is there, not being deleted, and asks for this domain and host name; anything else may be edited. */
  predicate SteadyOrc8r(w: Cluster, r: MagmaOrc8r) {
    w.cr.Some? && !w.cr.value.deleting && DomainKey(w.cr.value.spec) == DomainKey(r.spec) && w.cr.value.namespace == r.namespace
  }

  lemma SteadyCerts(a: Store, b: Store, w: Cluster, r: MagmaOrc8r, sha: string -> string)
    requires SteadyOrc8r(w, r)
    ensures CertsKey(w.cr.value) == CertsKey(r) && (HasCerts(a, w.cr.value) <==> HasCerts(a, r))
    ensures SameCerts(a, b, w.cr.value) <==> SameCerts(a, b, r)
    ensures SecretHash(a, w.cr.value, sha) == SecretHash(a, r, sha)
  {
    hide Canonical;
  }

  lemma PassKeepsCerts(w: Cluster, op: Orc8rOperator, o: Orc8rOracle)
    requires w.cr.Some? && !w.cr.value.deleting
    ensures SameCerts(w.objects, Orc8rPass(w, op, o).cluster.objects, w.cr.value)
  {
    hide Orc8rFlow, Orc8rDeletion, HasCerts;
    FlowKeepsCerts(w.objects, w.cr.value, op, o);
  }

  lemma RegenerationLasts(w: Cluster, op: Orc8rOperator, o: Orc8rOracle)
    requires Regenerates(w, op, o)
    ensures HasCerts(Orc8rPass(w, op, o).cluster.objects, w.cr.value)
  {
    hide RolloutFlow, ReconcileCerts, Orc8rObjects, ApplyUpTo, HasCerts, Orc8rValues, Handled, Orc8rDeletion;
    var r := w.cr.value;
    WrittenCerts(Applied(w.objects, r, op, o), r, op.sha, o);
    assert ReconcileCerts(Applied(w.objects, r, op, o), r, op.sha, o).ok by { CertsOk(Applied(w.objects, r, op, o), r, op.sha, o); }
    RolloutKeepsCerts(ReconcileCerts(Applied(w.objects, r, op, o), r, op.sha, o).store, r, op, o);
  }

  lemma CertsOk(store: Store, r: MagmaOrc8r, sha: string -> string, o: Orc8rOracle)
    requires o.failing * {GetResource, GetCerts, GenerateCerts, WriteCerts} == {}
    ensures ReconcileCerts(store, r, sha, o).ok
  {
    hide HasCerts, WithCerts;
    assert forall c :: c in o.failing * {GetResource, GetCerts, GenerateCerts, WriteCerts} <==> c in o.failing && c in {GetCerts, GenerateCerts, WriteCerts};
    assert GetCerts !in o.failing && GenerateCerts !in o.failing && WriteCerts !in o.failing;
  }

  lemma NoRegenerationAgain(w: Cluster, op: Orc8rOperator, o: Orc8rOracle)
    requires w.cr.Some? && HasCerts(w.objects, w.cr.value)
    ensures !Regenerates(w, op, o)
  {
    hide ApplyUpTo, HasCerts, Orc8rObjects, Orc8rValues, Handled;
    var desired := Orc8rObjects(w.cr.value, Orc8rValues(w.cr.value.spec), op);
    ApplyKeepsCerts(w.objects, desired, o.immutable, o.applyStop, w.cr.value);
  }

  // ----- Runs -----

  datatype Orc8rEvent = Orc8rPassEvent(o: Orc8rOracle) | OutsideEvent

  /** One step with this domain and host name; others may do anything except edit the certificates. */
  ghost predicate Orc8rStep(op: Orc8rOperator, r: MagmaOrc8r, w: Cluster, e: Orc8rEvent, w': Cluster) {
    && SteadyOrc8r(w, r)
    && match e
       case Orc8rPassEvent(o) => w' == Orc8rPass(w, op, o).cluster
       case OutsideEvent => SameCerts(w.objects, w'.objects, r)
  }

  ghost predicate Orc8rRun(op: Orc8rOperator, r: MagmaOrc8r, ws: seq<Cluster>, es: seq<Orc8rEvent>) {
    |ws| == |es| + 1 && forall i :: 0 <= i < |es| ==> Orc8rStep(op, r, ws[i], es[i], ws[i + 1])
  }

  /** Once the certificates are there they stay, in every later state. */
  lemma {:induction false} CertsStay(op: Orc8rOperator, r: MagmaOrc8r, ws: seq<Cluster>, es: seq<Orc8rEvent>, i: nat, n: nat)
    requires Orc8rRun(op, r, ws, es) && i <= n < |ws| && HasCerts(ws[i].objects, r)
    ensures HasCerts(ws[n].objects, r) && ws[n].objects[CertsKey(r)].data == ws[i].objects[CertsKey(r)].data
    ensures SecretHash(ws[n].objects, r, op.sha) == SecretHash(ws[i].objects, r, op.sha)
    decreases n
  {
    hide Orc8rPass, DomainKey, Canonical;
    if i < n {
      CertsStay(op, r, ws, es, i, n - 1);
      assert Orc8rStep(op, r, ws[n - 1], es[n - 1], ws[n]);
      if es[n - 1].Orc8rPassEvent? {
        PassKeepsCerts(ws[n - 1], op, es[n - 1].o);
        SteadyCerts(ws[n - 1].objects, ws[n].objects, ws[n - 1], r, op.sha);
      }
    }
  }

  /** Over any run with one domain and host name, certificates are generated at most once. */
  lemma CertsGeneratedOnce(op: Orc8rOperator, r: MagmaOrc8r, ws: seq<Cluster>, es: seq<Orc8rEvent>, i: nat, j: nat)
    requires Orc8rRun(op, r, ws, es) && i < j < |es| && es[i].Orc8rPassEvent? && es[j].Orc8rPassEvent?
    requires Regenerates(ws[i], op, es[i].o)
    ensures !Regenerates(ws[j], op, es[j].o)
    ensures HasCerts(ws[j].objects, r) && SecretHash(ws[j].objects, r, op.sha) == SecretHash(ws[i + 1].objects, r, op.sha)
  {
    hide Orc8rPass, Regenerates, HasCerts, SecretHash;
    assert Orc8rStep(op, r, ws[i], es[i], ws[i + 1]) && Orc8rStep(op, r, ws[j], es[j], ws[j + 1]);
    assert ws[i].cr.Some?;
    RegenerationLasts(ws[i], op, es[i].o);
    SteadyCerts(ws[i + 1].objects, ws[i + 1].objects, ws[i], r, op.sha);
    CertsStay(op, r, ws, es, i + 1, j);
    SteadyCerts(ws[j].objects, ws[j].objects, ws[j], r, op.sha);
    NoRegenerationAgain(ws[j], op, es[j].o);
  }

  // ----- Deployments that carry the hash are not rolled out again -----

  /** A Deployment of the release carries the hash of the certificates. */
  ghost predicate RolledWith(store: Store, r: MagmaOrc8r, sha: string -> string, k: ObjectKey) {
    HasCerts(store, r) && k in store && k.kind.Deployment? && CarriesHash(store[k], SecretHash(store, r, sha))
  }

  /** The steps after the native apply leave such a Deployment as the apply left it, except for the web Deployment's HTTP mode. */
  lemma FlowKeepsRolled(store: Store, r: MagmaOrc8r, op: Orc8rOperator, o: Orc8rOracle, k: ObjectKey)
    requires RolledWith(store, r, op.sha, k)
    ensures RolledWith(Orc8rFlow(store, r, op, o).store, r, op.sha, k)
    ensures k != WebKey(r) ==> Unchanged(Applied(store, r, op, o), Orc8rFlow(store, r, op, o).store, k)
  {
    hide RolloutFlow, Orc8rObjects, ApplyUpTo, Orc8rValues, Handled, Completes, DomainKey, Canonical, OwnRelease, WithCerts;
    var desired := Orc8rObjects(r, Orc8rValues(r.spec), op);
    var applied := Applied(store, r, op, o);
    ApplyKeepsCerts(store, desired, o.immutable, o.applyStop, r);
    AppliedPods(store, r, op, o, k);
    assert RolledWith(applied, r, op.sha, k);
    RolloutTouches(applied, r, op, o, k);
    RolloutKeepsCerts(applied, r, op, o);
  }

  lemma PassKeepsRolled(w: Cluster, op: Orc8rOperator, o: Orc8rOracle, k: ObjectKey)
    requires w.cr.Some? && !w.cr.value.deleting && RolledWith(w.objects, w.cr.value, op.sha, k)
    ensures RolledWith(Orc8rPass(w, op, o).cluster.objects, w.cr.value, op.sha, k)
  {
    hide Orc8rFlow, Orc8rDeletion, RolledWith;
    FlowKeepsRolled(w.objects, w.cr.value, op, o, k);
  }

  /** Nobody else takes the Deployment away or removes its annotation. */
  predicate PodsKept(a: Store, b: Store, k: ObjectKey) {
    k in a ==> k in b && b[k].podAnnotations == a[k].podAnnotations
  }

  /** Once a Deployment carries the hash it carries it in every later state, and no pass patches it for the hash again. */
  lemma {:induction false} NeverRolledAgain(op: Orc8rOperator, r: MagmaOrc8r, ws: seq<Cluster>, es: seq<Orc8rEvent>, k: ObjectKey, i: nat, n: nat)
    requires Orc8rRun(op, r, ws, es) && i <= n < |ws| && RolledWith(ws[i].objects, r, op.sha, k)
    requires forall m :: i <= m < n && es[m].OutsideEvent? ==> PodsKept(ws[m].objects, ws[m + 1].objects, k)
    ensures RolledWith(ws[n].objects, r, op.sha, k)
    ensures SecretHash(ws[n].objects, r, op.sha) == SecretHash(ws[i].objects, r, op.sha)
    decreases n
  {
    hide Orc8rPass, DomainKey, Canonical;
    if i < n {
      NeverRolledAgain(op, r, ws, es, k, i, n - 1);
      CertsStay(op, r, ws, es, i, n);
      var w, w' := ws[n - 1], ws[n];
      assert Orc8rStep(op, r, w, es[n - 1], w');
      if es[n - 1].Orc8rPassEvent? {
        SteadyCerts(w.objects, w'.objects, w, r, op.sha);
        PassKeepsRolled(w, op, es[n - 1].o, k);
        SteadyCerts(w'.objects, w'.objects, w, r, op.sha);
      }
    }
  }

  // ----- What Ready means -----

  /** Certificates for the domain, their hash on every Deployment of the release and on a bootstrap Job that has not failed. */
  ghost predicate RolledOutEverywhere(store: Store, r: MagmaOrc8r, sha: string -> string) {
    var hash := SecretHash(store, r, sha);
    && HasCerts(store, r)
    && (forall k :: ReleaseDeployment(store, r, k) ==> CarriesHash(store[k], hash))
    && (BootstrapKey(r) in store ==> !MustRecreate(store[BootstrapKey(r)], hash) && Get(store[BootstrapKey(r)].annotations, SECRET_HASH) == hash)
  }

  lemma ReadyRollout(store: Store, r: MagmaOrc8r, op: Orc8rOperator, o: Orc8rOracle)
    requires HasCerts(store, r) && RolloutFlow(store, r, op, o).write.ready && forall s :: op.sha(s) != ""
    ensures RolledOutEverywhere(RolloutFlow(store, r, op, o).store, r, op.sha)
  {
    hide DomainKey, Canonical, OwnRelease, PatchMagmalte, ReconcileBootstrap, RollOutCerts;
    var rolled := RollOutCerts(store, r, op.sha, o);
    var hash := SecretHash(store, r, op.sha);
    RollOutReaches(store, r, op.sha, o);
    var boot := ReconcileBootstrap(rolled.store, r, hash, o.failing);
    BootstrapReaches(rolled.store, r, op.sha, hash, o.failing);
    if r.spec.nmsNodePort.Some? {
      MagmalteReaches(boot.store, r, op, o.failing);
    }
  }

  lemma RollOutReaches(store: Store, r: MagmaOrc8r, sha: string -> string, o: Orc8rOracle)
    requires HasCerts(store, r) && RollOutCerts(store, r, sha, o).ok
    ensures var rolled := RollOutCerts(store, r, sha, o);
      && rolled.hash == SecretHash(store, r, sha) == SecretHash(rolled.store, r, sha)
      && HasCerts(rolled.store, r)
      && forall k :: ReleaseDeployment(rolled.store, r, k) ==> CarriesHash(rolled.store[k], rolled.hash)
  {
    hide Canonical, DomainKey, OwnRelease;
    var hash := SecretHash(store, r, sha);
    var after := PutHashes(store, Outdated(store, r, hash), hash);
    forall k | ReleaseDeployment(after, r, k)
      ensures CarriesHash(after[k], hash)
    {
      assert ReleaseDeployment(store, r, k);
      assert k in Outdated(store, r, hash) || CarriesHash(store[k], hash);
    }
  }

  lemma SameSecret(a: Store, b: Store, r: MagmaOrc8r, sha: string -> string)
    requires CertsKey(r) in a && CertsKey(r) in b && a[CertsKey(r)] == b[CertsKey(r)]
    ensures HasCerts(a, r) <==> HasCerts(b, r)
    ensures SecretHash(a, r, sha) == SecretHash(b, r, sha)
  {
    hide Canonical, DomainKey;
  }

  /** Nothing but one object differs, and that one keeps its labels and pod annotations. */
  ghost predicate OnlyAt(a: Store, b: Store, at: ObjectKey) {
    && a.Keys == b.Keys
    && (forall k :: k in a && k != at ==> b[k] == a[k])
    && (at in a ==> b[at].labels == a[at].labels && b[at].podAnnotations == a[at].podAnnotations)
  }

  lemma DeploymentsCarry(a: Store, b: Store, r: MagmaOrc8r, hash: string, at: ObjectKey)
    requires OnlyAt(a, b, at) && forall k :: ReleaseDeployment(a, r, k) ==> CarriesHash(a[k], hash)
    ensures forall k :: ReleaseDeployment(b, r, k) ==> CarriesHash(b[k], hash)
  {
    hide OwnRelease;
    forall k | ReleaseDeployment(b, r, k)
      ensures CarriesHash(b[k], hash)
    {
      assert k in a && b[k].labels == a[k].labels && b[k].podAnnotations == a[k].podAnnotations;
      assert ReleaseDeployment(a, r, k);
    }
  }

  lemma BootstrapReaches(store: Store, r: MagmaOrc8r, sha: string -> string, hash: string, failing: set<Orc8rCall>)
    requires hash != "" && HasCerts(store, r) && hash == SecretHash(store, r, sha)
    requires forall k :: ReleaseDeployment(store, r, k) ==> CarriesHash(store[k], hash)
    requires ReconcileBootstrap(store, r, hash, failing).outcome.Unchanged?
    ensures RolledOutEverywhere(ReconcileBootstrap(store, r, hash, failing).store, r, sha)
  {
    hide OwnRelease, CarriesHash, ReleaseDeployment, SecretHash, DomainKey;
    var after := ReconcileBootstrap(store, r, hash, failing).store;
    assert OnlyAt(store, after, BootstrapKey(r));
    DeploymentsCarry(store, after, r, hash, BootstrapKey(r));
    SameSecret(store, after, r, sha);
  }

  lemma MagmalteReaches(store: Store, r: MagmaOrc8r, op: Orc8rOperator, failing: set<Orc8rCall>)
    requires RolledOutEverywhere(store, r, op.sha)
    ensures RolledOutEverywhere(PatchMagmalte(store, r, op.httpMode, failing).store, r, op.sha)
  {
    hide OwnRelease, CarriesHash, ReleaseDeployment, SecretHash, DomainKey, MustRecreate;
    var after := PatchMagmalte(store, r, op.httpMode, failing).store;
    assert OnlyAt(store, after, WebKey(r));
    DeploymentsCarry(store, after, r, SecretHash(store, r, op.sha), WebKey(r));
    SameSecret(store, after, r, op.sha);
  }

  /** A flow that reports Ready has rolled the certificates out everywhere. */
  lemma Orc8rReadyMeans(store: Store, r: MagmaOrc8r, op: Orc8rOperator, o: Orc8rOracle)
    requires Orc8rFlow(store, r, op, o).write.ready && forall s :: op.sha(s) != ""
    ensures RolledOutEverywhere(Orc8rFlow(store, r, op, o).store, r, op.sha)
  {
    hide RolloutFlow, Orc8rObjects, ApplyUpTo, Orc8rValues, Handled, Completes, RolledOutEverywhere, ReconcileCerts;
    var applied := Applied(store, r, op, o);
    CertsWhenOk(applied, r, op.sha, o);
    ReadyRollout(ReconcileCerts(applied, r, op.sha, o).store, r, op, o);
  }

  lemma CertsWhenOk(store: Store, r: MagmaOrc8r, sha: string -> string, o: Orc8rOracle)
    requires ReconcileCerts(store, r, sha, o).ok
    ensures HasCerts(ReconcileCerts(store, r, sha, o).store, r)
  {
    hide DomainKey;
    AnnotationsAreNotHelm();
  }

  // ----- Finalizer and wake-ups -----

  predicate Guarded(w: Cluster) {
    w.cr.Some? && ORC8R_FINALIZER in w.cr.value.finalizers
  }

  lemma Orc8rInert(w: Cluster, op: Orc8rOperator, o: Orc8rOracle)
    requires !Guarded(w)
    ensures Orc8rPass(w, op, o).cluster.objects == w.objects
  {
    hide Orc8rFlow, Orc8rDeletion;
  }

  /** When the finalizer goes, exactly the objects of the manifest have been deleted. */
  lemma Orc8rRemovalExact(w: Cluster, op: Orc8rOperator, o: Orc8rOracle)
    requires Guarded(w) && !Guarded(Orc8rPass(w, op, o).cluster)
    ensures w.cr.value.deleting
    ensures forall k :: k in Orc8rPass(w, op, o).cluster.objects <==> k in w.objects && !Lists(Orc8rObjects(w.cr.value, map[], op), k)
  {
    hide Orc8rFlow, Orc8rObjects, Delete, SoonAfter, WrittenStatus;
    var r := w.cr.value;
    if !r.deleting {
      var out := Orc8rFlow(w.objects, r, op, o);
      FlowKeepsGuard(w, out, o);
    } else {
      var doomed := Orc8rObjects(r, map[], op);
      assert Completes(o.deleteStop, |doomed|);
      assert doomed[..|doomed|] == doomed;
      forall k
        ensures k in Delete(w.objects, doomed) <==> k in w.objects && !Lists(doomed, k)
      {
        DeletePost(w.objects, doomed, k);
      }
    }
  }

  lemma FlowKeepsGuard(w: Cluster, out: Orc8rOutcome, o: Orc8rOracle)
    requires Guarded(w)
    ensures var c := SoonAfter(CommitOrc8r(LiveOrc8r(w.cr, o), w.cr.value, out.write, o.failing), out.write.reason);
      c.cr.Some? && ORC8R_FINALIZER in c.cr.value.finalizers
  {
    hide WrittenStatus;
  }

  /** A pass asks for nothing more only if the resource is gone or going, or Ready was written for the current generation. */
  lemma Orc8rNoLostWakeUp(w: Cluster, op: Orc8rOperator, o: Orc8rOracle)
    requires Orc8rPass(w, op, o).result == DONE
    ensures var w' := Orc8rPass(w, op, o).cluster;
      || w.cr.None?
      || (w.cr.value.deleting && !Guarded(w'))
      || (&& w'.cr.Some? && w'.cr.value.status.ready
          && w'.cr.value.status.observedGeneration == w'.cr.value.generation == w'.cr.value.status.readyGeneration)
  {
    hide Orc8rFlow, Orc8rObjects, Delete, Handled, Completes;
  }
}
