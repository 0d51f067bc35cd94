/** The Orc8r reconciler in the form the operator runs it, each step proved equal to the function that specifies it. */
module Orc8rReconciler {
  import opened GoMaps
  import opened Objects
  import opened Rendering
  import opened NativeRelease
  import opened NativeRunner
  import opened SecretBytes
  import opened AgwModel
  import opened Orc8r
  import ValidationKey

  class Reconciler {
    const api: ApiServer<MagmaOrc8r>
    const op: Orc8rOperator
    var orc8r: MagmaOrc8r     // the pass's own copy of the resource

    constructor (api: ApiServer<MagmaOrc8r>, op: Orc8rOperator, orc8r: MagmaOrc8r)
      ensures this.api == api && this.op == op && this.orc8r == orc8r
    {
      this.api, this.op, this.orc8r := api, op, orc8r;
    }

    ghost function State(): Cluster
      reads api
    {
      Cluster(api.cr, api.objects)
    }

    /** Indexed entries for a list; empty entries are left out. */
    method SetListValues(base: StringMap, prefix: string, entries: seq<string>) returns (values: StringMap)
      ensures values == ListValues(base, prefix, entries)
    {
      values := base;
      for i := 0 to |entries|
        invariant values == ListValues(base, prefix, entries[..i])
      {
        assert entries[..i + 1][..i] == entries[..i];
        if entries[i] != "" {
          values := values[prefix + "[" + ValidationKey.Decimal(i) + "]" := entries[i]];
        }
      }
      assert entries[..|entries|] == entries;
    }

    /** The values of a pass, entry by entry; the user's own values win. */
    method BuildValues() returns (values: StringMap)
      ensures values == Orc8rValues(orc8r.spec)
    {
      var spec := orc8r.spec;
      values := map["orc8r.nms.magmalte.service.type" := "NodePort"];
      values := values["orc8r.nms.nginx.create" := "false"];
      values := SetIf(values, "global.domainName", spec.domainName);
      values := SetIf(values, "orc8r.controller.image.env.orc8r_domain_name", spec.domainName);
      values := SetIf(values, "lte-orc8r.controller.image.env.orc8r_domain_name", spec.domainName);
      values := SetIf(values, "orc8r.nms.controllerHostname", spec.controllerHostname);
      values := SetIf(values, "orc8r.nginx.spec.hostname", spec.controllerHostname);
      values := SetIf(values, "nmsAdmin.organization", spec.nmsOrganization);
      values := SetIf(values, "nmsAdmin.email", spec.nmsAdminEmail);
      values := SetIf(values, "nmsAdmin.password", spec.nmsAdminPassword);
      hide SetIf;
      values := SetListValues(values, "nmsAdmin.customDomains", spec.nmsCustomDomains);
      values := SetIf(values, "provisioning.network.id", spec.networkID);
      values := SetIf(values, "provisioning.network.name", spec.networkName);
      values := SetIf(values, "provisioning.subscriber.imsi", spec.subscriberIMSI);
      if spec.nmsNodePort.Some? {
        values := values["orc8r.nms.magmalte.service.http.nodePort" := ValidationKey.Decimal(spec.nmsNodePort.value)];
      }
      values := values + spec.values;
    }

    /** Generates and stores certificates unless those for the domain are there already. */
    method ReconcileCertSecret(o: Orc8rOracle) returns (ok: bool)
      modifies api`objects
      ensures CertStep(api.objects, ok) == ReconcileCerts(old(api.objects), orc8r, op.sha, o)
    {
      var domainName := orc8r.spec.domainName;
      if domainName == "" {
        domainName := "magma.local";
      }
      var hostname := orc8r.spec.controllerHostname;
      if hostname == "" {
        hostname := "controller." + domainName;
      }
      var domainKey := domainName + "|" + hostname;
      assert domainKey == DomainKey(orc8r.spec);
      hide DomainKey;
      if GetCerts in o.failing {
        return false;
      }
      var secret := ObjectOrBlank(api.objects, CertsKey(orc8r));
      if CertsKey(orc8r) in api.objects && Get(secret.annotations, CERT_DOMAIN) == domainKey && Get(secret.data, ORC8R_ROOT_CA) != "" {
        return true;
      }
      if GenerateCerts in o.failing || WriteCerts in o.failing {
        return false;
      }
      var annotations := secret.annotations[CERT_DOMAIN := domainKey];
      annotations := annotations[CERT_HASH := op.sha(domainKey + Get(o.newCerts, ORC8R_ROOT_CA))];
      secret := secret.(labels := secret.labels[LABEL_MANAGED_BY := MANAGED_BY_OPERATOR], annotations := annotations, data := o.newCerts);
      api.objects := api.objects[CertsKey(orc8r) := secret];
      return true;
    }

    /** Puts the hash on the listed Deployments one by one, as long as patches are served. */
    method PutEach(outdated: set<ObjectKey>, hash: string, o: Orc8rOracle) returns (ok: bool)
      requires outdated <= api.objects.Keys
      modifies api`objects
      ensures api.objects == PutHashes(old(api.objects), Served(outdated, o.annotated), hash)
      ensures ok == (Served(outdated, o.annotated) == outdated)
    {
      hide PutHashes, PutHash, Served, Progress;
      ghost var before := api.objects;
      PutNone(before, hash);
      var todo, done: set<ObjectKey> := outdated, {};
      AllToDo(outdated, o.annotated);
      while exists k :: k in todo && o.annotated(k)
        invariant Progress(outdated, todo, done, o.annotated)
        invariant api.objects == PutHashes(before, done, hash)
        decreases |todo|
      {
        var k :| k in todo && o.annotated(k);
        OneMore(outdated, todo, done, o.annotated, k);
        PutOneMore(before, done, hash, k);
        api.objects := api.objects[k := PutHash(api.objects[k], hash)];
        todo, done := todo - {k}, done + {k};
      }
      NoneLeft(outdated, todo, done, o.annotated);
      return todo == {};
    }

    method AnnotateForSecretHash(o: Orc8rOracle) returns (hash: string, ok: bool)
      modifies api`objects
      ensures RolloutStep(api.objects, hash, ok) == RollOutCerts(old(api.objects), orc8r, op.sha, o)
    {
      hide Outdated, PutHashes, Served, Canonical;
      if GetSecret in o.failing {
        return "", false;
      }
      if CertsKey(orc8r) !in api.objects {
        return "", true;
      }
      var bytes := SecretDataBytes(api.objects[CertsKey(orc8r)].data);
      hash := op.sha(bytes);
      if ListDeployments in o.failing {
        return "", false;
      }
      OutdatedExist(api.objects, orc8r, hash);
      var outdated := Outdated(api.objects, orc8r, hash);
      ok := PutEach(outdated, hash, o);
      if !ok {
        hash := "";
      }
    }

    /** Deletes a failed or outdated bootstrap Job, and marks one that is still to finish. */
    method RecreateBootstrapJob(hash: string, o: Orc8rOracle) returns (outcome: BootstrapOutcome)
      modifies api`objects
      ensures BootstrapStep(api.objects, outcome) == ReconcileBootstrap(old(api.objects), orc8r, hash, o.failing)
    {
      hide OwnRelease;
      if hash == "" {
        return BootstrapOutcome.Unchanged;
      }
      var key := BootstrapKey(orc8r);
      if GetJob in o.failing {
        return BootstrapError;
      }
      if key !in api.objects {
        return BootstrapOutcome.Unchanged;
      }
      var job := api.objects[key];
      if job.status.failed > 0 || (job.status.succeeded > 0 && Get(job.annotations, SECRET_HASH) != hash) {
        if DeleteJob in o.failing {
          return BootstrapError;
        }
        api.DeleteObject(key);
        return Recreated;
      }
      if Get(job.annotations, SECRET_HASH) == hash {
        return BootstrapOutcome.Unchanged;
      }
      if PatchJob in o.failing {
        return BootstrapError;
      }
      api.objects := api.objects[key := job.(annotations := job.annotations[SECRET_HASH := hash])];
      return BootstrapOutcome.Unchanged;
    }

    method PatchForHttpNodePort(o: Orc8rOracle) returns (ok: bool)
      modifies api`objects
      ensures CertStep(api.objects, ok) == PatchMagmalte(old(api.objects), orc8r, op.httpMode, o.failing)
    {
      var key := WebKey(orc8r);
      if GetMagmalte in o.failing || key !in api.objects {
        return false;
      }
      var web := api.objects[key];
      if Get(web.data, "image") == "" {
        return true;
      }
      if UpdateMagmalte in o.failing {
        return false;
      }
      var body := op.httpMode(web.body);
      api.objects := api.objects[key := web.(body := body, generation := if body == web.body then web.generation else web.generation + 1)];
      return true;
    }

    method RolloutSteps(o: Orc8rOracle) returns (write: Orc8rWrite)
      modifies api`objects
      ensures Orc8rOutcome(api.objects, write) == RolloutFlow(old(api.objects), orc8r, op, o)
    {
      hide RollOutCerts, ReconcileBootstrap, PatchMagmalte;
      var hash, ok := AnnotateForSecretHash(o);
      if !ok {
        return Orc8rWrite(false, SecretRolloutFailed);
      }
      var outcome := RecreateBootstrapJob(hash, o);
      if outcome.BootstrapError? {
        return Orc8rWrite(false, BootstrapJobFailed);
      }
      if outcome.Recreated? {
        return Orc8rWrite(false, BootstrapJobRecreated);
      }
      if orc8r.spec.nmsNodePort.Some? {
        var patched := PatchForHttpNodePort(o);
        if !patched {
          return Orc8rWrite(false, MagmaltePatchFailed);
        }
      }
      return Orc8rWrite(true, ResourcesReady);
    }

    method MainSteps(o: Orc8rOracle) returns (write: Orc8rWrite)
      modifies api`objects
      ensures Orc8rOutcome(api.objects, write) == Orc8rFlow(old(api.objects), orc8r, op, o)
    {
      hide RolloutFlow, ReconcileCerts, ReleaseObjects, ApplyUpTo, Handled, Orc8rValues;
      var values := BuildValues();
      var ok := api.ReconcileNativeRelease(op.manifest, Orc8rTarget(orc8r), values, Everything, o.applyStop, o.immutable);
      if !ok {
        return Orc8rWrite(false, NativeFailed);
      }
      ok := ReconcileCertSecret(o);
      if !ok {
        return Orc8rWrite(false, CertSecretFailed);
      }
      write := RolloutSteps(o);
    }

    method UpdateStatus(live: Option<MagmaOrc8r>, write: Orc8rWrite, o: Orc8rOracle) returns (result: Result)
      modifies this`orc8r, api`cr
      ensures Orc8rCommit(api.cr, result) == CommitOrc8r(live, old(orc8r), write, o.failing)
    {
      ghost var before := orc8r;
      var status := orc8r.status;
      status := status.(observedGeneration := orc8r.generation, releaseName := OwnRelease(orc8r), releaseNamespace := orc8r.namespace);
      status := status.(nmsURL := NmsURL(orc8r.spec));
      status := status.(ready := write.ready, reason := Some(write.reason), readyGeneration := orc8r.generation);
      orc8r := orc8r.(status := status);
      assert status == WrittenStatus(before, write);
      api.cr := live;
      if Orc8rCall.UpdateStatus in o.failing || live.None? {
        return ERROR;
      }
      if live.value.resourceVersion != orc8r.resourceVersion {
        return Again(5);
      }
      api.cr := Some(live.value.(status := status, resourceVersion := live.value.resourceVersion + 1));
      return if write.ready then DONE else Again(TWO_MINUTES);
    }

    method ReconcileDeletion(live: Option<MagmaOrc8r>, o: Orc8rOracle) returns (result: Result)
      modifies this`orc8r, api
      ensures Orc8rPassResult(State(), result) == Orc8rDeletion(old(State()), old(orc8r), live, op, o)
    {
      hide CommitOrc8r, ReleaseObjects, Delete, Handled;
      var deleted := api.DeleteNativeRelease(op.manifest, Orc8rTarget(orc8r), o.deleteStop);
      if !deleted {
        result := UpdateStatus(live, Orc8rWrite(false, DeleteFailed), o);
        if !result.error {
          result := Again(30);
        }
        return;
      }
      api.cr := live;
      if PatchFinalizer in o.failing || live.None? {
        return ERROR;
      }
      var rest := orc8r.finalizers - {ORC8R_FINALIZER};
      if rest == {} && live.value.deleting {
        api.cr := None;
      } else {
        api.cr := Some(live.value.(finalizers := rest, resourceVersion := live.value.resourceVersion + 1));
      }
      return DONE;
    }

    /** One reconcile pass. */
    method Reconcile(o: Orc8rOracle) returns (result: Result)
      modifies this`orc8r, api
      ensures Orc8rPassResult(State(), result) == Orc8rPass(old(State()), op, o)
    {
      hide Orc8rFlow, Orc8rDeletion, CommitOrc8r;
      if GetResource in o.failing {
        api.cr := LiveOrc8r(api.cr, o);
        return ERROR;
      }
      if api.cr.None? {
        return DONE;
      }
      orc8r := api.cr.value;
      var live := LiveOrc8r(api.cr, o);
      if orc8r.deleting {
        if ORC8R_FINALIZER !in orc8r.finalizers {
          api.cr := live;
          return DONE;
        }
        result := ReconcileDeletion(live, o);
        return;
      }
      if ORC8R_FINALIZER !in orc8r.finalizers {
        api.cr := live;
        if PatchFinalizer in o.failing || live.None? || live.value.deleting {
          return ERROR;
        }
        api.cr := Some(live.value.(finalizers := orc8r.finalizers + {ORC8R_FINALIZER}, resourceVersion := live.value.resourceVersion + 1));
        return Again(0);
      }
      var write := MainSteps(o);
      result := UpdateStatus(live, write, o);
      if write.reason.BootstrapJobRecreated? && !result.error {
        result := Again(10);
      }
    }
  }

  lemma PutNone(store: Store, hash: string)
    ensures PutHashes(store, {}, hash) == store
  {
  }

  lemma PutOneMore(store: Store, done: set<ObjectKey>, hash: string, k: ObjectKey)
    requires k in store && k !in done
    ensures var now := PutHashes(store, done, hash);
      k in now && now[k := PutHash(now[k], hash)] == PutHashes(store, done + {k}, hash)
  {
    hide PutHash;
  }

  lemma OutdatedExist(store: Store, r: MagmaOrc8r, hash: string)
    ensures Outdated(store, r, hash) <= store.Keys
  {
  }
}
