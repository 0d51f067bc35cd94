/** A Job is credited only for what it was created for: the same payload, root CA or validation request. */
module AgwCredit {
  import opened GoMaps
  import opened Objects
  import opened NativeRelease
  import opened AgwModel
  import opened AgwIdentity
  import opened AgwDatapath
  import opened AgwTrust
  import opened AgwRegistration
  import opened AgwValidation
  import opened AgwPass
  import opened AgwRuns
  import opened AgwReady
  import opened AgwTrail
  import opened AgwFootprint
  import opened AgwHistory
  import opened AgwFinalizer
  import opened AgwJobs
  import HashedJob
  import ValidationKey

  // ----- The environment of a Job -----

  /** Others may run the Job and may remove it; they do not create it, re-annotate it or change its content. */
  predicate JobKept(a: Store, b: Store, k: ObjectKey) {
    k in b ==> k in a && b[k].annotations == a[k].annotations && b[k].body == a[k].body
  }

  /** The Job belongs to the operator during the whole run, and no pass lists it among the manifest objects. */
  ghost predicate OwnJob(op: Operator, ws: seq<World>, es: seq<Event>, k: ObjectKey) {
    && k.kind.Job? && |ws| == |es| + 1
    && (forall i :: 0 <= i < |es| && es[i].EnvEvent? ==> JobKept(ws[i].objects, ws[i + 1].objects, k))
    && (forall i :: 0 <= i < |es| && es[i].PassEvent? && ws[i].cr.Some? ==> Spared(ws[i].objects, ws[i].cr.value, op, es[i].o, k))
    && k !in ws[0].objects
  }

  // ----- One pass -----

  lemma DeletionKeeps(w: World, op: Operator, o: Oracle, k: ObjectKey)
    requires HasFinalizer(w) && k in w.objects
    ensures var objects := DeletionPass(w, w.cr.value, Live(w.cr, o), op, o).world.objects;
      k in objects ==> objects[k] == w.objects[k]
  {
    hide AgwObjects, DeletionRetry, DeletionCleanup, ReconcileDeregistration, Delete;
    var agw, live := w.cr.value, Live(w.cr, o);
    var dereg := ReconcileDeregistration(w.objects, agw, o.failing);
    DeregistrationKeeps(w.objects, agw, o.failing);
    var doomed := AgwObjects(agw, map[], op);
    var left := Delete(dereg.store, doomed[..Handled(o.deleteStop, |doomed|)]);
    DeletePost(dereg.store, doomed[..Handled(o.deleteStop, |doomed|)], k);
    CleanupKeeps(left, w.nodes, agw, live, o);
  }

  lemma CleanupKeeps(store: Store, nodes: seq<Node>, agw: Agw, live: Option<Agw>, o: Oracle)
    ensures forall k :: k in DeletionCleanup(store, nodes, agw, live, o).world.objects ==>
      k in store && DeletionCleanup(store, nodes, agw, live, o).world.objects[k] == store[k]
  {
    hide UnlabelUpTo, UnlabelCompletes, ReleaseName, NodeSelector, ReadyLabelKey;
    CleanupSubset(store, agw, o.failing);
    hide CleanupDurable;
  }

  lemma CleanupSubset(store: Store, agw: Agw, failing: set<Call>)
    ensures var c := CleanupDurable(store, agw, failing).store; forall k :: k in c ==> k in store && c[k] == store[k]
  {
    hide ReleaseName;
  }

  lemma FlowKeepsJob(objects: Store, agw: Agw, op: Operator, o: Oracle, t: Trail, k: ObjectKey)
    requires Trails(objects, agw, op, o, t) && k.kind.Job? && Spared(objects, agw, op, o, k)
    ensures k in objects && k in t.last ==> t.last[k] == objects[k]
  {
    hide Trails, Spared, ReleaseName, ValidationHashOf, ReadyToValidate, RootCA, PayloadOf;
    if k == RootCAJobKey(agw) {
      FlowRootCAJob(objects, agw, op, o, t);
    } else if k == RegistrationJobKey(agw) {
      FlowRegistrationJob(objects, [], agw, op, o, t);
    } else if k == ValidationJobKey(agw) {
      FlowValidationJob(objects, agw, op, o, t);
    } else {
      FlowFrame(objects, agw, op, o, t, k);
    }
  }

  /** A pass never edits a Job outside the manifest: it leaves it, deletes it or creates it. */
  lemma PassKeepsJob(w: World, op: Operator, o: Oracle, k: ObjectKey)
    requires k.kind.Job? && (w.cr.Some? ==> Spared(w.objects, w.cr.value, op, o, k))
    ensures k in w.objects && k in Pass(w, op, o).world.objects ==> Pass(w, op, o).world.objects[k] == w.objects[k]
  {
    hide MainFlow, DeletionPass, Trails, Spared;
    if k in w.objects && HasFinalizer(w) {
      if w.cr.value.deleting {
        DeletionKeeps(w, op, o, k);
      } else {
        var t := FlowTrail(Local(w.objects, w.nodes, w.cr.value), op, o);
        FlowKeepsJob(w.objects, w.cr.value, op, o, t, k);
      }
    }
  }

  // ----- Where a Job came from -----

  /** Pass i created the Job that is still there, unchanged in annotations and content, in state n. */
  ghost predicate Origin(ws: seq<World>, es: seq<Event>, k: ObjectKey, i: nat, n: nat)
    requires |ws| == |es| + 1 && n < |ws|
  {
    && i < n && es[i].PassEvent?
    && k !in ws[i].objects && k in ws[i + 1].objects
    && (forall m :: i < m <= n ==> k in ws[m].objects && SameJob(ws[m].objects[k], ws[i + 1].objects[k]))
  }

  predicate SameJob(a: Object, b: Object) {
    a.annotations == b.annotations && a.body == b.body
  }

  lemma {:induction false} JobOrigin(op: Operator, ws: seq<World>, es: seq<Event>, k: ObjectKey, n: nat) returns (i: nat)
    requires Run(op, ws, es) && OwnJob(op, ws, es, k) && n < |ws| && k in ws[n].objects
    ensures Origin(ws, es, k, i, n)
    decreases n
  {
    hide Pass, Spared;
    var last := n - 1;
    assert Steps(op, ws[last], es[last], ws[n]);
    if k !in ws[last].objects {
      i := last;
    } else {
      i := JobOrigin(op, ws, es, k, last);
      if es[last].PassEvent? {
        PassKeepsJob(ws[last], op, es[last].o, k);
      }
      assert SameJob(ws[n].objects[k], ws[last].objects[k]);
    }
  }

  /** The resource keeps its name and namespace. */
  lemma {:induction false} NameKept(op: Operator, ws: seq<World>, es: seq<Event>, i: nat, j: nat)
    requires Run(op, ws, es) && i <= j < |ws| && ws[j].cr.Some?
    ensures ws[i].cr.Some? && ws[i].cr.value.name == ws[j].cr.value.name && ws[i].cr.value.namespace == ws[j].cr.value.namespace
    decreases j
  {
    hide Pass, Certified, ValidationSettled;
    if i < j {
      assert Steps(op, ws[j - 1], es[j - 1], ws[j]);
      if es[j - 1].PassEvent? {
        var change := PassChange(ws[j - 1], op, es[j - 1].o);
      }
      NameKept(op, ws, es, i, j - 1);
    }
  }

  /** A Job of one of the three protocols can only have been created by the flow of a pass. */
  lemma FlowCreated(w: World, op: Operator, o: Oracle, k: ObjectKey) returns (t: Trail)
    requires w.cr.Some? && k.kind.Job? && Spared(w.objects, w.cr.value, op, o, k)
    requires k !in w.objects && k in Pass(w, op, o).world.objects && k != DeregistrationJobKey(w.cr.value)
    ensures OwnKey(w.cr.value, k)
    ensures Trails(w.objects, w.cr.value, op, o, t) && t.last == Pass(w, op, o).world.objects
  {
    hide MainFlow, DeletionPass, Trails, OwnKey, AgwObjects;
    CreationNeedsFinalizer(w, op, o, k);
    if w.cr.value.deleting {
      DeletionAdds(w, op, o, k);
    }
    t := FlowTrail(Local(w.objects, w.nodes, w.cr.value), op, o);
  }

  lemma RegistrationCreated(w: World, op: Operator, o: Oracle, agw: Agw)
    requires w.cr.Some? && w.cr.value.name == agw.name
    requires Spared(w.objects, w.cr.value, op, o, RegistrationJobKey(agw))
    requires RegistrationJobKey(agw) !in w.objects && RegistrationJobKey(agw) in Pass(w, op, o).world.objects
    ensures PayloadOf(w, op, o).Some?
    ensures var payload := PayloadOf(w, op, o).value;
      Pass(w, op, o).world.objects[RegistrationJobKey(agw)] == HashedJob.NewJob(PAYLOAD_HASH, op.crypto.sha(payload), payload)
  {
    hide Pass, Trails, Spared, ReleaseName, Orc8rNamespace, PayloadOf, HashedJob.NewJob, CertSecretName;
    var k := RegistrationJobKey(agw);
    JobNamesDiffer(agw, w.cr.value);
    JobNamesDiffer(w.cr.value, agw);
    var t := FlowCreated(w, op, o, k);
    assert k == RegistrationJobKey(w.cr.value);
    FlowRegistrationJob(w.objects, w.nodes, w.cr.value, op, o, t);
    assert World(Some(w.cr.value), w.objects, w.nodes) == w;
  }

  lemma RootCAJobCreated(w: World, op: Operator, o: Oracle, agw: Agw)
    requires w.cr.Some? && w.cr.value.name == agw.name
    requires Spared(w.objects, w.cr.value, op, o, RootCAJobKey(agw))
    requires RootCAJobKey(agw) !in w.objects && RootCAJobKey(agw) in Pass(w, op, o).world.objects
    ensures Get(Pass(w, op, o).world.objects[RootCAJobKey(agw)].annotations, ROOT_CA_HASH) == op.crypto.sha(RootCARead(w, op, o))
  {
    hide Pass, Trails, Spared, ReleaseName, Orc8rNamespace, RootCA, CertSecretName;
    var k := RootCAJobKey(agw);
    JobNamesDiffer(agw, w.cr.value);
    JobNamesDiffer(w.cr.value, agw);
    var t := FlowCreated(w, op, o, k);
    assert k == RootCAJobKey(w.cr.value);
    FlowRootCAJob(w.objects, w.cr.value, op, o, t);
    assert t.identified == ReconcileIdentity(w.objects, w.cr.value, op.crypto, o).store by { TrailStart(w.objects, w.cr.value, op, o, t); }
  }

  lemma TrailStart(objects: Store, agw: Agw, op: Operator, o: Oracle, t: Trail)
    requires Trails(objects, agw, op, o, t)
    ensures t.identified == ReconcileIdentity(objects, agw, op.crypto, o).store
  {
  }

  lemma ValidationCreated(w: World, op: Operator, o: Oracle, agw: Agw)
    requires w.cr.Some? && w.cr.value.name == agw.name
    requires Spared(w.objects, w.cr.value, op, o, ValidationJobKey(agw))
    requires ValidationJobKey(agw) !in w.objects && ValidationJobKey(agw) in Pass(w, op, o).world.objects
    ensures ValidationJobKey(agw) == ValidationJobKey(w.cr.value)
    ensures Get(Pass(w, op, o).world.objects[ValidationJobKey(agw)].annotations, VALIDATION_HASH) == ValidationHashOf(w.cr.value, op.crypto)
    ensures ReadyToValidate(Pass(w, op, o).world.objects, w.cr.value, ValidationHashOf(w.cr.value, op.crypto))
  {
    hide Pass, Trails, Spared, ReleaseName, Orc8rNamespace, ReadyToValidate, CertSecretName, ValidationHashOf;
    var k := ValidationJobKey(agw);
    JobNamesDiffer(agw, w.cr.value);
    JobNamesDiffer(w.cr.value, agw);
    var t := FlowCreated(w, op, o, k);
    assert k == ValidationJobKey(w.cr.value);
    FlowValidationJob(w.objects, w.cr.value, op, o, t);
  }

  // ----- Credit -----

  /** The hash tells texts apart. */
  ghost predicate Injective(f: string -> string) {
    forall a: string, b: string :: f(a) == f(b) ==> a == b
  }

  /**
   A registration Job that counts as done for a payload was created, by an earlier pass, for a
   payload with the same hash; with an injective hash it carried exactly that text.
   */
  lemma RegistrationCredit(op: Operator, ws: seq<World>, es: seq<Event>, n: nat, payload: string) returns (i: nat)
    requires Run(op, ws, es) && n < |ws| && ws[n].cr.Some?
    requires OwnJob(op, ws, es, RegistrationJobKey(ws[n].cr.value))
    requires JobDone(ws[n].objects, RegistrationJobKey(ws[n].cr.value), PAYLOAD_HASH, op.crypto.sha(payload))
    ensures Origin(ws, es, RegistrationJobKey(ws[n].cr.value), i, n)
    ensures ws[i].cr.Some? && PayloadOf(ws[i], op, es[i].o) == Some(ws[n].objects[RegistrationJobKey(ws[n].cr.value)].body)
    ensures op.crypto.sha(ws[n].objects[RegistrationJobKey(ws[n].cr.value)].body) == op.crypto.sha(payload)
    ensures Injective(op.crypto.sha) ==> ws[n].objects[RegistrationJobKey(ws[n].cr.value)].body == payload
  {
    hide Pass, PayloadOf, Spared, Orc8rNamespace;
    var agw := ws[n].cr.value;
    var k := RegistrationJobKey(agw);
    i := JobOrigin(op, ws, es, k, n);
    NameKept(op, ws, es, i, n);
    assert Steps(op, ws[i], es[i], ws[i + 1]);
    RegistrationCreated(ws[i], op, es[i].o, agw);
    assert SameJob(ws[n].objects[k], ws[i + 1].objects[k]);
  }

  /** A root CA Job that counts as done was created by a pass that had read the same root CA. */
  lemma RootCACredit(op: Operator, ws: seq<World>, es: seq<Event>, n: nat, rootCA: string) returns (i: nat)
    requires Run(op, ws, es) && n < |ws| && ws[n].cr.Some?
    requires OwnJob(op, ws, es, RootCAJobKey(ws[n].cr.value))
    requires JobDone(ws[n].objects, RootCAJobKey(ws[n].cr.value), ROOT_CA_HASH, op.crypto.sha(rootCA))
    ensures Origin(ws, es, RootCAJobKey(ws[n].cr.value), i, n)
    ensures ws[i].cr.Some? && op.crypto.sha(RootCARead(ws[i], op, es[i].o)) == op.crypto.sha(rootCA)
    ensures Injective(op.crypto.sha) ==> RootCARead(ws[i], op, es[i].o) == rootCA
  {
    hide Pass, RootCARead, Spared, ReleaseName;
    var agw := ws[n].cr.value;
    var k := RootCAJobKey(agw);
    i := JobOrigin(op, ws, es, k, n);
    NameKept(op, ws, es, i, n);
    assert Steps(op, ws[i], es[i], ws[i + 1]);
    RootCAJobCreated(ws[i], op, es[i].o, agw);
    assert SameJob(ws[n].objects[k], ws[i + 1].objects[k]);
  }

  /** A validation Job that counts as done was created for the same request, when everything was ready to validate. */
  lemma ValidationCredit(op: Operator, ws: seq<World>, es: seq<Event>, n: nat) returns (i: nat)
    requires Run(op, ws, es) && n < |ws| && ws[n].cr.Some?
    requires OwnJob(op, ws, es, ValidationJobKey(ws[n].cr.value))
    requires JobDone(ws[n].objects, ValidationJobKey(ws[n].cr.value), VALIDATION_HASH, ValidationHashOf(ws[n].cr.value, op.crypto))
    ensures Origin(ws, es, ValidationJobKey(ws[n].cr.value), i, n) && ws[i].cr.Some?
    ensures ReadyToValidate(ws[i + 1].objects, ws[i].cr.value, ValidationHashOf(ws[n].cr.value, op.crypto))
    ensures Injective(op.crypto.sha) ==>
      ValidationKey.Encode(ValidationFields(ws[i].cr.value)) == ValidationKey.Encode(ValidationFields(ws[n].cr.value))
  {
    hide Pass, ReadyToValidate, Spared, ReleaseName, ValidationFields, ValidationKey.Encode;
    var agw := ws[n].cr.value;
    var k := ValidationJobKey(agw);
    i := JobOrigin(op, ws, es, k, n);
    NameKept(op, ws, es, i, n);
    assert Steps(op, ws[i], es[i], ws[i + 1]);
    ValidationCreated(ws[i], op, es[i].o, agw);
    assert SameJob(ws[n].objects[k], ws[i + 1].objects[k]);
  }

  // ----- What a report stands on -----

  /** Pass k had the payload that a succeeded Job carries, and pass i had created that Job for its own, equal payload. */
  ghost predicate RegisteredFrom(op: Operator, ws: seq<World>, es: seq<Event>, k: nat, i: nat)
    requires |ws| == |es| + 1 && k < |es| && es[k].PassEvent? && ws[k].cr.Some?
  {
    var job := RegistrationJobKey(ws[k].cr.value);
    && Origin(ws, es, job, i, k) && ws[i].cr.Some?
    && ws[k].objects[job].status.succeeded > 0
    && PayloadOf(ws[k], op, es[k].o) == PayloadOf(ws[i], op, es[i].o) == Some(ws[k].objects[job].body)
  }

  /** Pass k had read the root CA that pass i had read when it created the Job that has succeeded. */
  ghost predicate TrustedFrom(op: Operator, ws: seq<World>, es: seq<Event>, k: nat, i: nat)
    requires |ws| == |es| + 1 && k < |es| && es[k].PassEvent? && ws[k].cr.Some?
  {
    var job := RootCAJobKey(ws[k].cr.value);
    && Origin(ws, es, job, i, k) && ws[i].cr.Some?
    && ws[k].objects[job].status.succeeded > 0
    && RootCARead(ws[k], op, es[k].o) == RootCARead(ws[i], op, es[i].o)
  }

  lemma RegistrationStands(op: Operator, ws: seq<World>, es: seq<Event>, k: nat, id: Identity) returns (i: nat)
    requires Run(op, ws, es) && k < |es| && es[k].PassEvent? && ws[k].cr.Some? && Injective(op.crypto.sha)
    requires OwnJob(op, ws, es, RegistrationJobKey(ws[k].cr.value)) && RegistrationEnabled(ws[k].cr.value.spec.registration)
    requires ReconcileIdentity(ws[k].objects, ws[k].cr.value, op.crypto, es[k].o).identity == Some(id)
    requires RegistrationEvidence(ws[k].objects, ws[k].cr.value, id, op.crypto)
    ensures RegisteredFrom(op, ws, es, k, i)
  {
    hide Pass, OwnJob, ReconcileIdentity, GatewayPayload, Injective;
    i := RegistrationCredit(op, ws, es, k, op.crypto.json(GatewayPayload(ws[k].cr.value, id)).value);
  }

  lemma TrustStands(op: Operator, ws: seq<World>, es: seq<Event>, k: nat) returns (i: nat)
    requires Run(op, ws, es) && k < |es| && es[k].PassEvent? && ws[k].cr.Some? && Injective(op.crypto.sha)
    requires OwnJob(op, ws, es, RootCAJobKey(ws[k].cr.value)) && PvcKey(ws[k].cr.value) in ws[k].objects
    requires TrustEvidence(ReconcileIdentity(ws[k].objects, ws[k].cr.value, op.crypto, es[k].o).store, ws[k].cr.value, op.crypto)
    ensures TrustedFrom(op, ws, es, k, i)
  {
    hide Pass, OwnJob, ReconcileIdentity, RootCA, Injective, ReleaseName;
    var agw, o := ws[k].cr.value, es[k].o;
    IdentityTouches(ws[k].objects, agw, op.crypto, o, PvcKey(agw));
    IdentityTouches(ws[k].objects, agw, op.crypto, o, RootCAJobKey(agw));
    i := RootCACredit(op, ws, es, k, RootCARead(ws[k], op, o));
  }

  /**
   Together with Ready soundness: behind every Ready=True of a registered gateway stands a
   succeeded Job that carried exactly the payload of the pass that reported it.
   */
  lemma ReadyMeansRegistered(op: Operator, ws: seq<World>, es: seq<Event>, n: nat) returns (k: nat, i: nat)
    requires Run(op, ws, es) && n < |ws| && !ReportsReady(ws[0]) && ReportsReady(ws[n])
    requires forall m :: 0 <= m < |ws| && ws[m].cr.Some? ==> OwnJob(op, ws, es, RegistrationJobKey(ws[m].cr.value))
    requires Injective(op.crypto.sha)
    ensures WrittenAt(op, ws, es, k, n)
    ensures RegistrationEnabled(ws[k].cr.value.spec.registration) ==> RegisteredFrom(op, ws, es, k, i)
  {
    hide Pass, OwnJob, ReconcileIdentity, TrustEvidence, RegistrationEvidence, DatapathEvidence, SimulatorEvidence, RegisteredFrom, Injective;
    k := ReadySoundness(op, ws, es, n);
    i := 0;
    if RegistrationEnabled(ws[k].cr.value.spec.registration) {
      var id :| Evidence(ws[k], op, es[k].o, ws[k].cr.value, id);
      i := RegistrationStands(op, ws, es, k, id);
    }
  }

  /** Behind every Ready=True of a gateway with a volume stands a succeeded Job of an earlier pass that had read the same root CA. */
  lemma ReadyMeansTrusted(op: Operator, ws: seq<World>, es: seq<Event>, n: nat) returns (k: nat, i: nat)
    requires Run(op, ws, es) && n < |ws| && !ReportsReady(ws[0]) && ReportsReady(ws[n])
    requires forall m :: 0 <= m < |ws| && ws[m].cr.Some? ==> OwnJob(op, ws, es, RootCAJobKey(ws[m].cr.value))
    requires Injective(op.crypto.sha)
    ensures WrittenAt(op, ws, es, k, n)
    ensures PvcKey(ws[k].cr.value) in ws[k].objects ==> TrustedFrom(op, ws, es, k, i)
  {
    hide Pass, OwnJob, ReconcileIdentity, TrustEvidence, RegistrationEvidence, DatapathEvidence, SimulatorEvidence, TrustedFrom, Injective;
    k := ReadySoundness(op, ws, es, n);
    i := 0;
    if PvcKey(ws[k].cr.value) in ws[k].objects {
      var id :| Evidence(ws[k], op, es[k].o, ws[k].cr.value, id);
      i := TrustStands(op, ws, es, k);
    }
  }
}
