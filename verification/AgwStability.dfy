/** What a run leaves alone: the identity once written, and the Jobs that match it. */
module AgwStability {
  import opened GoMaps
  import opened Objects
  import opened NativeRelease
  import opened AgwModel
  import opened AgwIdentity
  import opened AgwDatapath
  import opened AgwTrust
  import opened AgwRegistration
  import opened AgwValues
  import opened AgwValidation
  import opened AgwPass
  import opened AgwRuns
  import opened AgwTrail
  import opened AgwFootprint
  import opened AgwFinalizer
  import opened AgwJobs
  import HashedJob

  // ----- Jobs that match stay -----

  /** Deletion leaves every Job outside the manifest where it is. */
  lemma DeletionKeepsJob(w: World, op: Operator, o: Oracle, k: ObjectKey)
    requires HasFinalizer(w) && k in w.objects && k.kind.Job? && OutsideManifest(op, w.cr.value, k)
    ensures var objects := DeletionPass(w, w.cr.value, Live(w.cr, o), op, o).world.objects;
      k in objects && objects[k] == w.objects[k]
  {
    hide AgwObjects, DeletionRetry, DeletionCleanup, ReconcileDeregistration, Delete;
    var agw, live := w.cr.value, Live(w.cr, o);
    var dereg := ReconcileDeregistration(w.objects, agw, o.failing);
    DeregistrationKeeps(w.objects, agw, o.failing);
    var doomed := AgwObjects(agw, map[], op);
    var part := doomed[..Handled(o.deleteStop, |doomed|)];
    var left := Delete(dereg.store, part);
    if Lists(part, k) {
      PrefixLists(doomed, Handled(o.deleteStop, |doomed|), k);
    }
    DeletePost(dereg.store, part, k);
    CleanupKeepsJobs(left, w.nodes, agw, live, o, k);
  }

  lemma CleanupKeepsJobs(store: Store, nodes: seq<Node>, agw: Agw, live: Option<Agw>, o: Oracle, k: ObjectKey)
    requires k in store && k.kind.Job?
    ensures var objects := DeletionCleanup(store, nodes, agw, live, o).world.objects;
      k in objects && objects[k] == store[k]
  {
    hide UnlabelUpTo, UnlabelCompletes, ReleaseName;
  }

  /** Nobody else removes the Job, re-annotates it or changes its content. */
  predicate Undisturbed(a: Store, b: Store, k: ObjectKey) {
    k in a ==> k in b && b[k].annotations == a[k].annotations && b[k].body == a[k].body
  }

  predicate Annotated(store: Store, k: ObjectKey, annotation: string, hash: string) {
    k in store && Get(store[k].annotations, annotation) == hash
  }

  lemma MatchingValidationStays(w: World, op: Operator, o: Oracle)
    requires w.cr.Some? && Spared(w.objects, w.cr.value, op, o, ValidationJobKey(w.cr.value))
    requires Annotated(w.objects, ValidationJobKey(w.cr.value), VALIDATION_HASH, ValidationHashOf(w.cr.value, op.crypto))
    ensures Annotated(Pass(w, op, o).world.objects, ValidationJobKey(w.cr.value), VALIDATION_HASH, ValidationHashOf(w.cr.value, op.crypto))
  {
    hide MainFlow, DeletionPass, OutsideManifest, AppliedByPass, Trails, ReleaseName, ValidationHashOf, ReadyToValidate;
    var agw := w.cr.value;
    if HasFinalizer(w) {
      if agw.deleting {
        DeletionKeepsJob(w, op, o, ValidationJobKey(agw));
      } else {
        var t := FlowTrail(Local(w.objects, w.nodes, agw), op, o);
        FlowValidationJob(w.objects, agw, op, o, t);
      }
    }
  }

  /**
   Once a pass has created the validation Job for a request, no later pass of the run creates
   one for that request: the Job stays, with its hash, as long as nobody else removes it.
   */
  lemma {:induction false} OneShotValidation(op: Operator, ws: seq<World>, es: seq<Event>, k: ObjectKey, hash: string, i: nat, n: nat)
    requires Run(op, ws, es) && i < n < |ws| && k.kind.Job?
    requires forall m :: i <= m < n && ws[m].cr.Some? ==>
      ValidationJobKey(ws[m].cr.value) == k && ValidationHashOf(ws[m].cr.value, op.crypto) == hash
    requires forall m :: i <= m < n && ws[m].cr.Some? && es[m].PassEvent? ==> Spared(ws[m].objects, ws[m].cr.value, op, es[m].o, k)
    requires forall m :: i <= m < n && es[m].EnvEvent? ==> Undisturbed(ws[m].objects, ws[m + 1].objects, k)
    requires Annotated(ws[i + 1].objects, k, VALIDATION_HASH, hash)
    ensures Annotated(ws[n].objects, k, VALIDATION_HASH, hash)
    decreases n
  {
    hide Pass, OutsideManifest, AppliedByPass, ReleaseName, ValidationHashOf;
    if n > i + 1 {
      var last := n - 1;
      OneShotValidation(op, ws, es, k, hash, i, last);
      assert Steps(op, ws[last], es[last], ws[n]);
      if es[last].PassEvent? {
        if ws[last].cr.Some? {
          MatchingValidationStays(ws[last], op, es[last].o);
        } else {
          InertWithoutFinalizer(ws[last], op, es[last].o);
        }
      }
    }
  }

  // ----- Identity -----

  function ImportKey(agw: Agw): ObjectKey {
    SecretKey(agw.namespace, agw.spec.identity.importSecretName)
  }

  function ImportEntry(agw: Agw): string {
    OrDefault(agw.spec.identity.importSecretKey, KEY)
  }

  /** The entries of the AGW certificate Secret that the root CA synchronisation writes or removes. */
  const CERT_ENTRIES := {ROOT_CA, "gateway.crt", "gateway.key", "controller.crt", "controller.key"}

  /**
   The identity Secret is managed as nothing else.  The import source may be any Secret, the
   certificate Secret and those of the manifest included, as long as the root CA synchronisation
   does not write the imported entry and the simulator filter does not take the Secret away.
   */
  ghost predicate IdentityApart(op: Operator, agw: Agw) {
    && IdentityKey(agw) != CertKey(agw) && OutsideManifest(op, agw, IdentityKey(agw))
    && (agw.spec.identity.importSecretName != "" ==>
          && (ImportKey(agw) == CertKey(agw) ==> ImportEntry(agw) !in CERT_ENTRIES)
          && (OutsideManifest(op, agw, ImportKey(agw)) || Admits(WithoutSimulator, agw.spec.identity.importSecretName)))
  }

  predicate EntryKept(a: Store, b: Store, k: ObjectKey, entry: string) {
    k in a ==> k in b && Get(b[k].data, entry) == Get(a[k].data, entry)
  }

  /** Neither the identity Secret nor the imported entry changes. */
  predicate IdentityUndisturbed(a: Store, b: Store, agw: Agw) {
    && Same(a, b, IdentityKey(agw))
    && (agw.spec.identity.importSecretName != "" ==> EntryKept(a, b, ImportKey(agw), ImportEntry(agw)))
  }

  lemma SettledMoves(a: Store, b: Store, agw: Agw, crypto: Crypto)
    requires Settled(a, agw, crypto) && IdentityUndisturbed(a, b, agw)
    ensures Settled(b, agw, crypto) && b[IdentityKey(agw)] == a[IdentityKey(agw)]
  {
    hide Consistent, IdentitySecretName;
  }

  lemma FlowKeepsSecret(objects: Store, agw: Agw, op: Operator, o: Oracle, t: Trail, k: ObjectKey)
    requires Trails(objects, agw, op, o, t) && Spared(objects, agw, op, o, k) && k.kind.Secret? && k != CertKey(agw)
    ensures Same(t.identified, t.last, k)
  {
    hide ReconcileIdentity, TrustLink, RegistrationLink, ApplyLink, RolloutLink, ValidationLink, AgwObjects, FinalValues, PassValues, OutsideManifest, AppliedByPass, ReleaseName;
    var id := ReconcileIdentity(objects, agw, op.crypto, o).identity;
    TrustLinkTouches(t.identified, t.trusted, agw, id, t.alias, op.crypto, o, k);
    RegistrationLinkTouches(t.trusted, t.registered, agw, id, op.crypto, o, k);
    ApplyAdds(objects, agw, op, o, t, k);
    RestKeepsSecret(t.applied, t.rolled, t.last, agw, op.crypto, o, k);
  }

  lemma RestKeepsSecret(applied: Store, rolled: Store, last: Store, agw: Agw, crypto: Crypto, o: Oracle, k: ObjectKey)
    requires RolloutLink(applied, rolled, agw) && ValidationLink(rolled, last, agw, crypto, o) && k.kind.Secret?
    ensures Same(applied, last, k)
  {
    hide ReconcileValidation, ReleaseName;
    ValidationTouches(rolled, agw, crypto, o);
    assert Same(applied, rolled, k) && Same(rolled, last, k);
  }

  lemma FlowKeepsIdentity(objects: Store, agw: Agw, op: Operator, o: Oracle, t: Trail)
    requires Trails(objects, agw, op, o, t) && IdentityApart(op, agw) && TamePass(objects, agw, op, o)
    ensures IdentityUndisturbed(t.identified, t.last, agw)
  {
    hide Trails, OutsideManifest, TamePass, AppliedByPass, IdentitySecretName, CertSecretName, Admits, EntryKept;
    TameSpares(objects, agw, op, o, IdentityKey(agw));
    FlowKeepsSecret(objects, agw, op, o, t, IdentityKey(agw));
    if agw.spec.identity.importSecretName != "" {
      if OutsideManifest(op, agw, ImportKey(agw)) {
        TameSpares(objects, agw, op, o, ImportKey(agw));
      }
      FlowKeepsEntry(objects, agw, op, o, t, ImportKey(agw), ImportEntry(agw));
    }
  }

  lemma SyncKeepsEntry(store: Store, agw: Agw, values: StringMap, rootCA: string, crypto: Crypto, entry: string)
    requires entry !in CERT_ENTRIES
    ensures EntryKept(store, SyncRootCA(store, agw, values, rootCA, crypto), CertSecretKey(agw, values), entry)
  {
    hide CertSecretName, ReleaseName;
  }

  lemma TrustKeepsEntry(store: Store, agw: Agw, values: StringMap, crypto: Crypto, failing: set<Call>, entry: string)
    requires entry !in CERT_ENTRIES
    ensures EntryKept(store, ReconcileTrustBundle(store, agw, values, crypto, failing).store, CertSecretKey(agw, values), entry)
  {
    hide SyncRootCA, RootCA, CertSecretName, ReleaseName, Orc8rCertKey, HashedJob.Advance;
    var rootCA := RootCA(store, agw.spec);
    SyncKeepsEntry(store, agw, values, rootCA, crypto, entry);
    HashedJob.AdvanceMoves(SyncRootCA(store, agw, values, rootCA, crypto), RootCAJobKey(agw), ROOT_CA_HASH, crypto.sha(rootCA),
                           CertSecretName(ReleaseName(agw), values), JobFaults(failing));
  }

  lemma TrustLinkKeepsEntry(a: Store, b: Store, agw: Agw, id: Option<Identity>, alias: Alias, crypto: Crypto, o: Oracle, k: ObjectKey, entry: string)
    requires TrustLink(a, b, agw, id, alias, crypto, o) && k.kind.Secret? && (k == CertKey(agw) ==> entry !in CERT_ENTRIES)
    ensures EntryKept(a, b, k, entry)
  {
    hide ReconcileTrustBundle, PassValues, CertSecretName, ReleaseName;
    if k != CertKey(agw) {
      TrustLinkTouches(a, b, agw, id, alias, crypto, o, k);
    } else if a != b {
      CertKeyFromSpec(agw, id.value, alias);
      TrustKeepsEntry(a, agw, WithAlias(PassValues(agw, id.value), alias), crypto, o.failing, entry);
    }
  }

  lemma ApplyKeepsData(objects: Store, agw: Agw, op: Operator, o: Oracle, t: Trail, k: ObjectKey)
    requires Trails(objects, agw, op, o, t) && k.kind.Secret? && k in t.registered
    requires Admits(WithoutSimulator, k.name) || !AppliedByPass(objects, agw, op, o, k)
    ensures k in t.applied && t.applied[k].data == t.registered[k].data
  {
    hide AgwObjects, PassFinal, ReconcileIdentity, TrustLink, RegistrationLink, RolloutLink, ValidationLink, ApplyUpTo;
    if t.registered != t.applied {
      var values := PassFinal(objects, agw, op, o, t.simulator.On?);
      UpToSecret(t.registered, AgwObjects(agw, values, op), SimulatorFilter(t.simulator), o.immutable, o.applyStop, k);
    }
  }

  /** After the identity step, no step of a pass touches such an entry of a Secret. */
  lemma FlowKeepsEntry(objects: Store, agw: Agw, op: Operator, o: Oracle, t: Trail, k: ObjectKey, entry: string)
    requires Trails(objects, agw, op, o, t) && k.kind.Secret? && (k == CertKey(agw) ==> entry !in CERT_ENTRIES)
    requires Admits(WithoutSimulator, k.name) || !AppliedByPass(objects, agw, op, o, k)
    ensures EntryKept(t.identified, t.last, k, entry)
  {
    hide ReconcileIdentity, TrustLink, RegistrationLink, ApplyLink, RolloutLink, ValidationLink, AgwObjects, FinalValues, PassValues, AppliedByPass, ReleaseName, Admits;
    if k in t.identified {
      var id := ReconcileIdentity(objects, agw, op.crypto, o).identity;
      TrustLinkKeepsEntry(t.identified, t.trusted, agw, id, t.alias, op.crypto, o, k, entry);
      RegistrationLinkTouches(t.trusted, t.registered, agw, id, op.crypto, o, k);
      ApplyKeepsData(objects, agw, op, o, t, k);
      RestKeepsSecret(t.applied, t.rolled, t.last, agw, op.crypto, o, k);
    }
  }

  /** A pass that has read the resource and whose identity step succeeds leaves a settled identity behind, whatever happens in its later steps. */
  lemma PassSettlesIdentity(w: World, op: Operator, o: Oracle)
    requires HasFinalizer(w) && !w.cr.value.deleting && IdentityApart(op, w.cr.value) && TamePass(w.objects, w.cr.value, op, o)
    requires !Rotates(w.cr.value) && ImportStable(w.cr.value) && KeysAreTexts(op.crypto)
    requires ResourceGet !in o.failing && ReconcileIdentity(w.objects, w.cr.value, op.crypto, o).identity.Some?
    ensures Settled(Pass(w, op, o).world.objects, w.cr.value, op.crypto)
  {
    hide MainFlow, DeletionPass, TamePass, IdentityApart, ReconcileIdentity, Settled, IdentityUndisturbed;
    var agw := w.cr.value;
    var t := FlowTrail(Local(w.objects, w.nodes, agw), op, o);
    FlowKeepsIdentity(w.objects, agw, op, o, t);
    IdentitySettles(w.objects, agw, op.crypto, o);
    SettledMoves(t.identified, t.last, agw, op.crypto);
  }

  lemma PassKeepsIdentity(w: World, op: Operator, o: Oracle)
    requires w.cr.Some? && !w.cr.value.deleting && IdentityApart(op, w.cr.value) && TamePass(w.objects, w.cr.value, op, o)
    requires Settled(w.objects, w.cr.value, op.crypto)
    ensures Settled(Pass(w, op, o).world.objects, w.cr.value, op.crypto)
    ensures Pass(w, op, o).world.objects[IdentityKey(w.cr.value)] == w.objects[IdentityKey(w.cr.value)]
  {
    hide MainFlow, DeletionPass, TamePass, IdentityApart, Trails, Consistent, IdentitySecretName, AsRequested, DesiredPrivateKey;
    if HasFinalizer(w) {
      var t := FlowTrail(Local(w.objects, w.nodes, w.cr.value), op, o);
      FlowKeepsSettled(w.objects, w.cr.value, op, o, t);
    }
  }

  lemma FlowKeepsSettled(objects: Store, agw: Agw, op: Operator, o: Oracle, t: Trail)
    requires Trails(objects, agw, op, o, t) && IdentityApart(op, agw) && TamePass(objects, agw, op, o) && Settled(objects, agw, op.crypto)
    ensures Settled(t.last, agw, op.crypto) && t.last[IdentityKey(agw)] == objects[IdentityKey(agw)]
  {
    hide TamePass, IdentityApart, ReconcileIdentity, IdentityUndisturbed, TrustLink, RegistrationLink, ApplyLink, RolloutLink, ValidationLink;
    hide Consistent, IdentitySecretName, AsRequested, DesiredPrivateKey, AgwObjects;
    FlowKeepsIdentity(objects, agw, op, o, t);
    SettledStays(objects, agw, op.crypto, o);
    SettledMoves(t.identified, t.last, agw, op.crypto);
  }

  /** A stretch of a run with one specification, no deletion, nobody else editing the two Secrets, and tame values. */
  ghost predicate Calm(op: Operator, ws: seq<World>, es: seq<Event>, spec: Agw, i: nat, n: nat) {
    && Run(op, ws, es) && i <= n < |ws| && IdentityApart(op, spec)
    && (forall m :: i <= m <= n ==> SteadyResource(ws[m], spec))
    && (forall m :: i <= m < n && es[m].EnvEvent? ==> IdentityUndisturbed(ws[m].objects, ws[m + 1].objects, spec))
    && (forall m :: i <= m < n && es[m].PassEvent? ==> TamePass(ws[m].objects, ws[m].cr.value, op, es[m].o))
  }

  /** The resource is there, not being deleted, and has this specification. */
  predicate SteadyResource(w: World, agw: Agw) {
    w.cr.Some? && !w.cr.value.deleting && w.cr.value.spec == agw.spec && w.cr.value.name == agw.name && w.cr.value.namespace == agw.namespace
  }

  lemma SteadyMeans(w: World, agw: Agw, op: Operator)
    requires SteadyResource(w, agw)
    ensures IdentityKey(w.cr.value) == IdentityKey(agw)
    ensures IdentityApart(op, w.cr.value) <==> IdentityApart(op, agw)
    ensures Settled(w.objects, w.cr.value, op.crypto) <==> Settled(w.objects, agw, op.crypto)
  {
    var a := w.cr.value;
    assert AgwTarget(a) == AgwTarget(agw) && CertKey(a) == CertKey(agw) && ImportKey(a) == ImportKey(agw);
    assert forall v :: AgwObjects(a, v, op) == AgwObjects(agw, v, op);
    assert DesiredPrivateKey(w.objects, a, op.crypto, false) == DesiredPrivateKey(w.objects, agw, op.crypto, false);
    hide AgwObjects, DesiredPrivateKey, AgwTarget, CertKey;
  }

  /** Once settled, the identity Secret stays exactly as it is, in every later state. */
  lemma {:induction false} IdentityStable(op: Operator, ws: seq<World>, es: seq<Event>, agw: Agw, i: nat, n: nat)
    requires Calm(op, ws, es, agw, i, n) && Settled(ws[i].objects, agw, op.crypto)
    ensures Settled(ws[n].objects, agw, op.crypto)
    ensures ws[n].objects[IdentityKey(agw)] == ws[i].objects[IdentityKey(agw)]
    decreases n
  {
    hide Pass, TamePass, IdentityApart, Consistent, AsRequested, IdentityUndisturbed, IdentitySecretName, DesiredPrivateKey;
    if i < n {
      var last := n - 1;
      IdentityStable(op, ws, es, agw, i, last);
      assert Steps(op, ws[last], es[last], ws[n]);
      if es[last].PassEvent? {
        SteadyMeans(ws[last], agw, op);
        PassKeepsIdentity(ws[last], op, es[last].o);
        SettledSame(ws[n].objects, ws[last].cr.value, agw, op.crypto);
      } else {
        SettledMoves(ws[last].objects, ws[n].objects, agw, op.crypto);
      }
    }
  }

  lemma SettledSame(store: Store, a: Agw, b: Agw, crypto: Crypto)
    requires a.spec == b.spec && a.namespace == b.namespace
    ensures Settled(store, a, crypto) <==> Settled(store, b, crypto)
  {
    assert DesiredPrivateKey(store, a, crypto, false) == DesiredPrivateKey(store, b, crypto, false);
    hide DesiredPrivateKey;
  }

  // ----- No registration churn -----

  /** The payload of every pass that reads the settled identity. */
  ghost function SettledPayload(store: Store, agw: Agw, crypto: Crypto): Option<string>
    requires IdentityKey(agw) in store
  {
    var id := ReadIdentity(store[IdentityKey(agw)], agw, crypto);
    if id.None? then None else crypto.json(GatewayPayload(agw, id.value))
  }

  lemma SettledPayloadOf(w: World, op: Operator, o: Oracle, agw: Agw)
    requires SteadyResource(w, agw) && Settled(w.objects, agw, op.crypto)
    ensures PayloadOf(w, op, o).None? || PayloadOf(w, op, o) == SettledPayload(w.objects, agw, op.crypto)
  {
    hide Consistent, AsRequested, ReconcileIdentity, DesiredPrivateKey, IdentitySecretName;
    SettledSame(w.objects, w.cr.value, agw, op.crypto);
    SettledStays(w.objects, w.cr.value, op.crypto, o);
  }

  /** Under a fixed specification and import source the payload never changes once the identity is settled. */
  lemma PayloadStable(op: Operator, ws: seq<World>, es: seq<Event>, agw: Agw, i: nat, n: nat, o: Oracle)
    requires Calm(op, ws, es, agw, i, n) && Settled(ws[i].objects, agw, op.crypto)
    ensures PayloadOf(ws[n], op, o).None? || PayloadOf(ws[n], op, o) == SettledPayload(ws[i].objects, agw, op.crypto)
  {
    hide Pass, Consistent, AsRequested, ReconcileIdentity, DesiredPrivateKey, IdentitySecretName, IdentityApart, PayloadOf;
    IdentityStable(op, ws, es, agw, i, n);
    SettledPayloadOf(ws[n], op, o, agw);
  }

  lemma MatchingRegistrationStays(w: World, op: Operator, o: Oracle, payload: string)
    requires w.cr.Some? && Spared(w.objects, w.cr.value, op, o, RegistrationJobKey(w.cr.value))
    requires PayloadOf(w, op, o).None? || PayloadOf(w, op, o) == Some(payload)
    requires Annotated(w.objects, RegistrationJobKey(w.cr.value), PAYLOAD_HASH, op.crypto.sha(payload))
    ensures RegistrationJobKey(w.cr.value) in Pass(w, op, o).world.objects
    ensures Pass(w, op, o).world.objects[RegistrationJobKey(w.cr.value)] == w.objects[RegistrationJobKey(w.cr.value)]
  {
    hide MainFlow, DeletionPass, OutsideManifest, AppliedByPass, Trails, RegistrationJobKey, PayloadOf, RegistrationJobStep, Annotated;
    var agw := w.cr.value;
    assert RegistrationJobKey(agw) in w.objects by { AnnotatedThere(w.objects, RegistrationJobKey(agw), PAYLOAD_HASH, op.crypto.sha(payload)); }
    if HasFinalizer(w) {
      if agw.deleting {
        DeletionKeepsRegistration(w, op, o);
      } else {
        var t := FlowTrail(Local(w.objects, w.nodes, agw), op, o);
        FlowRegistrationJob(w.objects, w.nodes, agw, op, o, t);
        assert World(Some(agw), w.objects, w.nodes) == w;
        MatchingStepStays(w.objects, t.last, agw, PayloadOf(w, op, o), payload, op.crypto);
      }
    }
  }

  lemma AnnotatedThere(store: Store, k: ObjectKey, annotation: string, hash: string)
    requires Annotated(store, k, annotation, hash)
    ensures k in store
  {
  }

  lemma DeletionKeepsRegistration(w: World, op: Operator, o: Oracle)
    requires HasFinalizer(w) && RegistrationJobKey(w.cr.value) in w.objects && OutsideManifest(op, w.cr.value, RegistrationJobKey(w.cr.value))
    ensures var objects := DeletionPass(w, w.cr.value, Live(w.cr, o), op, o).world.objects;
      RegistrationJobKey(w.cr.value) in objects && objects[RegistrationJobKey(w.cr.value)] == w.objects[RegistrationJobKey(w.cr.value)]
  {
    hide DeletionPass, OutsideManifest;
    DeletionKeepsJob(w, op, o, RegistrationJobKey(w.cr.value));
  }

  lemma MatchingStepStays(a: Store, b: Store, agw: Agw, p: Option<string>, payload: string, crypto: Crypto)
    requires RegistrationJobStep(a, b, agw, p, crypto) && (p.None? || p == Some(payload))
    requires Annotated(a, RegistrationJobKey(agw), PAYLOAD_HASH, crypto.sha(payload))
    ensures RegistrationJobKey(agw) in b && b[RegistrationJobKey(agw)] == a[RegistrationJobKey(agw)]
  {
    hide RegistrationJobKey;
  }

  /** A registration Job that matches the settled identity is never replaced. */
  lemma {:induction false} NoRegistrationChurn(op: Operator, ws: seq<World>, es: seq<Event>, agw: Agw, i: nat, n: nat)
    requires Calm(op, ws, es, agw, i, n) && Settled(ws[i].objects, agw, op.crypto)
    requires OutsideManifest(op, agw, RegistrationJobKey(agw))
    requires forall m :: i <= m < n && es[m].EnvEvent? ==> Undisturbed(ws[m].objects, ws[m + 1].objects, RegistrationJobKey(agw))
    requires SettledPayload(ws[i].objects, agw, op.crypto).Some?
    requires Annotated(ws[i].objects, RegistrationJobKey(agw), PAYLOAD_HASH, op.crypto.sha(SettledPayload(ws[i].objects, agw, op.crypto).value))
    ensures var job := RegistrationJobKey(agw);
      && job in ws[n].objects
      && ws[n].objects[job].annotations == ws[i].objects[job].annotations
      && ws[n].objects[job].body == ws[i].objects[job].body
    decreases n
  {
    hide Pass, TamePass, IdentityApart, Consistent, AsRequested, DesiredPrivateKey, IdentitySecretName, SettledPayload, OutsideManifest, AppliedByPass, Orc8rNamespace, PayloadOf, IdentityUndisturbed;
    if i < n {
      var last := n - 1;
      NoRegistrationChurn(op, ws, es, agw, i, last);
      assert Steps(op, ws[last], es[last], ws[n]);
      if es[last].PassEvent? {
        PayloadStable(op, ws, es, agw, i, last, es[last].o);
        SameManifest(ws[last], agw, op, RegistrationJobKey(agw));
        TameSpares(ws[last].objects, ws[last].cr.value, op, es[last].o, RegistrationJobKey(agw));
        MatchingRegistrationStays(ws[last], op, es[last].o, SettledPayload(ws[i].objects, agw, op.crypto).value);
      }
    }
  }

  lemma SameManifest(w: World, agw: Agw, op: Operator, k: ObjectKey)
    requires SteadyResource(w, agw)
    ensures OutsideManifest(op, w.cr.value, k) <==> OutsideManifest(op, agw, k)
    ensures RegistrationJobKey(w.cr.value) == RegistrationJobKey(agw)
  {
    assert AgwTarget(w.cr.value) == AgwTarget(agw);
    assert forall v :: AgwObjects(w.cr.value, v, op) == AgwObjects(agw, v, op);
    hide AgwObjects, AgwTarget;
  }
}
