/** What a pass may do to the hash-keyed Jobs, and where a credited Job came from. */
module AgwJobs {
  import opened Objects
  import opened NativeRelease
  import opened AgwModel
  import opened AgwIdentity
  import opened AgwTrust
  import opened AgwRegistration
  import opened AgwValues
  import opened AgwValidation
  import opened AgwPass
  import opened AgwTrail
  import opened AgwFootprint
  import HashedJob

  /** No two Job names of the protocols coincide, whatever the release is called, now or later. */
  lemma JobNamesDiffer(a: Agw, b: Agw)
    requires a.name == b.name
    ensures RootCAJobKey(a) != RegistrationJobKey(b) && RootCAJobKey(a) != ValidationJobKey(b) && RootCAJobKey(a) != DeregistrationJobKey(b)
    ensures RegistrationJobKey(a) != ValidationJobKey(b) && RegistrationJobKey(a) != DeregistrationJobKey(b)
    ensures ValidationJobKey(a) != DeregistrationJobKey(b)
  {
    hide ReleaseName;
    Ending(ReleaseName(a), "-rootca-sync", 'c');
    Ending(ReleaseName(a), "-ueransim-validation", 'n');
    Ending(ReleaseName(b), "-ueransim-validation", 'n');
    Ending(a.name, "-register-gateway", 'y');
    Ending(a.name, "-delete-gateway", 'y');
    assert |"-register-gateway"| != |"-delete-gateway"|;
  }

  lemma Ending(a: string, b: string, c: char)
    requires b != "" && b[|b| - 1] == c
    ensures (a + b)[|a + b| - 1] == c
  {
  }

  // ----- One pass -----

  /** The root CA that a pass reads. */
  ghost function RootCARead(w: World, op: Operator, o: Oracle): string
    requires w.cr.Some?
  {
    RootCA(ReconcileIdentity(w.objects, w.cr.value, op.crypto, o).store, w.cr.value.spec)
  }

  /** The registration payload of a pass, if it gets that far. */
  ghost function PayloadOf(w: World, op: Operator, o: Oracle): Option<string>
    requires w.cr.Some?
  {
    var id := ReconcileIdentity(w.objects, w.cr.value, op.crypto, o).identity;
    if id.None? then None else op.crypto.json(GatewayPayload(w.cr.value, id.value))
  }

  /** Both simulator Deployments carry the rollout hash, are observed and ready, and a UE pod is running. */
  predicate ReadyToValidate(store: Store, agw: Agw, hash: string) {
    && (forall k :: k in {GnbKey(agw), UeKey(agw)} ==> Listed(store, agw, k) && RolledOut(store[k], hash) && DeploymentReady(store[k]))
    && HasUePod(store, agw)
  }

  ghost predicate RootCAJobStep(a: Store, b: Store, agw: Agw, hash: string) {
    || Same(a, b, RootCAJobKey(agw))
    || exists body :: HashedJob.Moves(a, b, RootCAJobKey(agw), ROOT_CA_HASH, hash, body)
  }

  ghost predicate RegistrationJobStep(a: Store, b: Store, agw: Agw, payload: Option<string>, crypto: Crypto) {
    || Same(a, b, RegistrationJobKey(agw))
    || (payload.Some? && HashedJob.Moves(a, b, RegistrationJobKey(agw), PAYLOAD_HASH, crypto.sha(payload.value), payload.value))
  }

  ghost predicate ValidationJobStep(a: Store, b: Store, agw: Agw, crypto: Crypto) {
    var hash, key := ValidationHashOf(agw, crypto), ValidationJobKey(agw);
    || Same(a, b, key)
    || (&& HashedJob.Moves(a, b, key, VALIDATION_HASH, hash, "validate")
        && (key !in a ==> ReadyToValidate(b, agw, hash)))
  }

  lemma ValidationStepIs(store: Store, agw: Agw, crypto: Crypto, o: Oracle)
    ensures ValidationJobStep(store, ReconcileValidation(store, agw, crypto, o).store, agw, crypto)
  {
    hide ValidationHashOf, ReleaseName, StartValidation, ReadyToValidate, ReconcileRbac;
    var rbac := ReconcileRbac(store, agw.namespace, o.failing).store;
    RbacTouches(store, agw.namespace, o.failing, ValidationJobKey(agw));
    StartIs(rbac, agw, ValidationHashOf(agw, crypto), o);
  }

  lemma StartIs(store: Store, agw: Agw, hash: string, o: Oracle)
    ensures var b := StartValidation(store, agw, hash, o).store;
      ValidationJobKey(agw) !in store && ValidationJobKey(agw) in b ==>
        b[ValidationJobKey(agw)] == HashedJob.NewJob(VALIDATION_HASH, hash, "validate") && ReadyToValidate(b, agw, hash)
  {
    hide ReleaseName, DeploymentReady, RolledOut, RunningUePod, Carries;
    var b := StartValidation(store, agw, hash, o).store;
    if ValidationJobKey(agw) !in store && ValidationJobKey(agw) in b {
      assert forall k :: k in {GnbKey(agw), UeKey(agw)} ==> k !in Unrolled(store, agw, hash);
      assert b == store[ValidationJobKey(agw) := HashedJob.NewJob(VALIDATION_HASH, hash, "validate")];
      PodStays(store, b, agw);
      forall k | k in {GnbKey(agw), UeKey(agw)}
        ensures Listed(b, agw, k) && RolledOut(b[k], hash) && DeploymentReady(b[k])
      {
        assert b[k] == store[k];
        NotUnrolled(store, agw, hash, k);
      }
    }
  }

  lemma NotUnrolled(store: Store, agw: Agw, hash: string, k: ObjectKey)
    requires k in {GnbKey(agw), UeKey(agw)} && Listed(store, agw, k) && k !in Unrolled(store, agw, hash)
    ensures RolledOut(store[k], hash)
  {
    hide ReleaseName;
  }

  lemma PodStays(a: Store, b: Store, agw: Agw)
    requires HasUePod(a, agw) && forall k :: k in a && k.kind.Pod? ==> k in b && b[k] == a[k]
    ensures HasUePod(b, agw)
  {
    hide ReleaseName;
    var k :| k in a && RunningUePod(a, agw, k);
    assert k in b && RunningUePod(b, agw, k);
  }

  // ----- What one flow does to Jobs outside the manifest -----

  lemma FlowRootCAJob(objects: Store, agw: Agw, op: Operator, o: Oracle, t: Trail)
    requires Trails(objects, agw, op, o, t) && Spared(objects, agw, op, o, RootCAJobKey(agw))
    ensures RootCAJobStep(objects, t.last, agw, op.crypto.sha(RootCA(t.identified, agw.spec)))
  {
    hide ReconcileIdentity, ReconcileTrustBundle, ReconcileRegistration, ReconcileValidation, AgwObjects, FinalValues, PassValues, ApplyUpTo, OutsideManifest, AppliedByPass, HashedJob.Moves;
    hide ReleaseName, CertSecretName, Orc8rNamespace, GatewayPayload, ReadyToValidate, ValidationHashOf, RootCA;
    var id, k := ReconcileIdentity(objects, agw, op.crypto, o).identity, RootCAJobKey(agw);
    JobNamesDiffer(agw, agw);
    IdentityTouches(objects, agw, op.crypto, o, k);
    TrustLinkMoves(t.identified, t.trusted, agw, id, t.alias, op.crypto, o);
    RegistrationLinkTouches(t.trusted, t.registered, agw, id, op.crypto, o, k);
    ApplyAdds(objects, agw, op, o, t, k);
    LinkKeepsOthers(t.rolled, t.last, agw, op.crypto, o, k);
    RootCAStepBetween(objects, t.identified, t.trusted, t.last, agw, op.crypto.sha(RootCA(t.identified, agw.spec)));
  }

  lemma FlowRegistrationJob(objects: Store, nodes: seq<Node>, agw: Agw, op: Operator, o: Oracle, t: Trail)
    requires Trails(objects, agw, op, o, t) && Spared(objects, agw, op, o, RegistrationJobKey(agw))
    ensures RegistrationJobStep(objects, t.last, agw, PayloadOf(World(Some(agw), objects, nodes), op, o), op.crypto)
  {
    hide ReconcileIdentity, ReconcileTrustBundle, ReconcileRegistration, ReconcileValidation, AgwObjects, FinalValues, PassValues, ApplyUpTo, OutsideManifest, AppliedByPass, HashedJob.Moves;
    hide ReleaseName, CertSecretName, Orc8rNamespace, GatewayPayload, ReadyToValidate, ValidationHashOf, RootCA;
    var id, k := ReconcileIdentity(objects, agw, op.crypto, o).identity, RegistrationJobKey(agw);
    JobNamesDiffer(agw, agw);
    IdentityTouches(objects, agw, op.crypto, o, k);
    TrustLinkTouches(t.identified, t.trusted, agw, id, t.alias, op.crypto, o, k);
    RegistrationLinkMoves(t.trusted, t.registered, agw, id, op.crypto, o);
    ApplyAdds(objects, agw, op, o, t, k);
    LinkKeepsOthers(t.rolled, t.last, agw, op.crypto, o, k);
    RegistrationStepBetween(objects, t.trusted, t.registered, t.last, agw, PayloadOf(World(Some(agw), objects, nodes), op, o), op.crypto);
  }

  /** Up to the validation step, a flow leaves the validation Job alone. */
  lemma ValidationJobUntouched(objects: Store, agw: Agw, op: Operator, o: Oracle, t: Trail)
    requires Trails(objects, agw, op, o, t) && Spared(objects, agw, op, o, ValidationJobKey(agw))
    ensures Same(objects, t.rolled, ValidationJobKey(agw))
  {
    hide ReconcileIdentity, ReconcileTrustBundle, ReconcileRegistration, ReconcileValidation, AgwObjects, FinalValues, PassValues, ApplyUpTo, OutsideManifest, AppliedByPass;
    hide ReleaseName, CertSecretName, Orc8rNamespace;
    var id, k := ReconcileIdentity(objects, agw, op.crypto, o).identity, ValidationJobKey(agw);
    JobNamesDiffer(agw, agw);
    IdentityTouches(objects, agw, op.crypto, o, k);
    TrustLinkTouches(t.identified, t.trusted, agw, id, t.alias, op.crypto, o, k);
    RegistrationLinkTouches(t.trusted, t.registered, agw, id, op.crypto, o, k);
    ApplyAdds(objects, agw, op, o, t, k);
  }

  lemma FlowValidationJob(objects: Store, agw: Agw, op: Operator, o: Oracle, t: Trail)
    requires Trails(objects, agw, op, o, t) && Spared(objects, agw, op, o, ValidationJobKey(agw))
    ensures ValidationJobStep(objects, t.last, agw, op.crypto)
  {
    hide ReconcileIdentity, ReconcileTrustBundle, ReconcileRegistration, ReconcileValidation, AgwObjects, FinalValues, PassValues, ApplyUpTo, OutsideManifest, AppliedByPass, HashedJob.Moves;
    hide ReleaseName, CertSecretName, Orc8rNamespace, GatewayPayload, ReadyToValidate, ValidationHashOf, RootCA;
    ValidationJobUntouched(objects, agw, op, o, t);
    if t.rolled != t.last {
      ValidationStepIs(t.rolled, agw, op.crypto, o);
    }
    ValidationStepFrom(objects, t.rolled, t.last, agw, op.crypto);
  }

  lemma LinkKeepsOthers(a: Store, b: Store, agw: Agw, crypto: Crypto, o: Oracle, k: ObjectKey)
    requires ValidationLink(a, b, agw, crypto, o) && k.kind.Job? && k != ValidationJobKey(agw)
    ensures Same(a, b, k)
  {
    hide ReconcileValidation, ReleaseName;
    ValidationTouches(a, agw, crypto, o);
  }

  lemma TrustLinkMoves(a: Store, b: Store, agw: Agw, id: Option<Identity>, alias: Alias, crypto: Crypto, o: Oracle)
    requires TrustLink(a, b, agw, id, alias, crypto, o)
    ensures RootCAJobStep(a, b, agw, crypto.sha(RootCA(a, agw.spec)))
  {
    hide ReconcileTrustBundle, PassValues, RootCA, ReleaseName, CertSecretName, HashedJob.Moves;
    if a != b {
      TrustTouches(a, agw, WithAlias(PassValues(agw, id.value), alias), crypto, o.failing);
    }
  }

  lemma RegistrationLinkMoves(a: Store, b: Store, agw: Agw, id: Option<Identity>, crypto: Crypto, o: Oracle)
    requires RegistrationLink(a, b, agw, id, crypto, o)
    ensures RegistrationJobStep(a, b, agw, if id.None? then None else crypto.json(GatewayPayload(agw, id.value)), crypto)
  {
    hide ReconcileRegistration, GatewayPayload, HashedJob.Moves;
    if a != b {
      RegistrationTouches(a, agw, id.value, crypto, o.failing);
    }
  }

  // ----- A step keeps its meaning when the rest of the pass leaves the Job alone -----

  lemma MovesBetween(a: Store, a': Store, b': Store, b: Store, key: ObjectKey, annotation: string, hash: string, body: string)
    requires Same(a, a', key) && HashedJob.Moves(a', b', key, annotation, hash, body) && Same(b', b, key)
    ensures HashedJob.Moves(a, b, key, annotation, hash, body)
  {
  }

  lemma RootCAStepBetween(a: Store, a': Store, b': Store, b: Store, agw: Agw, hash: string)
    requires Same(a, a', RootCAJobKey(agw)) && RootCAJobStep(a', b', agw, hash) && Same(b', b, RootCAJobKey(agw))
    ensures RootCAJobStep(a, b, agw, hash)
  {
    hide HashedJob.Moves, ReleaseName;
    if !Same(a', b', RootCAJobKey(agw)) {
      var body :| HashedJob.Moves(a', b', RootCAJobKey(agw), ROOT_CA_HASH, hash, body);
      MovesBetween(a, a', b', b, RootCAJobKey(agw), ROOT_CA_HASH, hash, body);
    }
  }

  lemma RegistrationStepBetween(a: Store, a': Store, b': Store, b: Store, agw: Agw, payload: Option<string>, crypto: Crypto)
    requires Same(a, a', RegistrationJobKey(agw)) && RegistrationJobStep(a', b', agw, payload, crypto) && Same(b', b, RegistrationJobKey(agw))
    ensures RegistrationJobStep(a, b, agw, payload, crypto)
  {
    hide HashedJob.Moves;
    if !Same(a', b', RegistrationJobKey(agw)) {
      MovesBetween(a, a', b', b, RegistrationJobKey(agw), PAYLOAD_HASH, crypto.sha(payload.value), payload.value);
    }
  }

  lemma ValidationStepFrom(a: Store, a': Store, b: Store, agw: Agw, crypto: Crypto)
    requires Same(a, a', ValidationJobKey(agw)) && ValidationJobStep(a', b, agw, crypto)
    ensures ValidationJobStep(a, b, agw, crypto)
  {
    hide HashedJob.Moves, ReleaseName, ReadyToValidate, ValidationHashOf;
    if !Same(a', b, ValidationJobKey(agw)) {
      MovesBetween(a, a', b, b, ValidationJobKey(agw), VALIDATION_HASH, ValidationHashOf(agw, crypto), "validate");
    }
  }
}
