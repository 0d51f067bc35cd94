/** What each stage of a pass may touch in the store. */
module AgwFootprint {
  import opened GoMaps
  import opened Objects
  import opened NativeRelease
  import opened Agreement
  import opened Placement
  import opened AgwModel
  import opened AgwIdentity
  import opened AgwTrust
  import opened AgwRegistration
  import opened AgwValues
  import opened AgwValidation
  import opened AgwPass
  import opened AgwTrail
  import HashedJob

  // ----- The certificate Secret is named by the specification alone -----

  function CertKey(agw: Agw): ObjectKey {
    CertSecretKey(agw, agw.spec.values)
  }

  const CERTS := "secret.certs"

  lemma CertsNotStored(prefix: string, selector: StringMap)
    requires prefix in {"nodePrep.nodeSelector", "nodeSelector", "simulator.nodeSelector"}
    ensures CERTS !in Stored(prefix, selector)
  {
    forall x | x in StoredKeys(prefix, selector)
      ensures x != CERTS
    {
      var k := KeyBehind(prefix, selector, x);
      assert StoredKey(prefix, k)[0] == prefix[0] && StoredKey(prefix, k)[1] == prefix[1];
      assert CERTS[0] == 's' && CERTS[1] == 'e';
    }
  }

  lemma OtherNamesDiffer()
    ensures CERTS != "namespace" && CERTS != "agwAntiAffinity.enabled" && CERTS != "simulator.enabled"
    ensures CERTS != "simulator.antiAffinity.separateFromAgw" && CERTS != "config.gwChallenge" && CERTS != "gatewayIdentity.snowflake"
    ensures CERTS != "nodePrep.interfaces.s1.parent" && CERTS != "nodePrep.interfaces.nat.parent"
    ensures CERTS != "nodePrep.requireMagmaOvsKmod" && CERTS != "nodePrep.magmaOvsKmodUpgradePath"
    ensures CERTS != "orc8r.hostAliases.enabled" && CERTS != "orc8r.hostAliases.ip"
  {
    assert |CERTS| == 12;
  }

  lemma CertsNotInBase(agw: Agw, id: Identity)
    ensures CERTS !in BaseValues(agw, id)
  {
    OtherNamesDiffer();
  }

  lemma CertsNotInEntries(agw: Agw, id: Identity)
    ensures CERTS !in SelectorEntries(BaseValues(agw, id), agw.spec)
  {
    hide BaseValues, Stored, PrepSelector, WorkloadSelector;
    CertsNotInBase(agw, id);
    OtherNamesDiffer();
    CertsNotStored("nodePrep.nodeSelector", PrepSelector(agw.spec));
    CertsNotStored("nodeSelector", WorkloadSelector(agw.spec));
    CertsNotStored("simulator.nodeSelector", agw.spec.ueransimNodeSelector);
  }

  lemma CertKeyFromSpec(agw: Agw, id: Identity, alias: Alias)
    ensures CertSecretKey(agw, WithAlias(PassValues(agw, id), alias)) == CertKey(agw)
  {
    hide SelectorEntries;
    OtherNamesDiffer();
    CertsNotInEntries(agw, id);
  }

  // ----- Stages -----

  lemma IdentityTouches(store: Store, agw: Agw, crypto: Crypto, o: Oracle, k: ObjectKey)
    requires k != IdentityKey(agw)
    ensures Same(store, ReconcileIdentity(store, agw, crypto, o).store, k)
  {
    hide WithIdentity, DesiredPrivateKey, ChosenHardwareId, ReadIdentity;
  }

  /** The root CA Job belongs to the root CA as it is in the store. */
  ghost predicate TouchesTrust(a: Store, b: Store, agw: Agw, values: StringMap, hash: string) {
    && (forall k :: k != CertSecretKey(agw, values) && k != RootCAJobKey(agw) ==> Same(a, b, k))
    && (|| Same(a, b, RootCAJobKey(agw))
        || HashedJob.Moves(a, b, RootCAJobKey(agw), ROOT_CA_HASH, hash, CertSecretName(ReleaseName(agw), values)))
  }

  lemma TrustTouches(store: Store, agw: Agw, values: StringMap, crypto: Crypto, failing: set<Call>)
    ensures TouchesTrust(store, ReconcileTrustBundle(store, agw, values, crypto, failing).store, agw, values, crypto.sha(RootCA(store, agw.spec)))
  {
    hide WithRootCA, CertSecretName, ReleaseName, RootCA, HashedJob.Advance, TouchesTrust, SyncRootCA;
    var hash := crypto.sha(RootCA(store, agw.spec));
    var synced := SyncRootCA(store, agw, values, RootCA(store, agw.spec), crypto);
    SyncTouches(store, agw, values, RootCA(store, agw.spec), crypto);
    assert TouchesTrust(store, store, agw, values, hash) by { UntouchedTrust(store, agw, values, hash); }
    RootCAJobTouches(store, synced, agw, values, hash, JobFaults(failing));
  }

  lemma UntouchedTrust(store: Store, agw: Agw, values: StringMap, hash: string)
    ensures TouchesTrust(store, store, agw, values, hash)
  {
  }

  lemma SyncTouches(store: Store, agw: Agw, values: StringMap, rootCA: string, crypto: Crypto)
    ensures TouchesTrust(store, SyncRootCA(store, agw, values, rootCA, crypto), agw, values, crypto.sha(rootCA))
    ensures Same(store, SyncRootCA(store, agw, values, rootCA, crypto), RootCAJobKey(agw))
  {
    hide WithRootCA, CertSecretName, ReleaseName;
  }

  lemma RootCAJobTouches(store: Store, synced: Store, agw: Agw, values: StringMap, hash: string, faults: HashedJob.Faults)
    requires TouchesTrust(store, synced, agw, values, hash) && Same(store, synced, RootCAJobKey(agw))
    ensures TouchesTrust(store, HashedJob.Advance(synced, RootCAJobKey(agw), ROOT_CA_HASH, hash, CertSecretName(ReleaseName(agw), values), faults).store,
                         agw, values, hash)
  {
    hide CertSecretName, ReleaseName, HashedJob.Advance, HashedJob.Moves;
    var body := CertSecretName(ReleaseName(agw), values);
    HashedJob.AdvanceMoves(synced, RootCAJobKey(agw), ROOT_CA_HASH, hash, body, faults);
    var after := HashedJob.Advance(synced, RootCAJobKey(agw), ROOT_CA_HASH, hash, body, faults).store;
    MovesFrom(store, synced, after, RootCAJobKey(agw), ROOT_CA_HASH, hash, body);
    forall k | k != CertSecretKey(agw, values) && k != RootCAJobKey(agw)
      ensures Same(store, after, k)
    {
      assert Same(store, synced, k);
    }
  }

  lemma MovesFrom(a: Store, a': Store, b: Store, key: ObjectKey, annotation: string, hash: string, body: string)
    requires Same(a, a', key) && HashedJob.Moves(a', b, key, annotation, hash, body)
    ensures HashedJob.Moves(a, b, key, annotation, hash, body)
  {
  }

  lemma RegistrationTouches(store: Store, agw: Agw, id: Identity, crypto: Crypto, failing: set<Call>)
    ensures var after := ReconcileRegistration(store, agw, id, crypto, failing).store;
      && (forall k :: k != RegistrationJobKey(agw) ==> Same(store, after, k))
      && (after == store ||
          (crypto.json(GatewayPayload(agw, id)).Some? &&
           var payload := crypto.json(GatewayPayload(agw, id)).value;
           HashedJob.Moves(store, after, RegistrationJobKey(agw), PAYLOAD_HASH, crypto.sha(payload), payload)))
  {
    hide GatewayPayload, MagmalteImage, MagmalteKey, Orc8rCertKey;
  }

  /** Rolling out touches nothing but the pod template and the generation of a Deployment. */
  predicate RolledFrom(a: Object, b: Object) {
    b == a.(podAnnotations := b.podAnnotations, generation := b.generation)
  }

  ghost predicate TouchesValidation(a: Store, b: Store, agw: Agw) {
    && (forall k :: k != ValidationJobKey(agw) && !RbacKey(agw.namespace, k) && !k.kind.Deployment? ==> Same(a, b, k))
    && (forall k :: k != ValidationJobKey(agw) && !RbacKey(agw.namespace, k) ==> (k in a <==> k in b) && (k in a ==> RolledFrom(a[k], b[k])))
  }

  lemma ValidationTouches(store: Store, agw: Agw, crypto: Crypto, o: Oracle)
    ensures TouchesValidation(store, ReconcileValidation(store, agw, crypto, o).store, agw)
  {
    hide ValidationHashOf, ReleaseName, ReconcileValidationJob, TouchesValidation, ReconcileRbac;
    JobTouches(store, BLANK, agw);
    var rbac := ReconcileRbac(store, agw.namespace, o.failing).store;
    assert TouchesValidation(store, rbac, agw) by { AccountTouches(store, agw, o.failing); }
    ValidationJobTouches(rbac, agw, ValidationHashOf(agw, crypto), o);
    TouchesChain(store, rbac, ReconcileValidationJob(rbac, agw, ValidationHashOf(agw, crypto), o).store, agw);
  }

  lemma AccountTouches(store: Store, agw: Agw, failing: set<Call>)
    ensures TouchesValidation(store, ReconcileRbac(store, agw.namespace, failing).store, agw)
  {
    hide ReconcileRbac, RbacKey, ReleaseName;
    forall k | !RbacKey(agw.namespace, k)
      ensures Same(store, ReconcileRbac(store, agw.namespace, failing).store, k)
    {
      RbacTouches(store, agw.namespace, failing, k);
    }
  }

  lemma TouchesChain(a: Store, b: Store, c: Store, agw: Agw)
    requires TouchesValidation(a, b, agw) && TouchesValidation(b, c, agw)
    ensures TouchesValidation(a, c, agw)
  {
    hide RbacKey, ReleaseName;
  }

  lemma ValidationJobTouches(store: Store, agw: Agw, hash: string, o: Oracle)
    ensures TouchesValidation(store, ReconcileValidationJob(store, agw, hash, o).store, agw)
  {
    hide ReleaseName, StartValidation, TouchesValidation, HashedJob.Inspect;
    StartTouches(store, agw, hash, o);
    JobTouches(store, BLANK, agw);
  }

  lemma StartTouches(store: Store, agw: Agw, hash: string, o: Oracle)
    ensures TouchesValidation(store, StartValidation(store, agw, hash, o).store, agw)
  {
    hide DeploymentReady, HasUePod, RolledOut, Listed, ReleaseName, Unrolled, RollOutAll, TouchesValidation;
    var unrolled := Unrolled(store, agw, hash);
    UnrolledAreDeployments(store, agw, hash);
    RollOutTouches(store, Served(unrolled, o.rolledOut), hash, agw);
    RollOutTouches(store, unrolled, hash, agw);
    JobTouches(store, HashedJob.NewJob(VALIDATION_HASH, hash, "validate"), agw);
  }

  lemma RollOutTouches(store: Store, keys: set<ObjectKey>, hash: string, agw: Agw)
    requires forall k :: k in keys ==> k.kind.Deployment?
    ensures TouchesValidation(store, RollOutAll(store, keys, hash), agw)
  {
  }

  lemma JobTouches(store: Store, job: Object, agw: Agw)
    ensures TouchesValidation(store, store[ValidationJobKey(agw) := job], agw)
    ensures TouchesValidation(store, store, agw) && TouchesValidation(store, store - {ValidationJobKey(agw)}, agw)
  {
    hide ReleaseName;
  }

  lemma UnrolledAreDeployments(store: Store, agw: Agw, hash: string)
    ensures forall k :: k in Unrolled(store, agw, hash) ==> k.kind.Deployment?
  {
    hide ReleaseName;
  }

  // ----- Whole flows -----

  /** Objects a pass makes by itself, outside the manifest. */
  predicate OwnKey(agw: Agw, k: ObjectKey) {
    || k == IdentityKey(agw) || k == CertKey(agw)
    || k == RootCAJobKey(agw) || k == RegistrationJobKey(agw) || k == ValidationJobKey(agw)
    || RbacKey(agw.namespace, k)
  }

  /** Deletion does not find it. */
  ghost predicate OutsideManifest(op: Operator, agw: Agw, k: ObjectKey) {
    !Lists(AgwObjects(agw, map[], op), k)
  }

  /** The apply of this pass lists the object, with the simulator on or off. */
  ghost predicate AppliedByPass(objects: Store, agw: Agw, op: Operator, o: Oracle, k: ObjectKey) {
    && ReconcileIdentity(objects, agw, op.crypto, o).identity.Some?
    && exists simulator: bool :: Lists(AgwObjects(agw, PassFinal(objects, agw, op, o, simulator), op), k)
  }

  /** Neither this pass's apply nor a deletion lists the object. */
  ghost predicate Spared(objects: Store, agw: Agw, op: Operator, o: Oracle, k: ObjectKey) {
    OutsideManifest(op, agw, k) && !AppliedByPass(objects, agw, op, o, k)
  }

  /** The values of this pass, and the missing values of a deletion, stay within the lines they are written into. */
  ghost predicate TamePass(objects: Store, agw: Agw, op: Operator, o: Oracle) {
    && Tame(op.manifest.lines, AgwTarget(agw), map[])
    && (ReconcileIdentity(objects, agw, op.crypto, o).identity.Some? ==>
          forall simulator: bool :: Tame(op.manifest.lines, AgwTarget(agw), PassFinal(objects, agw, op, o, simulator)))
  }

  /** With tame values the apply lists what the deletion lists. */
  lemma TameListing(objects: Store, agw: Agw, op: Operator, o: Oracle, k: ObjectKey, simulator: bool)
    requires TamePass(objects, agw, op, o) && ReconcileIdentity(objects, agw, op.crypto, o).identity.Some?
    ensures Lists(AgwObjects(agw, PassFinal(objects, agw, op, o, simulator), op), k) <==> Lists(AgwObjects(agw, map[], op), k)
  {
    hide ReconcileIdentity, ReleaseObjects, Tame, AgwTarget, PassFinal;
    SameListing(op.manifest, AgwTarget(agw), PassFinal(objects, agw, op, o, simulator), map[], k);
  }

  /** It is enough that the manifest keeps values three spaces in and that no value written into it holds a line break. */
  lemma OneLinePassIsTame(objects: Store, agw: Agw, op: Operator, o: Oracle)
    requires StableNames(op.manifest.lines) && OneLineValues(op.manifest.lines, AgwTarget(agw), map[])
    requires ReconcileIdentity(objects, agw, op.crypto, o).identity.Some? ==>
      forall simulator: bool :: OneLineValues(op.manifest.lines, AgwTarget(agw), PassFinal(objects, agw, op, o, simulator))
    ensures TamePass(objects, agw, op, o)
  {
    hide ReconcileIdentity, PassFinal, StableNames, OneLineValues, Tame, AgwTarget;
    OneLineIsTame(op.manifest.lines, AgwTarget(agw), map[]);
    if ReconcileIdentity(objects, agw, op.crypto, o).identity.Some? {
      forall simulator: bool
        ensures Tame(op.manifest.lines, AgwTarget(agw), PassFinal(objects, agw, op, o, simulator))
      {
        OneLineIsTame(op.manifest.lines, AgwTarget(agw), PassFinal(objects, agw, op, o, simulator));
      }
    }
  }

  lemma TameSpares(objects: Store, agw: Agw, op: Operator, o: Oracle, k: ObjectKey)
    requires TamePass(objects, agw, op, o) && OutsideManifest(op, agw, k)
    ensures Spared(objects, agw, op, o, k)
  {
    hide ReconcileIdentity, AgwObjects, TamePass, PassFinal;
    if AppliedByPass(objects, agw, op, o, k) {
      var simulator: bool :| Lists(AgwObjects(agw, PassFinal(objects, agw, op, o, simulator), op), k);
      TameListing(objects, agw, op, o, k, simulator);
    }
  }

  lemma ApplyAdds(objects: Store, agw: Agw, op: Operator, o: Oracle, t: Trail, k: ObjectKey)
    requires Trails(objects, agw, op, o, t) && !AppliedByPass(objects, agw, op, o, k)
    ensures Same(t.registered, t.applied, k)
  {
    hide AgwObjects, PassFinal, ReconcileIdentity, TrustLink, RegistrationLink, RolloutLink, ValidationLink, ApplyUpTo;
    if t.registered != t.applied {
      var values := PassFinal(objects, agw, op, o, t.simulator.On?);
      UpToFrame(t.registered, AgwObjects(agw, values, op), SimulatorFilter(t.simulator), o.immutable, o.applyStop, k);
    }
  }

  /** An object that a pass creates is in the manifest or is one of the pass's own. */
  lemma FlowAdds(objects: Store, agw: Agw, op: Operator, o: Oracle, t: Trail, k: ObjectKey)
    requires Trails(objects, agw, op, o, t) && k in t.last && k !in objects
    ensures OwnKey(agw, k) || AppliedByPass(objects, agw, op, o, k)
  {
    hide ReconcileIdentity, ReconcileTrustBundle, ReconcileRegistration, ReconcileValidation, AgwObjects, FinalValues, PassValues, ApplyUpTo, ReleaseName;
    var id := ReconcileIdentity(objects, agw, op.crypto, o).identity;
    if !OwnKey(agw, k) {
      IdentityTouches(objects, agw, op.crypto, o, k);
      TrustLinkTouches(t.identified, t.trusted, agw, id, t.alias, op.crypto, o, k);
      RegistrationLinkTouches(t.trusted, t.registered, agw, id, op.crypto, o, k);
      ValidationTouches(t.rolled, agw, op.crypto, o);
      assert k in t.rolled && k in t.applied && k !in t.registered;
      if !AppliedByPass(objects, agw, op, o, k) {
        ApplyAdds(objects, agw, op, o, t, k);
      }
    }
  }

  lemma TrustLinkTouches(a: Store, b: Store, agw: Agw, id: Option<Identity>, alias: Alias, crypto: Crypto, o: Oracle, k: ObjectKey)
    requires TrustLink(a, b, agw, id, alias, crypto, o) && k != CertKey(agw) && k != RootCAJobKey(agw)
    ensures Same(a, b, k)
  {
    hide ReconcileTrustBundle, PassValues;
    if a != b {
      CertKeyFromSpec(agw, id.value, alias);
      TrustTouches(a, agw, WithAlias(PassValues(agw, id.value), alias), crypto, o.failing);
    }
  }

  lemma RegistrationLinkTouches(a: Store, b: Store, agw: Agw, id: Option<Identity>, crypto: Crypto, o: Oracle, k: ObjectKey)
    requires RegistrationLink(a, b, agw, id, crypto, o) && k != RegistrationJobKey(agw)
    ensures Same(a, b, k)
  {
    hide ReconcileRegistration;
    if a != b {
      RegistrationTouches(a, agw, id.value, crypto, o.failing);
    }
  }

  /** Outside the manifest, the pass's own objects, Deployments and Pods, a pass changes nothing. */
  lemma FlowFrame(objects: Store, agw: Agw, op: Operator, o: Oracle, t: Trail, k: ObjectKey)
    requires Trails(objects, agw, op, o, t) && Spared(objects, agw, op, o, k)
    requires !OwnKey(agw, k) && !k.kind.Deployment? && !k.kind.Pod?
    ensures Same(objects, t.last, k)
  {
    hide ReconcileIdentity, ReconcileTrustBundle, ReconcileRegistration, ReconcileValidation, AgwObjects, FinalValues, PassValues, ApplyUpTo, OutsideManifest, AppliedByPass, ReleaseName;
    var id := ReconcileIdentity(objects, agw, op.crypto, o).identity;
    IdentityTouches(objects, agw, op.crypto, o, k);
    TrustLinkTouches(t.identified, t.trusted, agw, id, t.alias, op.crypto, o, k);
    RegistrationLinkTouches(t.trusted, t.registered, agw, id, op.crypto, o, k);
    ApplyAdds(objects, agw, op, o, t, k);
    ValidationTouches(t.rolled, agw, op.crypto, o);
  }
}
