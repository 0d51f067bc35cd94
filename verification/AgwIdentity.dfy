/** The AGW bootstrap identity: challenge key, hardware ID, and the Secret that stores them. */
module AgwIdentity {
  import opened GoMaps
  import opened Objects
  import opened AgwModel
  import HardwareId

  const KEY := "gw_challenge.key"
  const KEY_B64 := "gw_challenge.key.b64"
  const PUBLIC_B64 := "challenge_public_key.b64"
  const PUBLIC_SHA := "challenge_public_key.sha256"
  const HARDWARE := "hardware_id"

  const ANN_GATEWAY := "magma.infra.don/access-gateway-id"
  const ANN_HARDWARE := "magma.infra.don/hardware-id"
  const ANN_PUBLIC_SHA := "magma.infra.don/challenge-public-key-sha256"
  const LABEL_IDENTITY := "magma.infra.don/identity"

  datatype Identity = Identity(
    secretName: string, hardwareID: string, privateKeyB64: string, publicKeyB64: string, publicKeyHash: string)

  function IdentityKey(agw: Agw): ObjectKey {
    SecretKey(agw.namespace, IdentitySecretName(agw.spec))
  }

  /** The key the specification asks for, if any. */
  datatype KeyRequest = BadKey | NoKey | WantedKey(pem: string)

  function FromText(normalized: Option<string>): KeyRequest {
    if normalized.Some? then WantedKey(normalized.value) else BadKey
  }

  function DesiredPrivateKey(store: Store, agw: Agw, crypto: Crypto, importFails: bool): KeyRequest {
    if agw.spec.identity.importSecretName != "" then
      var source := SecretKey(agw.namespace, agw.spec.identity.importSecretName);
      if importFails || source !in store then BadKey
      else
        var value := Get(store[source].data, OrDefault(agw.spec.identity.importSecretKey, KEY));
        if value == "" then BadKey else FromText(crypto.normalizeKey(value))
    else if Get(agw.spec.values, "config.gwChallenge") != "" then
      var decoded := crypto.unbase64(agw.spec.values["config.gwChallenge"]);
      if decoded.None? then BadKey else FromText(crypto.normalizeKey(decoded.value))
    else NoKey
  }

  predicate Rotates(agw: Agw) {
    EqualFold(agw.spec.identity.rotationPolicy, "Rotate")
  }

  /** The key that goes into the Secret, before a missing one is generated. */
  function ChosenKey(secret: Object, agw: Agw, request: KeyRequest): string {
    if !request.WantedKey? || Rotates(agw) then Get(secret.data, KEY) else request.pem
  }

  function ChosenHardwareId(secret: Object, agw: Agw, random: Random): string {
    OrDefault(agw.spec.identity.hardwareID,
      OrDefault(Get(agw.spec.values, "gatewayIdentity.snowflake"),
        OrDefault(Get(secret.data, HARDWARE), HardwareId.Format(HardwareId.Masked(random)))))
  }

  /** The identity Secret holding this key and hardware ID. */
  function WithIdentity(secret: Object, agw: Agw, key: string, hardwareId: string, publicKey: string, crypto: Crypto): Object {
    secret.(
      labels := secret.labels[LABEL_MANAGED_BY := MANAGED_BY_OPERATOR][LABEL_IDENTITY := "agw"],
      data := secret.data[KEY := key][KEY_B64 := crypto.base64(key)][PUBLIC_B64 := publicKey]
        [PUBLIC_SHA := crypto.sha(publicKey)][HARDWARE := hardwareId],
      annotations := secret.annotations[ANN_GATEWAY := agw.spec.accessGatewayID][ANN_HARDWARE := hardwareId]
        [ANN_PUBLIC_SHA := crypto.sha(publicKey)])
  }

  datatype IdentityStep = IdentityStep(store: Store, identity: Option<Identity>)

  function ReadIdentity(secret: Object, agw: Agw, crypto: Crypto): Option<Identity> {
    var key := Get(secret.data, KEY);
    var public := crypto.publicKey(key);
    if public.None? then None
    else Some(Identity(IdentitySecretName(agw.spec), Get(secret.data, HARDWARE), crypto.base64(key), public.value,
                       crypto.sha(public.value)))
  }

  function ReconcileIdentity(store: Store, agw: Agw, crypto: Crypto, o: Oracle): IdentityStep {
    var request := DesiredPrivateKey(store, agw, crypto, ImportGet in o.failing);
    if request.BadKey? then IdentityStep(store, None)
    else
      var secret := ObjectOrBlank(store, IdentityKey(agw));
      var chosen := ChosenKey(secret, agw, request);
      if chosen == "" && KeyGeneration in o.failing then IdentityStep(store, None)
      else
        var key := OrDefault(chosen, o.newKey);
        var public := crypto.publicKey(key);
        if public.None? || IdentityWrite in o.failing then IdentityStep(store, None)
        else
          var updated := WithIdentity(secret, agw, key, ChosenHardwareId(secret, agw, o.random), public.value, crypto);
          var stored := store[IdentityKey(agw) := updated];
          if IdentityGet in o.failing then IdentityStep(stored, None)
          else IdentityStep(stored, ReadIdentity(updated, agw, crypto))
  }

  function GatewayPayload(agw: Agw, id: Identity): Payload {
    var reg := agw.spec.registration;
    Payload(agw.spec.accessGatewayID, OrDefault(reg.name, agw.spec.accessGatewayID),
            OrDefault(reg.description, "Managed by magma-operator"), OrDefault(reg.tier, "default"),
            id.hardwareID, id.publicKeyB64)
  }

  // ----- Properties -----

  lemma DataKeysDiffer()
    ensures KEY != KEY_B64 && KEY != PUBLIC_B64 && KEY != PUBLIC_SHA && KEY != HARDWARE
    ensures KEY_B64 != PUBLIC_B64 && KEY_B64 != PUBLIC_SHA && KEY_B64 != HARDWARE
    ensures PUBLIC_B64 != PUBLIC_SHA && PUBLIC_B64 != HARDWARE && PUBLIC_SHA != HARDWARE
    ensures ANN_GATEWAY != ANN_HARDWARE && ANN_GATEWAY != ANN_PUBLIC_SHA && ANN_HARDWARE != ANN_PUBLIC_SHA
    ensures LABEL_IDENTITY != LABEL_MANAGED_BY
  {
    assert |KEY| == 16 && |KEY_B64| == 20 && |PUBLIC_B64| == 24 && |PUBLIC_SHA| == 27 && |HARDWARE| == 11;
    assert |ANN_GATEWAY| == 33 && |ANN_HARDWARE| == 27 && |ANN_PUBLIC_SHA| == 43;
    assert |LABEL_IDENTITY| == 24 && |LABEL_MANAGED_BY| == 28;
  }

  predicate Has(m: StringMap, key: string, value: string) {
    key in m && m[key] == value
  }

  /** Every derived or encoded entry, and every annotation, agrees with the key and the hardware ID. */
  ghost predicate Consistent(secret: Object, agw: Agw, crypto: Crypto) {
    && KEY in secret.data && HARDWARE in secret.data
    && var key, hardwareId := secret.data[KEY], secret.data[HARDWARE];
       var public := crypto.publicKey(key);
    && public.Some?
    && Has(secret.data, KEY_B64, crypto.base64(key))
    && Has(secret.data, PUBLIC_B64, public.value)
    && Has(secret.data, PUBLIC_SHA, crypto.sha(public.value))
    && Has(secret.annotations, ANN_GATEWAY, agw.spec.accessGatewayID)
    && Has(secret.annotations, ANN_HARDWARE, hardwareId)
    && Has(secret.annotations, ANN_PUBLIC_SHA, crypto.sha(public.value))
    && Has(secret.labels, LABEL_MANAGED_BY, MANAGED_BY_OPERATOR) && Has(secret.labels, LABEL_IDENTITY, "agw")
  }

  /** The stored key and hardware ID are what the specification and the import source ask for. */
  ghost predicate AsRequested(secret: Object, agw: Agw, request: KeyRequest)
    requires KEY in secret.data && HARDWARE in secret.data
  {
    && !request.BadKey?
    && secret.data[KEY] != ""
    && (request.WantedKey? ==> request.pem == secret.data[KEY])
    && secret.data[HARDWARE] != ""
    && (agw.spec.identity.hardwareID != "" ==> secret.data[HARDWARE] == agw.spec.identity.hardwareID)
    && (agw.spec.identity.hardwareID == "" && Get(agw.spec.values, "gatewayIdentity.snowflake") != "" ==>
          secret.data[HARDWARE] == agw.spec.values["gatewayIdentity.snowflake"])
  }

  /** The Secret exists and a reconcile of it has nothing left to change. */
  ghost predicate Settled(store: Store, agw: Agw, crypto: Crypto) {
    && IdentityKey(agw) in store
    && Consistent(store[IdentityKey(agw)], agw, crypto)
    && AsRequested(store[IdentityKey(agw)], agw, DesiredPrivateKey(store, agw, crypto, false))
  }

  /** The challenge key is not imported from an entry that the operator derives from it. */
  predicate ImportStable(agw: Agw) {
    || agw.spec.identity.importSecretName != IdentitySecretName(agw.spec)
    || OrDefault(agw.spec.identity.importSecretKey, KEY) !in {KEY_B64, PUBLIC_B64, PUBLIC_SHA, HARDWARE}
  }

  /** An empty text is not a private key, a normalised key is not empty, and normalising it again changes nothing. */
  ghost predicate KeysAreTexts(crypto: Crypto) {
    && crypto.publicKey("").None?
    && (forall t :: crypto.normalizeKey(t) != Some(""))
    && (forall t :: crypto.normalizeKey(t).Some? ==> crypto.normalizeKey(crypto.normalizeKey(t).value) == crypto.normalizeKey(t))
  }

  lemma WithIdentityConsistent(secret: Object, agw: Agw, key: string, hardwareId: string, crypto: Crypto)
    requires crypto.publicKey(key).Some?
    ensures var updated := WithIdentity(secret, agw, key, hardwareId, crypto.publicKey(key).value, crypto);
      Consistent(updated, agw, crypto) && updated.data[KEY] == key && updated.data[HARDWARE] == hardwareId
  {
    DataKeysDiffer();
  }

  lemma WithIdentityUnchanged(secret: Object, agw: Agw, crypto: Crypto)
    requires Consistent(secret, agw, crypto)
    ensures WithIdentity(secret, agw, secret.data[KEY], secret.data[HARDWARE], crypto.publicKey(secret.data[KEY]).value, crypto) == secret
  {
    var public := crypto.publicKey(secret.data[KEY]).value;
    SameEntry(secret.labels, LABEL_MANAGED_BY);
    SameEntry(secret.labels, LABEL_IDENTITY);
    SameEntry(secret.data, KEY);
    SameEntry(secret.data, KEY_B64);
    SameEntry(secret.data, PUBLIC_B64);
    SameEntry(secret.data, PUBLIC_SHA);
    SameEntry(secret.data, HARDWARE);
    SameEntry(secret.annotations, ANN_GATEWAY);
    SameEntry(secret.annotations, ANN_HARDWARE);
    SameEntry(secret.annotations, ANN_PUBLIC_SHA);
  }

  lemma SameEntry(m: StringMap, k: string)
    requires k in m
    ensures m[k := m[k]] == m
  {
  }

  /**
   Rotation policy Never: a successful reconcile leaves a consistent Secret that is as the
   specification asks for.
   */
  lemma IdentitySettles(store: Store, agw: Agw, crypto: Crypto, o: Oracle)
    requires ReconcileIdentity(store, agw, crypto, o).identity.Some?
    requires !Rotates(agw) && ImportStable(agw) && KeysAreTexts(crypto)
    ensures Settled(ReconcileIdentity(store, agw, crypto, o).store, agw, crypto)
  {
    hide ReconcileIdentity, WithIdentity, DesiredPrivateKey, Consistent, ChosenHardwareId, IdentitySecretName, Rotates;
    var request := DesiredPrivateKey(store, agw, crypto, ImportGet in o.failing);
    var secret := ObjectOrBlank(store, IdentityKey(agw));
    var key := OrDefault(ChosenKey(secret, agw, request), o.newKey);
    var hardwareId := ChosenHardwareId(secret, agw, o.random);
    IdentityWritten(store, agw, crypto, o);
    HardwareIdChosen(secret, agw, o.random);
    WithIdentityConsistent(secret, agw, key, hardwareId, crypto);
    WantedNotEmpty(store, agw, crypto, ImportGet in o.failing);
    RequestStable(store, agw, crypto, ImportGet in o.failing, key, hardwareId, crypto.publicKey(key).value);
    assert key != "";
  }

  lemma WantedNotEmpty(store: Store, agw: Agw, crypto: Crypto, fails: bool)
    requires KeysAreTexts(crypto)
    ensures DesiredPrivateKey(store, agw, crypto, fails).WantedKey? ==> DesiredPrivateKey(store, agw, crypto, fails).pem != ""
  {
  }

  lemma HardwareIdChosen(secret: Object, agw: Agw, random: Random)
    ensures var id := ChosenHardwareId(secret, agw, random);
      && id != ""
      && (agw.spec.identity.hardwareID != "" ==> id == agw.spec.identity.hardwareID)
      && (agw.spec.identity.hardwareID == "" && Get(agw.spec.values, "gatewayIdentity.snowflake") != "" ==>
            id == agw.spec.values["gatewayIdentity.snowflake"])
  {
  }

  /** What a successful reconcile has written. */
  lemma IdentityWritten(store: Store, agw: Agw, crypto: Crypto, o: Oracle)
    requires ReconcileIdentity(store, agw, crypto, o).identity.Some?
    ensures var request := DesiredPrivateKey(store, agw, crypto, ImportGet in o.failing);
      var secret := ObjectOrBlank(store, IdentityKey(agw));
      var key := OrDefault(ChosenKey(secret, agw, request), o.newKey);
      && !request.BadKey? && crypto.publicKey(key).Some?
      && ReconcileIdentity(store, agw, crypto, o).store ==
           store[IdentityKey(agw) := WithIdentity(secret, agw, key, ChosenHardwareId(secret, agw, o.random), crypto.publicKey(key).value, crypto)]
  {
    hide WithIdentity, DesiredPrivateKey, ChosenHardwareId, ReadIdentity, IdentitySecretName;
  }

  /** Writing the identity Secret, with the key asked for if there is one, does not change which key is asked for. */
  lemma RequestStable(store: Store, agw: Agw, crypto: Crypto, fails: bool, key: string, hardwareId: string, publicKey: string)
    requires ImportStable(agw) && KeysAreTexts(crypto)
    requires var request := DesiredPrivateKey(store, agw, crypto, fails);
      !request.BadKey? && (request.WantedKey? ==> key == request.pem)
    ensures var updated := WithIdentity(ObjectOrBlank(store, IdentityKey(agw)), agw, key, hardwareId, publicKey, crypto);
      DesiredPrivateKey(store[IdentityKey(agw) := updated], agw, crypto, false) == DesiredPrivateKey(store, agw, crypto, fails)
  {
    var entry := OrDefault(agw.spec.identity.importSecretKey, KEY);
    if agw.spec.identity.importSecretName == IdentitySecretName(agw.spec) && agw.spec.identity.importSecretName != "" {
      DataKeysDiffer();
      var secret := store[IdentityKey(agw)];
      var updated := WithIdentity(secret, agw, key, hardwareId, publicKey, crypto);
      assert entry == KEY ==> Get(updated.data, entry) == key;
      assert entry != KEY ==> Get(updated.data, entry) == Get(secret.data, entry);
    }
  }

  /** What a write of the identity puts into one of the entries that it derives. */
  function Derived(entry: string, key: string, hardwareId: string, publicKey: string, crypto: Crypto): string {
    if entry == KEY_B64 then crypto.base64(key)
    else if entry == PUBLIC_B64 then publicKey
    else if entry == PUBLIC_SHA then crypto.sha(publicKey)
    else hardwareId
  }

  /** The text that the reconcile writes over the imported entry. */
  function WrittenOver(store: Store, agw: Agw, crypto: Crypto, o: Oracle): string {
    var request := DesiredPrivateKey(store, agw, crypto, ImportGet in o.failing);
    if !request.WantedKey? || crypto.publicKey(request.pem).None? then ""
    else
      var hardwareId := ChosenHardwareId(ObjectOrBlank(store, IdentityKey(agw)), agw, o.random);
      Derived(OrDefault(agw.spec.identity.importSecretKey, KEY), request.pem, hardwareId, crypto.publicKey(request.pem).value, crypto)
  }

  lemma DerivedEntries(secret: Object, agw: Agw, entry: string, key: string, hardwareId: string, publicKey: string, crypto: Crypto)
    requires entry in {KEY_B64, PUBLIC_B64, PUBLIC_SHA, HARDWARE}
    ensures Get(WithIdentity(secret, agw, key, hardwareId, publicKey, crypto).data, entry) == Derived(entry, key, hardwareId, publicKey, crypto)
  {
    DataKeysDiffer();
  }

  /** After an import from a derived entry, the next reconcile asks for the key in what has been written over it. */
  lemma OverwrittenRequest(store: Store, agw: Agw, crypto: Crypto, o: Oracle, fails: bool)
    requires ReconcileIdentity(store, agw, crypto, o).identity.Some? && !Rotates(agw) && !ImportStable(agw) && KeysAreTexts(crypto)
    ensures var text := WrittenOver(store, agw, crypto, o);
      DesiredPrivateKey(ReconcileIdentity(store, agw, crypto, o).store, agw, crypto, fails) ==
        if fails || text == "" then BadKey else FromText(crypto.normalizeKey(text))
    ensures var request := DesiredPrivateKey(store, agw, crypto, ImportGet in o.failing);
      request.WantedKey? && request.pem != "" && OrDefault(ChosenKey(ObjectOrBlank(store, IdentityKey(agw)), agw, request), o.newKey) == request.pem
  {
    hide ReconcileIdentity, WithIdentity, ChosenHardwareId, Rotates, Derived;
    IdentityWritten(store, agw, crypto, o);
    WantedNotEmpty(store, agw, crypto, ImportGet in o.failing);
    var request := DesiredPrivateKey(store, agw, crypto, ImportGet in o.failing);
    assert agw.spec.identity.importSecretName == IdentitySecretName(agw.spec) != "";
    assert request.WantedKey?;
    var secret := ObjectOrBlank(store, IdentityKey(agw));
    DerivedEntries(secret, agw, OrDefault(agw.spec.identity.importSecretKey, KEY), request.pem, ChosenHardwareId(secret, agw, o.random),
                   crypto.publicKey(request.pem).value, crypto);
  }

  /**
   A successful reconcile settles the Secret exactly when the key is not imported from an entry
   that the operator derives, or what is written over that entry is the same key again.
   */
  lemma IdentitySettlesExact(store: Store, agw: Agw, crypto: Crypto, o: Oracle)
    requires ReconcileIdentity(store, agw, crypto, o).identity.Some? && !Rotates(agw) && KeysAreTexts(crypto)
    ensures Settled(ReconcileIdentity(store, agw, crypto, o).store, agw, crypto) <==>
      || ImportStable(agw)
      || (&& WrittenOver(store, agw, crypto, o) != ""
          && FromText(crypto.normalizeKey(WrittenOver(store, agw, crypto, o))) == DesiredPrivateKey(store, agw, crypto, ImportGet in o.failing))
  {
    hide ReconcileIdentity, WithIdentity, DesiredPrivateKey, Consistent, ChosenHardwareId, IdentitySecretName, Rotates, ImportStable, WrittenOver;
    if ImportStable(agw) {
      IdentitySettles(store, agw, crypto, o);
    } else {
      var request := DesiredPrivateKey(store, agw, crypto, ImportGet in o.failing);
      var secret := ObjectOrBlank(store, IdentityKey(agw));
      OverwrittenRequest(store, agw, crypto, o, false);
      IdentityWritten(store, agw, crypto, o);
      HardwareIdChosen(secret, agw, o.random);
      WithIdentityConsistent(secret, agw, request.pem, ChosenHardwareId(secret, agw, o.random), crypto);
    }
  }

  /** An import from a derived entry whose new text is no key works once, and every later reconcile fails. */
  lemma DerivedImportBreaks(store: Store, agw: Agw, crypto: Crypto, o: Oracle, later: Oracle)
    requires ReconcileIdentity(store, agw, crypto, o).identity.Some? && !Rotates(agw) && !ImportStable(agw) && KeysAreTexts(crypto)
    requires crypto.normalizeKey(WrittenOver(store, agw, crypto, o)).None?
    ensures var after := ReconcileIdentity(store, agw, crypto, o).store;
      ReconcileIdentity(after, agw, crypto, later) == IdentityStep(after, None)
  {
    hide WithIdentity, DesiredPrivateKey, ChosenHardwareId, ReadIdentity, IdentitySecretName, Rotates, WrittenOver;
    OverwrittenRequest(store, agw, crypto, o, ImportGet in later.failing);
  }

  /**
   Once settled, the Secret never changes again, whatever fails and whatever randomness is
   drawn, and every identity read from it is the same.
   */
  lemma SettledStays(store: Store, agw: Agw, crypto: Crypto, o: Oracle)
    requires Settled(store, agw, crypto)
    ensures ReconcileIdentity(store, agw, crypto, o).store == store
    ensures ReconcileIdentity(store, agw, crypto, o).identity.Some? ==>
      ReconcileIdentity(store, agw, crypto, o).identity == ReadIdentity(store[IdentityKey(agw)], agw, crypto)
    ensures o.failing == {} ==> ReconcileIdentity(store, agw, crypto, o).identity.Some?
  {
    var secret := store[IdentityKey(agw)];
    var request := DesiredPrivateKey(store, agw, crypto, ImportGet in o.failing);
    if !request.BadKey? {
      assert request == DesiredPrivateKey(store, agw, crypto, false);
      assert ChosenKey(secret, agw, request) == secret.data[KEY];
      assert ChosenHardwareId(secret, agw, o.random) == secret.data[HARDWARE];
      WithIdentityUnchanged(secret, agw, crypto);
      assert store[IdentityKey(agw) := secret] == store;
    }
  }

  // ----- What the returned identity holds -----

  /** The identity is the content of the Secret it names: every field is the entry of that name, and the entries belong to the stored key. */
  ghost predicate HeldIn(store: Store, agw: Agw, id: Identity, crypto: Crypto) {
    var k := ObjectKey(Secret, agw.namespace, id.secretName);
    && id.secretName == (if agw.spec.identity.secretName != "" then agw.spec.identity.secretName else "agw-bootstrap-challenge-key")
    && k in store
    && var data := store[k].data;
       && Has(data, "hardware_id", id.hardwareID) && id.hardwareID != ""
       && Has(data, "gw_challenge.key.b64", id.privateKeyB64)
       && Has(data, "challenge_public_key.b64", id.publicKeyB64)
       && Has(data, "challenge_public_key.sha256", id.publicKeyHash)
       && "gw_challenge.key" in data
       && var key := data["gw_challenge.key"];
          id.privateKeyB64 == crypto.base64(key) && crypto.publicKey(key) == Some(id.publicKeyB64) && id.publicKeyHash == crypto.sha(id.publicKeyB64)
  }

  lemma ConsistentHolds(secret: Object, agw: Agw, crypto: Crypto, id: Identity)
    requires Consistent(secret, agw, crypto) && secret.data[HARDWARE] != "" && ReadIdentity(secret, agw, crypto) == Some(id)
    ensures HeldIn(map[IdentityKey(agw) := secret], agw, id, crypto)
  {
    DataKeysDiffer();
  }

  /** Every successful reconcile returns what the Secret it has written holds, under any rotation policy. */
  lemma IdentityHeld(store: Store, agw: Agw, crypto: Crypto, o: Oracle)
    requires ReconcileIdentity(store, agw, crypto, o).identity.Some?
    ensures var step := ReconcileIdentity(store, agw, crypto, o);
      && HeldIn(step.store, agw, step.identity.value, crypto)
      && Consistent(step.store[ObjectKey(Secret, agw.namespace, step.identity.value.secretName)], agw, crypto)
  {
    hide ReconcileIdentity, WithIdentity, DesiredPrivateKey, ChosenHardwareId, ReadIdentity, IdentitySecretName, Consistent;
    var secret := ObjectOrBlank(store, IdentityKey(agw));
    var key := OrDefault(ChosenKey(secret, agw, DesiredPrivateKey(store, agw, crypto, ImportGet in o.failing)), o.newKey);
    var hardwareId := ChosenHardwareId(secret, agw, o.random);
    IdentityWritten(store, agw, crypto, o);
    HardwareIdChosen(secret, agw, o.random);
    WithIdentityConsistent(secret, agw, key, hardwareId, crypto);
    IdentityReadBack(store, agw, crypto, o);
    var step := ReconcileIdentity(store, agw, crypto, o);
    ConsistentHolds(step.store[IdentityKey(agw)], agw, crypto, step.identity.value);
  }

  lemma IdentityReadBack(store: Store, agw: Agw, crypto: Crypto, o: Oracle)
    requires ReconcileIdentity(store, agw, crypto, o).identity.Some?
    ensures var step := ReconcileIdentity(store, agw, crypto, o);
      IdentityKey(agw) in step.store && step.identity == ReadIdentity(step.store[IdentityKey(agw)], agw, crypto)
  {
    hide WithIdentity, ChosenHardwareId, ReadIdentity, DesiredPrivateKey, IdentitySecretName;
  }

  /**
   Which key and which hardware ID: the requested key unless the policy is Rotate, else the
   stored one, else the generated one; the hardware ID of the specification, else of the values,
   else the stored one, else a new one.
   */
  lemma IdentityChosen(store: Store, agw: Agw, crypto: Crypto, o: Oracle)
    requires ReconcileIdentity(store, agw, crypto, o).identity.Some? && KeysAreTexts(crypto)
    ensures var k := IdentityKey(agw);
      var before := if k in store then store[k].data else map[];
      var after := ReconcileIdentity(store, agw, crypto, o).store[k].data;
      var request := DesiredPrivateKey(store, agw, crypto, ImportGet in o.failing);
      && (request.WantedKey? && ToLower(agw.spec.identity.rotationPolicy) != "rotate" ==> after["gw_challenge.key"] == request.pem)
      && (request.NoKey? || ToLower(agw.spec.identity.rotationPolicy) == "rotate" ==>
            after["gw_challenge.key"] == if Get(before, "gw_challenge.key") != "" then Get(before, "gw_challenge.key") else o.newKey)
      && (agw.spec.identity.hardwareID != "" ==> after["hardware_id"] == agw.spec.identity.hardwareID)
      && (agw.spec.identity.hardwareID == "" ==>
            var given := Get(agw.spec.values, "gatewayIdentity.snowflake");
            && (given != "" ==> after["hardware_id"] == given)
            && (given == "" && Get(before, "hardware_id") != "" ==> after["hardware_id"] == Get(before, "hardware_id"))
            && (given == "" && Get(before, "hardware_id") == "" ==> after["hardware_id"] == HardwareId.Format(HardwareId.Masked(o.random))))
  {
    hide ReconcileIdentity, WithIdentity, DesiredPrivateKey, Consistent, IdentitySecretName;
    var secret := ObjectOrBlank(store, IdentityKey(agw));
    var request := DesiredPrivateKey(store, agw, crypto, ImportGet in o.failing);
    var key := OrDefault(ChosenKey(secret, agw, request), o.newKey);
    IdentityWritten(store, agw, crypto, o);
    WithIdentityConsistent(secret, agw, key, ChosenHardwareId(secret, agw, o.random), crypto);
    WantedNotEmpty(store, agw, crypto, ImportGet in o.failing);
    RotateLower(agw);
  }

  lemma RotateLower(agw: Agw)
    ensures Rotates(agw) <==> ToLower(agw.spec.identity.rotationPolicy) == "rotate"
  {
    assert ToLower("Rotate") == "rotate";
  }
}
