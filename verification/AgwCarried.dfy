/** What a pass carries where: from the specification and the stored Secret into the values, the rendered manifest, the payload and the status. */
module AgwCarried {
  import opened GoMaps
  import opened Objects
  import opened Rendering
  import opened RenderedTable
  import opened NativeRelease
  import opened Placement
  import opened AgwModel
  import opened AgwIdentity
  import opened AgwDatapath
  import opened AgwTrust
  import opened AgwRegistration
  import opened AgwValues
  import opened AgwValidation
  import opened AgwPass
  import opened AgwRuns
  import opened AgwReady
  import opened AgwHistory
  import opened AgwTrail
  import opened AgwFootprint
  import opened AgwFinalizer
  import opened AgwJobs
  import opened AgwCredit
  import opened AgwStability

  // ----- Settings in the values -----

  lemma NotStored(key: string, role: Role, selector: StringMap)
    requires OutsideSelectors(key)
    ensures key !in Stored(StoreName(role), selector)
  {
    forall x | x in StoredKeys(StoreName(role), selector)
      ensures PrefixOf(role) <= x
    {
      var k := KeyBehind(StoreName(role), selector, x);
      StoreNames(role);
    }
  }

  /** Selectors do not touch other settings. */
  lemma EntriesOutside(base: StringMap, spec: Spec, key: string)
    requires OutsideSelectors(key)
    ensures key in SelectorEntries(base, spec) <==> key in KmodValues(base, spec.datapath)
    ensures key in SelectorEntries(base, spec) ==> SelectorEntries(base, spec)[key] == KmodValues(base, spec.datapath)[key]
  {
    hide PrepSelector, WorkloadSelector;
    NotStored(key, NodePrepObject, PrepSelector(spec));
    NotStored(key, PlainObject, WorkloadSelector(spec));
    NotStored(key, SimulatorObject, spec.ueransimNodeSelector);
    var prep, plain := Stored("nodePrep.nodeSelector", PrepSelector(spec)), Stored("nodeSelector", WorkloadSelector(spec));
    KmodSame(base, base + prep + plain, spec.datapath, key);
  }

  lemma KmodSame(a: StringMap, b: StringMap, dp: DatapathSpec, key: string)
    requires (key in a <==> key in b) && (key in a ==> a[key] == b[key])
    ensures key in KmodValues(a, dp) <==> key in KmodValues(b, dp)
    ensures key in KmodValues(a, dp) ==> KmodValues(a, dp)[key] == KmodValues(b, dp)[key]
  {
  }

  lemma KeyTextsDiffer()
    ensures |"config.gwChallenge"| == 18 && |"gatewayIdentity.snowflake"| == 25 && |"simulator.enabled"| == 17
    ensures |"orc8r.hostAliases.enabled"| == 25 && |"orc8r.hostAliases.ip"| == 20
    ensures |"nodePrep.interfaces.s1.parent"| == 29 && |"nodePrep.interfaces.nat.parent"| == 30
    ensures |"nodePrep.requireMagmaOvsKmod"| == 28 && |"nodePrep.magmaOvsKmodUpgradePath"| == 32
    ensures |"namespace"| == 9 && |"agwAntiAffinity.enabled"| == 23 && |"simulator.antiAffinity.separateFromAgw"| == 38
    ensures "gatewayIdentity.snowflake"[0] == 'g' && "orc8r.hostAliases.enabled"[0] == 'o'
  {
  }

  /** The settings that no user value can override. */
  predicate Forced(key: string, alias: Alias) {
    || key == "config.gwChallenge" || key == "gatewayIdentity.snowflake" || key == "simulator.enabled"
    || (alias.Alias? && (key == "orc8r.hostAliases.enabled" || key == "orc8r.hostAliases.ip"))
  }

  lemma ForcedSettings(agw: Agw, id: Identity, alias: Alias, simulator: bool)
    ensures var v, u := FinalValues(agw, id, alias, simulator), agw.spec.values;
      && Get(v, "config.gwChallenge") == id.privateKeyB64
      && Get(v, "gatewayIdentity.snowflake") == id.hardwareID
      && Get(v, "simulator.enabled") == (if simulator then "true" else "false")
      && (alias.Alias? ==> Get(v, "orc8r.hostAliases.enabled") == "true" && Get(v, "orc8r.hostAliases.ip") == alias.ip)
  {
    hide SelectorEntries, BaseValues;
    KeyTextsDiffer();
  }

  /** Any other user value is kept. */
  lemma UserValuesKept(agw: Agw, id: Identity, alias: Alias, simulator: bool, key: string)
    requires key in agw.spec.values && !Forced(key, alias)
    ensures key in FinalValues(agw, id, alias, simulator) && FinalValues(agw, id, alias, simulator)[key] == agw.spec.values[key]
  {
    hide SelectorEntries, BaseValues;
  }

  /** A setting outside the selectors that neither the user nor the operator forces is as the operator's own entries say. */
  lemma OwnValuesKept(agw: Agw, id: Identity, alias: Alias, simulator: bool, key: string)
    requires key !in agw.spec.values && !Forced(key, alias) && OutsideSelectors(key)
    ensures Get(FinalValues(agw, id, alias, simulator), key) == Get(KmodValues(BaseValues(agw, id), agw.spec.datapath), key)
  {
    hide SelectorEntries, BaseValues, KmodValues;
    EntriesOutside(BaseValues(agw, id), agw.spec, key);
  }

  lemma InterfaceEntries(agw: Agw, id: Identity)
    ensures var v := BaseValues(agw, id);
      && Get(v, "nodePrep.interfaces.s1.parent") == agw.spec.s1Interface
      && Get(v, "nodePrep.interfaces.nat.parent") == agw.spec.sgiInterface
      && Get(v, "nodePrep.requireMagmaOvsKmod") == "" && Get(v, "nodePrep.magmaOvsKmodUpgradePath") == ""
  {
    KeyTextsDiffer();
  }

  lemma FixedEntries(agw: Agw, id: Identity)
    ensures var v := BaseValues(agw, id);
      && Get(v, "namespace") == agw.namespace
      && Get(v, "agwAntiAffinity.enabled") == "true"
      && Get(v, "simulator.antiAffinity.separateFromAgw") == "true"
  {
    KeyTextsDiffer();
  }

  predicate KmodSetting(key: string) {
    key == "nodePrep.requireMagmaOvsKmod" || key == "nodePrep.magmaOvsKmodUpgradePath"
  }

  lemma KmodEntries(v: StringMap, dp: DatapathSpec)
    requires Get(v, "nodePrep.requireMagmaOvsKmod") == "" && Get(v, "nodePrep.magmaOvsKmodUpgradePath") == ""
    ensures var after, gated := KmodValues(v, dp), dp.enabled != Some(false);
      && Get(after, "nodePrep.requireMagmaOvsKmod") == (if !gated then "" else if dp.requireMagmaOvsKmod then "true" else "false")
      && Get(after, "nodePrep.magmaOvsKmodUpgradePath") == (if gated then dp.ovsKmodUpgradePath else "")
  {
    assert |"nodePrep.requireMagmaOvsKmod"| == 28 && |"nodePrep.magmaOvsKmodUpgradePath"| == 32;
  }

  lemma KmodOther(v: StringMap, dp: DatapathSpec, key: string)
    requires !KmodSetting(key)
    ensures Get(KmodValues(v, dp), key) == Get(v, key)
  {
  }

  lemma OtherSettings()
    ensures !KmodSetting("nodePrep.interfaces.s1.parent") && !KmodSetting("nodePrep.interfaces.nat.parent")
    ensures !KmodSetting("namespace") && !KmodSetting("agwAntiAffinity.enabled") && !KmodSetting("simulator.antiAffinity.separateFromAgw")
  {
    KeyTextsDiffer();
  }

  lemma OwnEntries(agw: Agw, id: Identity)
    ensures var v := KmodValues(BaseValues(agw, id), agw.spec.datapath);
      var gated := agw.spec.datapath.enabled != Some(false);
      && Get(v, "nodePrep.interfaces.s1.parent") == agw.spec.s1Interface
      && Get(v, "nodePrep.interfaces.nat.parent") == agw.spec.sgiInterface
      && Get(v, "nodePrep.requireMagmaOvsKmod") == (if !gated then "" else if agw.spec.datapath.requireMagmaOvsKmod then "true" else "false")
      && Get(v, "nodePrep.magmaOvsKmodUpgradePath") == (if gated then agw.spec.datapath.ovsKmodUpgradePath else "")
      && Get(v, "namespace") == agw.namespace
      && Get(v, "agwAntiAffinity.enabled") == "true"
      && Get(v, "simulator.antiAffinity.separateFromAgw") == "true"
  {
    hide BaseValues, KmodValues, Get, KmodSetting;
    var v, dp := BaseValues(agw, id), agw.spec.datapath;
    InterfaceEntries(agw, id);
    FixedEntries(agw, id);
    KmodEntries(v, dp);
    OtherSettings();
    KmodOther(v, dp, "nodePrep.interfaces.s1.parent");
    KmodOther(v, dp, "nodePrep.interfaces.nat.parent");
    KmodOther(v, dp, "namespace");
    KmodOther(v, dp, "agwAntiAffinity.enabled");
    KmodOther(v, dp, "simulator.antiAffinity.separateFromAgw");
  }

  lemma SettingsOutside()
    ensures OutsideSelectors("nodePrep.interfaces.s1.parent") && OutsideSelectors("nodePrep.interfaces.nat.parent")
    ensures OutsideSelectors("nodePrep.requireMagmaOvsKmod") && OutsideSelectors("nodePrep.magmaOvsKmodUpgradePath")
    ensures OutsideSelectors("namespace") && OutsideSelectors("agwAntiAffinity.enabled") && OutsideSelectors("simulator.antiAffinity.separateFromAgw")
    ensures OutsideSelectors("orc8r.hostAliases.enabled") && OutsideSelectors("orc8r.hostAliases.ip")
  {
    hide OutsideSelectors;
    PrepKeysOutside();
    FixedKeysOutside();
  }

  /** The interfaces, kernel module and placement settings of a pass: the user's own value, or else what the specification says. */
  lemma OpenSettings(agw: Agw, id: Identity, alias: Alias, simulator: bool)
    ensures var v, u := FinalValues(agw, id, alias, simulator), agw.spec.values;
      var gated := agw.spec.datapath.enabled != Some(false);
      && Get(v, "nodePrep.interfaces.s1.parent") == Overridden(u, "nodePrep.interfaces.s1.parent", agw.spec.s1Interface)
      && Get(v, "nodePrep.interfaces.nat.parent") == Overridden(u, "nodePrep.interfaces.nat.parent", agw.spec.sgiInterface)
      && Get(v, "nodePrep.requireMagmaOvsKmod") == Overridden(u, "nodePrep.requireMagmaOvsKmod",
           if !gated then "" else if agw.spec.datapath.requireMagmaOvsKmod then "true" else "false")
      && Get(v, "nodePrep.magmaOvsKmodUpgradePath") == Overridden(u, "nodePrep.magmaOvsKmodUpgradePath",
           if gated then agw.spec.datapath.ovsKmodUpgradePath else "")
      && Get(v, "namespace") == Overridden(u, "namespace", agw.namespace)
      && Get(v, "agwAntiAffinity.enabled") == Overridden(u, "agwAntiAffinity.enabled", "true")
      && Get(v, "simulator.antiAffinity.separateFromAgw") == Overridden(u, "simulator.antiAffinity.separateFromAgw", "true")
  {
    hide FinalValues, KmodValues, BaseValues, OutsideSelectors;
    SettingsOutside();
    OwnEntries(agw, id);
    KeyTextsDiffer();
    forall key | key in {"nodePrep.interfaces.s1.parent", "nodePrep.interfaces.nat.parent", "nodePrep.requireMagmaOvsKmod",
                         "nodePrep.magmaOvsKmodUpgradePath", "namespace", "agwAntiAffinity.enabled", "simulator.antiAffinity.separateFromAgw"}
      ensures Get(FinalValues(agw, id, alias, simulator), key)
           == Overridden(agw.spec.values, key, Get(KmodValues(BaseValues(agw, id), agw.spec.datapath), key))
    {
      SettingOpen(agw, id, alias, simulator, key);
    }
  }

  lemma SettingOpen(agw: Agw, id: Identity, alias: Alias, simulator: bool, key: string)
    requires !Forced(key, alias) && OutsideSelectors(key)
    ensures Get(FinalValues(agw, id, alias, simulator), key)
         == Overridden(agw.spec.values, key, Get(KmodValues(BaseValues(agw, id), agw.spec.datapath), key))
  {
    hide FinalValues, KmodValues, BaseValues, OutsideSelectors, Forced;
    if key in agw.spec.values {
      UserValuesKept(agw, id, alias, simulator, key);
    } else {
      OwnValuesKept(agw, id, alias, simulator, key);
    }
  }

  lemma NoOwnAlias(agw: Agw, id: Identity)
    ensures Get(KmodValues(BaseValues(agw, id), agw.spec.datapath), "orc8r.hostAliases.ip") == ""
    ensures Get(KmodValues(BaseValues(agw, id), agw.spec.datapath), "orc8r.hostAliases.enabled") == ""
  {
    KeyTextsDiffer();
    assert "nodePrep.interfaces.s1.parent"[0] == 'n' && "gatewayIdentity.snowflake"[0] == 'g' && "orc8r.hostAliases.enabled"[0] == 'o';
  }

  lemma AliasOpen(agw: Agw, id: Identity, alias: Alias, simulator: bool)
    requires !alias.Alias?
    ensures Get(FinalValues(agw, id, alias, simulator), "orc8r.hostAliases.ip") == Get(agw.spec.values, "orc8r.hostAliases.ip")
  {
    hide FinalValues, KmodValues, BaseValues, OutsideSelectors;
    SettingsOutside();
    KeyTextsDiffer();
    NoOwnAlias(agw, id);
    SettingOpen(agw, id, alias, simulator, "orc8r.hostAliases.ip");
  }

  /** The address of the Orc8r service is discovered exactly when aliases are not switched off and the service has a cluster address. */
  lemma AliasExact(store: Store, spec: Spec, values: StringMap, failing: set<Call>, ip: string)
    ensures HostAlias(store, spec, values, failing) == Alias(ip) <==>
      var release := if spec.orc8rReleaseName != "" then spec.orc8rReleaseName else "magma-fullstack";
      var service := ObjectKey(Service, if spec.orc8rNamespace != "" then spec.orc8rNamespace else "magma",
                               if spec.nmsAPIHost != "" then spec.nmsAPIHost else release + "-nginx-proxy");
      && Get(values, "orc8r.hostAliases.enabled") != "false" && ServiceGet !in failing
      && service in store && Get(store[service].data, "clusterIP") == ip && ip != "" && ip != "None"
  {
  }

  // ----- In the rendered manifest -----

  lemma RowRenders(p: Placeholder, target: Target, values: StringMap)
    ensures Render(RowOf(p, target.release, target.namespace, values).pattern, target, values) == RowOf(p, target.release, target.namespace, values).becomes
  {
    hide Render, RowOf;
    TableExact(target, values);
  }

  /**
   End to end into the manifest: release and namespace, the stored key and hardware ID, the
   interfaces, and the address of the Orc8r service.
   */
  lemma RenderedSettings(objects: Store, agw: Agw, op: Operator, o: Oracle, simulator: bool)
    requires ReconcileIdentity(objects, agw, op.crypto, o).identity.Some?
    ensures var step := ReconcileIdentity(objects, agw, op.crypto, o);
      var stored := ObjectKey(Secret, agw.namespace, step.identity.value.secretName);
      var v, t, u := PassFinal(objects, agw, op, o, simulator), AgwTarget(agw), agw.spec.values;
      && stored in step.store
      && Render("agwrel", t, v) == (if agw.spec.releaseName != "" then agw.spec.releaseName else agw.name)
      && Render("agwns", t, v) == agw.namespace
      && Has(step.store[stored].data, "gw_challenge.key.b64", Render("gwchallenge" + "placeholder", t, v))
      && Has(step.store[stored].data, "hardware_id", Render("hardware" + "placeholder", t, v))
      && Render("s1" + "placeholder", t, v) == Overridden(u, "nodePrep.interfaces.s1.parent", agw.spec.s1Interface)
      && Render("sgi" + "placeholder", t, v) == Overridden(u, "nodePrep.interfaces.nat.parent", agw.spec.sgiInterface)
      && var alias := HostAlias(step.store, agw.spec, PassValues(agw, step.identity.value), o.failing);
         Render("10.0.0.1", t, v) == if alias.Alias? then alias.ip else Chosen(u, "orc8r.hostAliases.ip", "10.152.183.140")
  {
    hide Render, ReconcileIdentity, FinalValues, PassValues, HostAlias, Consistent, Overridden, Chosen;
    var step := ReconcileIdentity(objects, agw, op.crypto, o);
    var id := step.identity.value;
    var alias := HostAlias(step.store, agw.spec, PassValues(agw, id), o.failing);
    var v, t := PassFinal(objects, agw, op, o, simulator), AgwTarget(agw);
    assert v == FinalValues(agw, id, alias, simulator);
    IdentityHeld(objects, agw, op.crypto, o);
    ReleaseRender(agw, v);
    IdentityRender(agw, id, alias, simulator);
    InterfaceRender(agw, id, alias, simulator);
    if alias.Alias? {
      AliasExact(step.store, agw.spec, PassValues(agw, id), o.failing, alias.ip);
    }
    AliasRenders(agw, id, alias, simulator, v, t);
  }

  lemma ReleaseRender(agw: Agw, v: StringMap)
    ensures Render("agwrel", AgwTarget(agw), v) == (if agw.spec.releaseName != "" then agw.spec.releaseName else agw.name)
    ensures Render("agwns", AgwTarget(agw), v) == agw.namespace
  {
    hide Render;
    RowRenders(AgwRelease, AgwTarget(agw), v);
    RowRenders(AgwNamespace, AgwTarget(agw), v);
  }

  lemma IdentityRender(agw: Agw, id: Identity, alias: Alias, simulator: bool)
    ensures var v, t := FinalValues(agw, id, alias, simulator), AgwTarget(agw);
      Render("gwchallenge" + "placeholder", t, v) == id.privateKeyB64 && Render("hardware" + "placeholder", t, v) == id.hardwareID
  {
    hide Render, FinalValues, AgwTarget;
    var v, t := FinalValues(agw, id, alias, simulator), AgwTarget(agw);
    RowRenders(Challenge, t, v);
    RowRenders(Hardware, t, v);
    ForcedSettings(agw, id, alias, simulator);
  }

  lemma InterfaceRender(agw: Agw, id: Identity, alias: Alias, simulator: bool)
    ensures var v, t, u := FinalValues(agw, id, alias, simulator), AgwTarget(agw), agw.spec.values;
      && Render("s1" + "placeholder", t, v) == Overridden(u, "nodePrep.interfaces.s1.parent", agw.spec.s1Interface)
      && Render("sgi" + "placeholder", t, v) == Overridden(u, "nodePrep.interfaces.nat.parent", agw.spec.sgiInterface)
  {
    hide Render, FinalValues, AgwTarget, Overridden;
    var v, t := FinalValues(agw, id, alias, simulator), AgwTarget(agw);
    RowRenders(S1, t, v);
    RowRenders(Sgi, t, v);
    OpenSettings(agw, id, alias, simulator);
  }

  lemma AliasRenders(agw: Agw, id: Identity, alias: Alias, simulator: bool, v: StringMap, t: Target)
    requires v == FinalValues(agw, id, alias, simulator) && (alias.Alias? ==> alias.ip != "")
    ensures Render("10.0.0.1", t, v) == if alias.Alias? then alias.ip else Chosen(agw.spec.values, "orc8r.hostAliases.ip", "10.152.183.140")
  {
    hide Render, FinalValues;
    RowRenders(HostAliasIp, t, v);
    ForcedSettings(agw, id, alias, simulator);
    if !alias.Alias? {
      AliasOpen(agw, id, alias, simulator);
    }
  }

  // ----- In the pod specifications -----

  /** The selector for an object of this name: the simulator's own, the node selectors for node preparation, and for workloads of a gated gateway the ready label besides. */
  function SelectorFor(spec: Spec, name: string): StringMap {
    var nodes := spec.agwNodeSelector + spec.agwNodeLabelSelector;
    var gated := spec.datapath.enabled != Some(false);
    if Contains(name, "ueransim") || Contains(name, "iperf3") then spec.ueransimNodeSelector
    else if name == "agw-node-prep" then if gated then nodes else map[]
    else if gated then
      nodes[(if spec.datapath.readyLabelKey != "" then spec.datapath.readyLabelKey else "magma.io/agw-datapath-ready") :=
            if spec.datapath.readyLabelValue != "" then spec.datapath.readyLabelValue else "true"]
    else nodes
  }

  /** Where it belongs in an object of this kind. */
  function SelectorField(kind: Kind): seq<string> {
    match kind
    case Deployment | DaemonSet | StatefulSet | Job => ["spec", "template", "spec", "nodeSelector"]
    case CronJob => ["spec", "jobTemplate", "spec", "template", "spec", "nodeSelector"]
    case Pod => ["spec", "nodeSelector"]
    case _ => []
  }

  lemma SelectorIntended(spec: Spec, name: string)
    ensures IntendedSelector(spec, RoleOf(name)) == SelectorFor(spec, name)
  {
    hide Contains;
  }

  lemma FieldIs(kind: Kind)
    ensures SelectorPath(kind) == SelectorField(kind) && (PodSpecPath(kind).None? <==> SelectorField(kind) == [])
  {
    assert ["spec", "template", "spec"] + ["nodeSelector"] == ["spec", "template", "spec", "nodeSelector"];
    assert ["spec", "jobTemplate", "spec", "template", "spec"] + ["nodeSelector"] == ["spec", "jobTemplate", "spec", "template", "spec", "nodeSelector"];
    assert ["spec"] + ["nodeSelector"] == ["spec", "nodeSelector"];
  }

  /** The selector of every pod-bearing object, from the specification to the field of the object. */
  lemma PlacementLiterally(agw: Agw, id: Identity, alias: Alias, simulator: bool, kind: Kind, name: string, current: Fields, placed: Fields)
    requires NoSelectorOverride(agw.spec.values) && RegularSelectors(agw.spec)
    requires PlacedAs(kind, name, current, FinalValues(agw, id, alias, simulator), placed)
    ensures placed ==
      if SelectorField(kind) == [] || SelectorFor(agw.spec, name) == map[] then current else current[SelectorField(kind) := SelectorFor(agw.spec, name)]
  {
    hide FinalValues, RegularSelectors, NoSelectorOverride, PlacedAs, IntendedSelector, SelectorFor, SelectorField, SelectorPath, PodSpecPath;
    PlacementExact(agw, id, alias, simulator, kind, name, current, placed);
    SelectorIntended(agw.spec, name);
    FieldIs(kind);
  }

  // ----- In the registration payload -----

  /** The payload for a gateway of this specification with this hardware ID and public key. */
  function PayloadFor(spec: Spec, hardwareId: string, publicKey: string): Payload {
    var reg := spec.registration;
    Payload(spec.accessGatewayID,
            if reg.name != "" then reg.name else spec.accessGatewayID,
            if reg.description != "" then reg.description else "Managed by magma-operator",
            if reg.tier != "" then reg.tier else "default",
            hardwareId, publicKey)
  }

  /** The payload of every pass is made of the specification and of the entries of the stored Secret. */
  lemma PayloadCarries(w: World, op: Operator, o: Oracle)
    requires w.cr.Some? && ReconcileIdentity(w.objects, w.cr.value, op.crypto, o).identity.Some?
    ensures var step := ReconcileIdentity(w.objects, w.cr.value, op.crypto, o);
      var stored := ObjectKey(Secret, w.cr.value.namespace, step.identity.value.secretName);
      && stored in step.store
      && var data := step.store[stored].data;
         && "hardware_id" in data && "challenge_public_key.b64" in data
         && PayloadOf(w, op, o) == op.crypto.json(PayloadFor(w.cr.value.spec, data["hardware_id"], data["challenge_public_key.b64"]))
  {
    hide ReconcileIdentity, Consistent;
    IdentityHeld(w.objects, w.cr.value, op.crypto, o);
  }

  /** The registration Job that a pass creates carries the entries of the identity Secret that this pass leaves behind. */
  lemma JobCarries(w: World, op: Operator, o: Oracle)
    requires w.cr.Some? && IdentityApart(op, w.cr.value) && TamePass(w.objects, w.cr.value, op, o)
    requires Spared(w.objects, w.cr.value, op, o, RegistrationJobKey(w.cr.value))
    requires RegistrationJobKey(w.cr.value) !in w.objects && RegistrationJobKey(w.cr.value) in Pass(w, op, o).world.objects
    ensures var after, stored := Pass(w, op, o).world.objects, IdentityKey(w.cr.value);
      && stored in after
      && var data := after[stored].data;
         && "hardware_id" in data && "challenge_public_key.b64" in data
         && op.crypto.json(PayloadFor(w.cr.value.spec, data["hardware_id"], data["challenge_public_key.b64"]))
              == Some(after[RegistrationJobKey(w.cr.value)].body)
  {
    hide Pass, Trails, Spared, IdentityApart, TamePass, ReconcileIdentity, PayloadOf, Consistent, RegistrationJobKey, PayloadFor;
    RegistrationCreated(w, op, o, w.cr.value);
    NotDeregistration(w.cr.value);
    var t := FlowCreated(w, op, o, RegistrationJobKey(w.cr.value));
    TrailStart(w.objects, w.cr.value, op, o, t);
    FlowKeepsIdentity(w.objects, w.cr.value, op, o, t);
    PayloadNeedsIdentity(w, op, o);
    PayloadCarries(w, op, o);
    IdentityHeld(w.objects, w.cr.value, op.crypto, o);
  }

  lemma NotDeregistration(agw: Agw)
    ensures RegistrationJobKey(agw) != DeregistrationJobKey(agw) && RegistrationJobKey(agw).kind.Job?
  {
    JobNamesDiffer(agw, agw);
  }

  lemma PayloadNeedsIdentity(w: World, op: Operator, o: Oracle)
    requires w.cr.Some? && PayloadOf(w, op, o).Some?
    ensures ReconcileIdentity(w.objects, w.cr.value, op.crypto, o).identity.Some?
  {
    hide ReconcileIdentity;
  }

  // ----- In the status -----

  /** The status names the Secret and repeats its hardware ID and the hash of its public key. */
  predicate Detailed(status: AgwStatus, id: Identity) {
    status.identitySecretName == id.secretName && status.hardwareID == id.hardwareID && status.challengePublicKeyHash == id.publicKeyHash
  }

  lemma IdentityDetails(l: Local, crypto: Crypto, o: Oracle)
    requires IdentityStage(l, crypto, o).Go?
    ensures Detailed(IdentityStage(l, crypto, o).local.agw.status, IdentityStage(l, crypto, o).value)
  {
    hide ReconcileIdentity;
  }

  lemma DatapathDetails(l: Local, o: Oracle, id: Identity)
    requires Detailed(l.agw.status, id)
    ensures Detailed(DatapathStage(l, o).local.agw.status, id)
  {
    hide CheckNodes;
  }

  lemma TrustDetails(l: Local, values: StringMap, crypto: Crypto, o: Oracle, id: Identity)
    requires Detailed(l.agw.status, id)
    ensures Detailed(TrustStage(l, values, crypto, o).local.agw.status, id)
  {
    hide HostAlias, ReconcileTrustBundle;
  }

  lemma RegistrationDetails(l: Local, id: Identity, crypto: Crypto, o: Oracle)
    requires Detailed(l.agw.status, id)
    ensures Detailed(RegistrationStage(l, id, crypto, o).local.agw.status, id)
    ensures var s := RegistrationStage(l, id, crypto, o).local.agw.status;
      s.trustBundleHash == l.agw.status.trustBundleHash && s.orc8rServiceIP == l.agw.status.orc8rServiceIP
  {
    hide ReconcileRegistration;
  }

  lemma ApplyDetails(l: Local, gate: Gate, simulator: Simulator, desired: seq<Desired>, crypto: Crypto, o: Oracle)
    ensures var s := ApplyFlow(l, gate, simulator, desired, crypto, o).local.agw.status;
      s == l.agw.status.(conditions := s.conditions)
  {
    hide ApplyStage, LabelStage, ReconcileValidation;
    var a := ApplyStage(l, desired, simulator, o);
    ApplyFacts(l, desired, simulator, o);
    LabelFacts(a.local, gate, o);
  }

  lemma TrustFlowDetails(l: Local, id: Identity, gate: Gate, op: Operator, o: Oracle)
    requires Detailed(l.agw.status, id)
    ensures Detailed(TrustFlow(l, id, gate, op, o).local.agw.status, id)
  {
    hide TrustStage, RegistrationStage, SimulatorStage, ApplyFlow, AgwObjects, FinalValues, PassValues;
    var values := PassValues(l.agw, id);
    var a := TrustStage(l, values, op.crypto, o);
    TrustDetails(l, values, op.crypto, o, id);
    if a.Go? {
      var b := RegistrationStage(a.local, id, op.crypto, o);
      RegistrationDetails(a.local, id, op.crypto, o);
      if b.Go? {
        var c := SimulatorStage(b.local, o);
        SimulatorTrail(b.local, o);
        if c.Go? {
          ApplyDetails(c.local, gate, c.value, AgwObjects(l.agw, FinalValues(l.agw, id, a.value, c.value.On?), op), op.crypto, o);
        }
      }
    }
  }

  /** Whatever status a flow writes once its identity step has succeeded, it has the details of that identity, of the release and of the generation. */
  lemma FlowDetails(l: Local, op: Operator, o: Oracle)
    requires ReconcileIdentity(l.objects, l.agw, op.crypto, o).identity.Some?
    ensures var id, out := ReconcileIdentity(l.objects, l.agw, op.crypto, o).identity.value, MainFlow(l, op, o);
      Detailed(FinalStatus(out.local.agw, out.write), id)
    ensures var s := FinalStatus(MainFlow(l, op, o).local.agw, MainFlow(l, op, o).write);
      && s.releaseName == (if l.agw.spec.releaseName != "" then l.agw.spec.releaseName else l.agw.name)
      && s.releaseNamespace == l.agw.namespace && s.observedGeneration == l.agw.generation
  {
    FlowKeepsResource(l, op, o);
    hide DatapathStage, TrustFlow, ReconcileIdentity, WithDetails;
    var a := IdentityStage(l, op.crypto, o);
    IdentityDetails(l, op.crypto, o);
    DatapathDetails(a.local, o, a.value);
    var b := DatapathStage(a.local, o);
    if b.Go? {
      TrustFlowDetails(b.local, a.value, b.value, op, o);
    }
  }
}
