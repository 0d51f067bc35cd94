/** The values a pass hands to the manifest, and the node selectors they carry. */
module AgwValues {
  import opened GoMaps
  import opened Objects
  import opened AgwModel
  import opened AgwIdentity
  import opened Placement
  import opened AgwTrust
  import SelectorKeys

  function SetValue(values: StringMap, key: string, value: string): StringMap {
    if value != "" then values[key := value] else values
  }

  function WithIdentityValues(values: StringMap, id: Identity): StringMap {
    values["config.gwChallenge" := id.privateKeyB64]["gatewayIdentity.snowflake" := id.hardwareID]
  }

  function FixedValues(agw: Agw): StringMap {
    map["namespace" := agw.namespace, "agwAntiAffinity.enabled" := "true", "simulator.enabled" := "false",
        "simulator.antiAffinity.separateFromAgw" := "true"]
  }

  function BaseValues(agw: Agw, id: Identity): StringMap {
    var v1 := SetValue(FixedValues(agw), "nodePrep.interfaces.s1.parent", agw.spec.s1Interface);
    var v2 := SetValue(v1, "nodePrep.interfaces.nat.parent", agw.spec.sgiInterface);
    WithIdentityValues(v2, id)
  }

  /** The selector that AGW workloads get: gated workloads also ask for the ready label. */
  function WorkloadSelector(spec: Spec): StringMap {
    if DatapathGateEnabled(spec.datapath)
    then NodeSelector(spec)[ReadyLabelKey(spec.datapath) := ReadyLabelValue(spec.datapath)]
    else NodeSelector(spec)
  }

  function PrepSelector(spec: Spec): StringMap {
    if DatapathGateEnabled(spec.datapath) then NodeSelector(spec) else map[]
  }

  function KmodValues(values: StringMap, dp: DatapathSpec): StringMap {
    if DatapathGateEnabled(dp) then
      SetValue(values["nodePrep.requireMagmaOvsKmod" := if dp.requireMagmaOvsKmod then "true" else "false"],
               "nodePrep.magmaOvsKmodUpgradePath", dp.ovsKmodUpgradePath)
    else values
  }

  ghost function SelectorEntries(values: StringMap, spec: Spec): StringMap {
    KmodValues(values + Stored("nodePrep.nodeSelector", PrepSelector(spec)) + Stored("nodeSelector", WorkloadSelector(spec)), spec.datapath)
    + Stored("simulator.nodeSelector", spec.ueransimNodeSelector)
  }

  /** The values of one pass, before Orc8r discovery and the simulator decision. */
  ghost function PassValues(agw: Agw, id: Identity): StringMap {
    var merged := SelectorEntries(BaseValues(agw, id), agw.spec) + agw.spec.values;
    WithIdentityValues(merged, id)["simulator.enabled" := "false"]
  }

  /** The values the manifest is rendered with. */
  ghost function FinalValues(agw: Agw, id: Identity, alias: Alias, simulator: bool): StringMap {
    WithAlias(PassValues(agw, id), alias)["simulator.enabled" := if simulator then "true" else "false"]
  }

  method AddSelectorEntries(base: StringMap, spec: Spec) returns (values: StringMap)
    ensures values == SelectorEntries(base, spec)
  {
    values := base;
    var selector := NodeSelector(spec);
    if DatapathGateEnabled(spec.datapath) {
      values := SetSelectorValues(values, "nodePrep.nodeSelector", selector);
      var workload := selector[ReadyLabelKey(spec.datapath) := ReadyLabelValue(spec.datapath)];
      values := SetSelectorValues(values, "nodeSelector", workload);
      values := KmodValues(values, spec.datapath);
    } else {
      NothingStored(values, "nodePrep.nodeSelector");
      values := SetSelectorValues(values, "nodeSelector", selector);
    }
    values := SetSelectorValues(values, "simulator.nodeSelector", spec.ueransimNodeSelector);
  }

  method BuildValues(agw: Agw, id: Identity) returns (values: StringMap)
    ensures values == PassValues(agw, id)
  {
    values := map["namespace" := agw.namespace];
    values := values["agwAntiAffinity.enabled" := "true"];
    values := values["simulator.enabled" := "false"];
    values := values["simulator.antiAffinity.separateFromAgw" := "true"];
    if agw.spec.s1Interface != "" {
      values := values["nodePrep.interfaces.s1.parent" := agw.spec.s1Interface];
    }
    if agw.spec.sgiInterface != "" {
      values := values["nodePrep.interfaces.nat.parent" := agw.spec.sgiInterface];
    }
    values := values["config.gwChallenge" := id.privateKeyB64];
    values := values["gatewayIdentity.snowflake" := id.hardwareID];
    assert values == BaseValues(agw, id);
    hide BaseValues, SelectorEntries;
    values := AddSelectorEntries(values, agw.spec);
    values := values + agw.spec.values;
    values := WithIdentityValues(values, id);
    values := values["simulator.enabled" := "false"];
  }

  lemma NothingStored(values: StringMap, prefix: string)
    ensures values + Stored(prefix, map[]) == values
  {
    assert Stored(prefix, map[]) == map[];
  }

  // ----- End-to-end placement -----

  /** Settings whose names lie outside the selector prefixes. */
  predicate OutsideSelectors(key: string) {
    forall role: Role :: !(PrefixOf(role) <= key)
  }

  /** The user's own values do not override a selector. */
  predicate NoSelectorOverride(values: StringMap) {
    forall k :: k in values ==> OutsideSelectors(k)
  }

  /** A few characters that keep a name outside the selector prefixes. */
  predicate ClearlyOutside(key: string) {
    && |key| > 10
    && (key[0] == 's' ==> key[10] != 'n')
    && (key[0] == 'n' ==> key[4] == 'P' && key[9] != 'n')
  }

  lemma ClearlyOutsideIs(key: string)
    requires ClearlyOutside(key) || |key| < 13
    ensures OutsideSelectors(key)
  {
    forall role: Role
      ensures !(PrefixOf(role) <= key)
    {
      var p := PrefixOf(role);
      assert |p| >= 13;
      if role == PlainObject {
        assert p[0] == 'n' && p[4] == 'S';
      } else if role == NodePrepObject {
        assert p[0] == 'n' && p[9] == 'n';
      } else {
        assert p[0] == 's' && p[10] == 'n';
      }
    }
  }

  lemma FixedKeysOutside()
    ensures OutsideSelectors("namespace") && OutsideSelectors("agwAntiAffinity.enabled")
    ensures OutsideSelectors("simulator.enabled") && OutsideSelectors("simulator.antiAffinity.separateFromAgw")
    ensures OutsideSelectors("config.gwChallenge") && OutsideSelectors("gatewayIdentity.snowflake")
    ensures OutsideSelectors("orc8r.hostAliases.enabled") && OutsideSelectors("orc8r.hostAliases.ip")
  {
    ClearlyOutsideIs("namespace");
    ClearlyOutsideIs("agwAntiAffinity.enabled");
    ClearlyOutsideIs("simulator.enabled");
    ClearlyOutsideIs("simulator.antiAffinity.separateFromAgw");
    ClearlyOutsideIs("config.gwChallenge");
    ClearlyOutsideIs("gatewayIdentity.snowflake");
    ClearlyOutsideIs("orc8r.hostAliases.enabled");
    ClearlyOutsideIs("orc8r.hostAliases.ip");
  }

  lemma PrepKeysOutside()
    ensures OutsideSelectors("nodePrep.interfaces.s1.parent") && OutsideSelectors("nodePrep.interfaces.nat.parent")
    ensures OutsideSelectors("nodePrep.requireMagmaOvsKmod") && OutsideSelectors("nodePrep.magmaOvsKmodUpgradePath")
  {
    ClearlyOutsideIs("nodePrep.interfaces.s1.parent");
    ClearlyOutsideIs("nodePrep.interfaces.nat.parent");
    ClearlyOutsideIs("nodePrep.requireMagmaOvsKmod");
    ClearlyOutsideIs("nodePrep.magmaOvsKmodUpgradePath");
  }

  lemma OutsideUpdate(values: StringMap, key: string, value: string, role: Role)
    requires OutsideSelectors(key)
    ensures Under(values[key := value], PrefixOf(role)) == Under(values, PrefixOf(role))
  {
  }

  lemma OutsideOverride(values: StringMap, more: StringMap, role: Role)
    requires NoSelectorOverride(more)
    ensures Under(values + more, PrefixOf(role)) == Under(values, PrefixOf(role))
  {
  }

  /** The name under which a role's selector is stored, without the closing dot. */
  function StoreName(role: Role): string {
    match role
    case SimulatorObject => "simulator.nodeSelector"
    case NodePrepObject => "nodePrep.nodeSelector"
    case PlainObject => "nodeSelector"
  }

  lemma StoreNames(role: Role)
    ensures StoreName(role) + "." == PrefixOf(role)
  {
  }

  lemma RolesApart(a: Role, b: Role)
    requires a != b
    ensures !(PrefixOf(a) <= PrefixOf(b))
  {
    assert "simulator.nodeSelector."[0] == 's' && "nodePrep.nodeSelector."[4] == 'P' && "nodeSelector."[4] == 'S';
  }

  /** Entries stored for one role appear under that role's prefix only. */
  lemma UnderRole(role: Role, selector: StringMap, other: Role)
    ensures Under(Stored(StoreName(role), selector), PrefixOf(other)) == if role == other then Stored(StoreName(role), selector) else map[]
  {
    StoreNames(role);
    if role == other {
      UnderStored(StoreName(role), selector);
    } else {
      RolesApart(role, other);
      RolesApart(other, role);
      UnderOther(StoreName(role), selector, PrefixOf(other));
    }
  }

  function IntendedSelector(spec: Spec, role: Role): StringMap {
    match role
    case SimulatorObject => spec.ueransimNodeSelector
    case NodePrepObject => PrepSelector(spec)
    case PlainObject => WorkloadSelector(spec)
  }

  lemma SetValueUnder(values: StringMap, key: string, value: string, role: Role)
    requires OutsideSelectors(key)
    ensures Under(SetValue(values, key, value), PrefixOf(role)) == Under(values, PrefixOf(role))
  {
    OutsideUpdate(values, key, value, role);
  }

  lemma IdentityUnder(values: StringMap, id: Identity, role: Role)
    ensures Under(WithIdentityValues(values, id), PrefixOf(role)) == Under(values, PrefixOf(role))
  {
    FixedKeysOutside();
    OutsideUpdate(values, "config.gwChallenge", id.privateKeyB64, role);
    OutsideUpdate(values["config.gwChallenge" := id.privateKeyB64], "gatewayIdentity.snowflake", id.hardwareID, role);
  }

  lemma BaseUnder(agw: Agw, id: Identity, role: Role)
    ensures Under(BaseValues(agw, id), PrefixOf(role)) == map[]
  {
    FixedKeysOutside();
    PrepKeysOutside();
    var v0 := FixedValues(agw);
    assert Under(v0, PrefixOf(role)) == map[];
    SetValueUnder(v0, "nodePrep.interfaces.s1.parent", agw.spec.s1Interface, role);
    var v1 := SetValue(v0, "nodePrep.interfaces.s1.parent", agw.spec.s1Interface);
    SetValueUnder(v1, "nodePrep.interfaces.nat.parent", agw.spec.sgiInterface, role);
    IdentityUnder(SetValue(v1, "nodePrep.interfaces.nat.parent", agw.spec.sgiInterface), id, role);
  }

  lemma KmodUnder(values: StringMap, dp: DatapathSpec, role: Role)
    ensures Under(KmodValues(values, dp), PrefixOf(role)) == Under(values, PrefixOf(role))
  {
    PrepKeysOutside();
    if DatapathGateEnabled(dp) {
      var flag := if dp.requireMagmaOvsKmod then "true" else "false";
      OutsideUpdate(values, "nodePrep.requireMagmaOvsKmod", flag, role);
      SetValueUnder(values["nodePrep.requireMagmaOvsKmod" := flag], "nodePrep.magmaOvsKmodUpgradePath", dp.ovsKmodUpgradePath, role);
    }
  }

  lemma SumUnder(p: string, base: StringMap, a: StringMap, b: StringMap, mid: StringMap, c: StringMap)
    requires Under(base, p) == map[] && Under(mid, p) == Under(base + a + b, p)
    ensures Under(mid + c, p) == Under(a, p) + Under(b, p) + Under(c, p)
  {
    UnderSum(base, a, p);
    UnderSum(base + a, b, p);
    UnderSum(mid, c, p);
  }

  lemma OnlyOne(a: StringMap, b: StringMap, c: StringMap, role: Role)
    requires role != NodePrepObject ==> a == map[]
    requires role != PlainObject ==> b == map[]
    requires role != SimulatorObject ==> c == map[]
    ensures a + b + c == match role case NodePrepObject => a case PlainObject => b case SimulatorObject => c
  {
  }

  lemma EntriesUnder(values: StringMap, spec: Spec, role: Role)
    requires Under(values, PrefixOf(role)) == map[]
    ensures Under(SelectorEntries(values, spec), PrefixOf(role)) == Stored(StoreName(role), IntendedSelector(spec, role))
  {
    var p := PrefixOf(role);
    var prep := Stored(StoreName(NodePrepObject), PrepSelector(spec));
    var plain := Stored(StoreName(PlainObject), WorkloadSelector(spec));
    var sim := Stored(StoreName(SimulatorObject), spec.ueransimNodeSelector);
    UnderRole(NodePrepObject, PrepSelector(spec), role);
    UnderRole(PlainObject, WorkloadSelector(spec), role);
    UnderRole(SimulatorObject, spec.ueransimNodeSelector, role);
    var mid := KmodValues(values + prep + plain, spec.datapath);
    KmodUnder(values + prep + plain, spec.datapath, role);
    SumUnder(p, values, prep, plain, mid, sim);
    OnlyOne(Under(prep, p), Under(plain, p), Under(sim, p), role);
  }

  /** What one pass stores under each prefix is exactly the selector intended for that role. */
  lemma ValuesUnder(agw: Agw, id: Identity, role: Role)
    requires NoSelectorOverride(agw.spec.values)
    ensures Under(PassValues(agw, id), PrefixOf(role)) == Stored(StoreName(role), IntendedSelector(agw.spec, role))
  {
    FixedKeysOutside();
    BaseUnder(agw, id, role);
    var entries := SelectorEntries(BaseValues(agw, id), agw.spec);
    EntriesUnder(BaseValues(agw, id), agw.spec, role);
    OutsideOverride(entries, agw.spec.values, role);
    var merged := entries + agw.spec.values;
    IdentityUnder(merged, id, role);
    OutsideUpdate(WithIdentityValues(merged, id), "simulator.enabled", "false", role);
  }

  lemma FinalUnder(agw: Agw, id: Identity, alias: Alias, simulator: bool, role: Role)
    requires NoSelectorOverride(agw.spec.values)
    ensures Under(FinalValues(agw, id, alias, simulator), PrefixOf(role)) == Stored(StoreName(role), IntendedSelector(agw.spec, role))
  {
    ValuesUnder(agw, id, role);
    FixedKeysOutside();
    var v := PassValues(agw, id);
    if alias.Alias? {
      OutsideUpdate(v, "orc8r.hostAliases.enabled", "true", role);
      OutsideUpdate(v["orc8r.hostAliases.enabled" := "true"], "orc8r.hostAliases.ip", alias.ip, role);
    }
    OutsideUpdate(WithAlias(v, alias), "simulator.enabled", if simulator then "true" else "false", role);
  }

  predicate RegularSelectors(spec: Spec) {
    RegularKeys(NodeSelector(spec)) && RegularKeys(spec.ueransimNodeSelector) && SelectorKeys.Regular(ReadyLabelKey(spec.datapath))
  }

  lemma SelectorExact(agw: Agw, id: Identity, alias: Alias, simulator: bool, name: string, selector: StringMap)
    requires NoSelectorOverride(agw.spec.values) && RegularSelectors(agw.spec)
    requires ReadsAs(FinalValues(agw, id, alias, simulator), PrefixOf(RoleOf(name)), selector)
    ensures selector == IntendedSelector(agw.spec, RoleOf(name))
  {
    var role := RoleOf(name);
    FinalUnder(agw, id, alias, simulator, role);
    StoreNames(role);
    SelectorRoundTrip(FinalValues(agw, id, alias, simulator), StoreName(role), IntendedSelector(agw.spec, role), selector);
  }

  /**
   End to end: in whatever order the values map is enumerated, every pod-bearing object gets
   exactly the selector intended for its role, in its pod specification and nowhere else; an
   object whose intended selector is empty, or that bears no pods, is left as it is.
   */
  lemma PlacementExact(agw: Agw, id: Identity, alias: Alias, simulator: bool, kind: Kind, name: string, current: Fields, placed: Fields)
    requires NoSelectorOverride(agw.spec.values) && RegularSelectors(agw.spec)
    requires PlacedAs(kind, name, current, FinalValues(agw, id, alias, simulator), placed)
    ensures var intended := IntendedSelector(agw.spec, RoleOf(name));
      placed == if intended == map[] || PodSpecPath(kind).None? then current else current[SelectorPath(kind) := intended]
  {
    hide FinalValues, IntendedSelector, ReadsAs, RegularSelectors;
    var values := FinalValues(agw, id, alias, simulator);
    var selector :| ReadsAs(values, PrefixOf(RoleOf(name)), selector) &&
      placed == (if selector == map[] || PodSpecPath(kind).None? then current else current[SelectorPath(kind) := selector]);
    SelectorExact(agw, id, alias, simulator, name, selector);
  }

  /** The gate's own label does not contradict the node selector. */
  predicate GateFitsSelector(spec: Spec) {
    var key := ReadyLabelKey(spec.datapath);
    key in NodeSelector(spec) ==> NodeSelector(spec)[key] == ReadyLabelValue(spec.datapath)
  }

  /** Any labels accepted by a gated workload carry the ready label. */
  lemma GatedCarriesLabel(spec: Spec, labels: StringMap)
    requires DatapathGateEnabled(spec.datapath) && Carries(labels, WorkloadSelector(spec))
    ensures Get(labels, ReadyLabelKey(spec.datapath)) == ReadyLabelValue(spec.datapath)
  {
    assert ReadyLabelKey(spec.datapath) in WorkloadSelector(spec);
  }

  /**
   A gated workload can only use nodes that also match the raw selector exactly when the raw
   selector does not ask for another value of the ready key.
   */
  lemma GatedWithinSelector(spec: Spec)
    requires DatapathGateEnabled(spec.datapath)
    ensures (forall labels: StringMap :: Carries(labels, WorkloadSelector(spec)) ==> Carries(labels, NodeSelector(spec))) <==> GateFitsSelector(spec)
  {
    var raw, gated := NodeSelector(spec), WorkloadSelector(spec);
    if GateFitsSelector(spec) {
      forall labels: StringMap | Carries(labels, gated)
        ensures Carries(labels, raw)
      {
        forall k | k in raw
          ensures k in labels && labels[k] == raw[k]
        {
          assert k in gated;
        }
      }
    } else {
      assert Carries(gated, gated);
      assert !Carries(gated, raw) by { assert ReadyLabelKey(spec.datapath) in raw; }
    }
  }
}
