/** The values that the Orc8r manifest is rendered with, key by key. */
module Orc8rSettings {
  import opened GoMaps
  import opened Objects
  import opened Orc8r
  import ValidationKey

  function PortText(port: Option<Int32>): string {
    match port
    case None => ""
    case Some(n) => ValidationKey.Decimal(n)
  }

  lemma SetIfGet(values: StringMap, k: string, v: string, key: string)
    ensures Get(SetIf(values, k, v), key) == if key == k && v != "" then v else Get(values, key)
  {
  }

  // ----- Lists -----

  function ListKey(prefix: string, i: nat): string {
    prefix + "[" + ValidationKey.Decimal(i) + "]"
  }

  lemma ListKeysDiffer(prefix: string, i: nat, j: nat)
    ensures ListKey(prefix, i) == ListKey(prefix, j) ==> i == j
  {
    var a, b := ValidationKey.Decimal(i), ValidationKey.Decimal(j);
    if ListKey(prefix, i) == ListKey(prefix, j) {
      assert a == ListKey(prefix, i)[|prefix| + 1..|ListKey(prefix, i)| - 1];
      assert b == ListKey(prefix, j)[|prefix| + 1..|ListKey(prefix, j)| - 1];
      ValidationKey.DecimalInjective(i, j);
    }
  }

  lemma ListStep(values: StringMap, prefix: string, entries: seq<string>)
    requires entries != []
    ensures var n := |entries| - 1;
      ListValues(values, prefix, entries) == SetIf(ListValues(values, prefix, entries[..n]), ListKey(prefix, n), entries[n])
  {
  }

  lemma {:induction false} ListGet(values: StringMap, prefix: string, entries: seq<string>, i: nat)
    requires i < |entries|
    ensures Get(ListValues(values, prefix, entries), ListKey(prefix, i)) == if entries[i] != "" then entries[i] else Get(values, ListKey(prefix, i))
  {
    hide ListValues, ListKey, SetIf, Get;
    var n := |entries| - 1;
    ListStep(values, prefix, entries);
    SetIfGet(ListValues(values, prefix, entries[..n]), ListKey(prefix, n), entries[n], ListKey(prefix, i));
    ListKeysDiffer(prefix, i, n);
    if i < n {
      ListGet(values, prefix, entries[..n], i);
    } else {
      ListAbove(values, prefix, entries[..n], n);
    }
  }

  lemma {:induction false} ListAbove(values: StringMap, prefix: string, entries: seq<string>, i: nat)
    requires i >= |entries|
    ensures Get(ListValues(values, prefix, entries), ListKey(prefix, i)) == Get(values, ListKey(prefix, i))
  {
    hide ListKey, SetIf, Get;
    if entries != [] {
      var n := |entries| - 1;
      ListStep(values, prefix, entries);
      SetIfGet(ListValues(values, prefix, entries[..n]), ListKey(prefix, n), entries[n], ListKey(prefix, i));
      ListKeysDiffer(prefix, i, n);
      ListAbove(values, prefix, entries[..n], i);
    }
  }

  lemma {:induction false} ListOther(values: StringMap, prefix: string, entries: seq<string>, key: string)
    requires !(prefix <= key)
    ensures Get(ListValues(values, prefix, entries), key) == Get(values, key)
  {
    hide SetIf, Get;
    if entries != [] {
      var n := |entries| - 1;
      ListStep(values, prefix, entries);
      SetIfGet(ListValues(values, prefix, entries[..n]), ListKey(prefix, n), entries[n], key);
      assert prefix <= ListKey(prefix, n);
      ListOther(values, prefix, entries[..n], key);
    }
  }

  // ----- The three groups of entries -----

  predicate DomainSetting(key: string) {
    || key == "global.domainName" || key == "orc8r.controller.image.env.orc8r_domain_name"
    || key == "lte-orc8r.controller.image.env.orc8r_domain_name"
    || key == "orc8r.nms.controllerHostname" || key == "orc8r.nginx.spec.hostname"
  }

  predicate AdminSetting(key: string) {
    || key == "nmsAdmin.organization" || key == "nmsAdmin.email" || key == "nmsAdmin.password" || "nmsAdmin.customDomains" <= key
  }

  predicate ProvisioningSetting(key: string) {
    || key == "provisioning.network.id" || key == "provisioning.network.name" || key == "provisioning.subscriber.imsi"
    || key == "orc8r.nms.magmalte.service.http.nodePort"
  }

  lemma DomainOther(values: StringMap, spec: Orc8rSpec, key: string)
    requires !DomainSetting(key)
    ensures Get(DomainValues(values, spec), key) == Get(values, key)
  {
  }

  lemma AdminOther(values: StringMap, spec: Orc8rSpec, key: string)
    requires !AdminSetting(key)
    ensures Get(AdminValues(values, spec), key) == Get(values, key)
  {
    hide ListValues;
    var v3 := SetIf(SetIf(SetIf(values, "nmsAdmin.organization", spec.nmsOrganization), "nmsAdmin.email", spec.nmsAdminEmail), "nmsAdmin.password", spec.nmsAdminPassword);
    ListOther(v3, "nmsAdmin.customDomains", spec.nmsCustomDomains, key);
  }

  lemma ProvisioningOther(values: StringMap, spec: Orc8rSpec, key: string)
    requires !ProvisioningSetting(key)
    ensures Get(ProvisioningValues(values, spec), key) == Get(values, key)
  {
  }

  /** Three settings under different keys. */
  lemma ThreeSettings(values: StringMap, a: string, x: string, b: string, y: string, c: string, z: string)
    requires a != b && a != c && b != c && Get(values, a) == Get(values, b) == Get(values, c) == ""
    ensures var v := SetIf(SetIf(SetIf(values, a, x), b, y), c, z); Get(v, a) == x && Get(v, b) == y && Get(v, c) == z
  {
  }

  lemma DomainKeysDiffer()
    ensures var a, b, c, d, e := "global.domainName", "orc8r.controller.image.env.orc8r_domain_name", "lte-orc8r.controller.image.env.orc8r_domain_name",
                                 "orc8r.nms.controllerHostname", "orc8r.nginx.spec.hostname";
      a != b && a != c && a != d && a != e && b != c && b != d && b != e && c != d && c != e && d != e
  {
    assert |"global.domainName"| == 17 && |"orc8r.controller.image.env.orc8r_domain_name"| == 44;
    assert |"lte-orc8r.controller.image.env.orc8r_domain_name"| == 48;
    assert |"orc8r.nms.controllerHostname"| == 28 && |"orc8r.nginx.spec.hostname"| == 25;
  }

  lemma FiveSettings(values: StringMap, a: string, b: string, c: string, x: string, d: string, e: string, y: string)
    requires a != b && a != c && a != d && a != e && b != c && b != d && b != e && c != d && c != e && d != e
    requires Get(values, a) == Get(values, b) == Get(values, c) == Get(values, d) == Get(values, e) == ""
    ensures var v := SetIf(SetIf(SetIf(SetIf(SetIf(values, a, x), b, x), c, x), d, y), e, y);
      Get(v, a) == Get(v, b) == Get(v, c) == x && Get(v, d) == Get(v, e) == y
  {
  }

  lemma DomainOwn(values: StringMap, spec: Orc8rSpec)
    requires Get(values, "global.domainName") == Get(values, "orc8r.controller.image.env.orc8r_domain_name") == ""
    requires Get(values, "lte-orc8r.controller.image.env.orc8r_domain_name") == ""
    requires Get(values, "orc8r.nms.controllerHostname") == Get(values, "orc8r.nginx.spec.hostname") == ""
    ensures var v := DomainValues(values, spec);
      && Get(v, "global.domainName") == spec.domainName
      && Get(v, "orc8r.controller.image.env.orc8r_domain_name") == spec.domainName
      && Get(v, "lte-orc8r.controller.image.env.orc8r_domain_name") == spec.domainName
      && Get(v, "orc8r.nms.controllerHostname") == spec.controllerHostname
      && Get(v, "orc8r.nginx.spec.hostname") == spec.controllerHostname
  {
    hide SetIf, Get;
    DomainKeysDiffer();
    FiveSettings(values, "global.domainName", "orc8r.controller.image.env.orc8r_domain_name", "lte-orc8r.controller.image.env.orc8r_domain_name",
                 spec.domainName, "orc8r.nms.controllerHostname", "orc8r.nginx.spec.hostname", spec.controllerHostname);
  }

  lemma AdminKeysDiffer()
    ensures "nmsAdmin.organization" != "nmsAdmin.email" && "nmsAdmin.organization" != "nmsAdmin.password" && "nmsAdmin.email" != "nmsAdmin.password"
    ensures !("nmsAdmin.customDomains" <= "nmsAdmin.organization") && !("nmsAdmin.customDomains" <= "nmsAdmin.email")
    ensures !("nmsAdmin.customDomains" <= "nmsAdmin.password")
  {
    assert |"nmsAdmin.organization"| == 21 && |"nmsAdmin.email"| == 14 && |"nmsAdmin.password"| == 17 && |"nmsAdmin.customDomains"| == 22;
  }

  lemma AdminOwn(values: StringMap, spec: Orc8rSpec)
    requires Get(values, "nmsAdmin.organization") == Get(values, "nmsAdmin.email") == Get(values, "nmsAdmin.password") == ""
    ensures var v := AdminValues(values, spec);
      Get(v, "nmsAdmin.organization") == spec.nmsOrganization && Get(v, "nmsAdmin.email") == spec.nmsAdminEmail && Get(v, "nmsAdmin.password") == spec.nmsAdminPassword
  {
    hide SetIf, Get, ListValues;
    AdminKeysDiffer();
    ThreeSettings(values, "nmsAdmin.organization", spec.nmsOrganization, "nmsAdmin.email", spec.nmsAdminEmail, "nmsAdmin.password", spec.nmsAdminPassword);
    var v3 := SetIf(SetIf(SetIf(values, "nmsAdmin.organization", spec.nmsOrganization), "nmsAdmin.email", spec.nmsAdminEmail), "nmsAdmin.password", spec.nmsAdminPassword);
    ListOther(v3, "nmsAdmin.customDomains", spec.nmsCustomDomains, "nmsAdmin.organization");
    ListOther(v3, "nmsAdmin.customDomains", spec.nmsCustomDomains, "nmsAdmin.email");
    ListOther(v3, "nmsAdmin.customDomains", spec.nmsCustomDomains, "nmsAdmin.password");
  }

  lemma CustomDomain(values: StringMap, spec: Orc8rSpec, i: nat)
    requires i < |spec.nmsCustomDomains| && Get(values, ListKey("nmsAdmin.customDomains", i)) == ""
    ensures Get(AdminValues(values, spec), ListKey("nmsAdmin.customDomains", i)) == spec.nmsCustomDomains[i]
  {
    hide Get, ListValues, SetIf;
    var k := ListKey("nmsAdmin.customDomains", i);
    assert "nmsAdmin.customDomains" <= k;
    AdminKeysDiffer();
    var v1 := SetIf(values, "nmsAdmin.organization", spec.nmsOrganization);
    var v2 := SetIf(v1, "nmsAdmin.email", spec.nmsAdminEmail);
    var v3 := SetIf(v2, "nmsAdmin.password", spec.nmsAdminPassword);
    SetIfGet(values, "nmsAdmin.organization", spec.nmsOrganization, k);
    SetIfGet(v1, "nmsAdmin.email", spec.nmsAdminEmail, k);
    SetIfGet(v2, "nmsAdmin.password", spec.nmsAdminPassword, k);
    ListGet(v3, "nmsAdmin.customDomains", spec.nmsCustomDomains, i);
  }

  lemma ProvisioningKeysDiffer()
    ensures "provisioning.network.id" != "provisioning.network.name" && "provisioning.network.id" != "provisioning.subscriber.imsi"
    ensures "provisioning.network.name" != "provisioning.subscriber.imsi"
    ensures var port := "orc8r.nms.magmalte.service.http.nodePort";
      port != "provisioning.network.id" && port != "provisioning.network.name" && port != "provisioning.subscriber.imsi"
  {
    assert |"provisioning.network.id"| == 23 && |"provisioning.network.name"| == 25 && |"provisioning.subscriber.imsi"| == 28;
    assert |"orc8r.nms.magmalte.service.http.nodePort"| == 40;
  }

  lemma ProvisioningOwn(values: StringMap, spec: Orc8rSpec)
    requires Get(values, "provisioning.network.id") == Get(values, "provisioning.network.name") == Get(values, "provisioning.subscriber.imsi") == ""
    requires Get(values, "orc8r.nms.magmalte.service.http.nodePort") == ""
    ensures var v := ProvisioningValues(values, spec);
      && Get(v, "provisioning.network.id") == spec.networkID && Get(v, "provisioning.network.name") == spec.networkName
      && Get(v, "provisioning.subscriber.imsi") == spec.subscriberIMSI
      && Get(v, "orc8r.nms.magmalte.service.http.nodePort") == PortText(spec.nmsNodePort)
  {
    hide SetIf;
    var port := "orc8r.nms.magmalte.service.http.nodePort";
    ProvisioningKeysDiffer();
    ThreeSettings(values, "provisioning.network.id", spec.networkID, "provisioning.network.name", spec.networkName, "provisioning.subscriber.imsi", spec.subscriberIMSI);
    var v1 := SetIf(values, "provisioning.network.id", spec.networkID);
    var v2 := SetIf(v1, "provisioning.network.name", spec.networkName);
    SetIfGet(values, "provisioning.network.id", spec.networkID, port);
    SetIfGet(v1, "provisioning.network.name", spec.networkName, port);
    SetIfGet(v2, "provisioning.subscriber.imsi", spec.subscriberIMSI, port);
  }

  // ----- All entries -----

  lemma DomainStarts()
    ensures "global.domainName"[0] == 'g' && "orc8r.nms.controllerHostname"[0] == 'o' && "orc8r.nginx.spec.hostname"[0] == 'o'
  {
  }

  lemma LongDomainStarts()
    ensures "orc8r.controller.image.env.orc8r_domain_name"[0] == 'o' && |"orc8r.controller.image.env.orc8r_domain_name"| == 44
    ensures |"lte-orc8r.controller.image.env.orc8r_domain_name"| == 48
  {
  }

  lemma LteMiddle()
    ensures "lte-orc8r.controller.image.env.orc8r_domain_name"[21] == 'i'
  {
  }

  lemma DomainLengths()
    ensures |"global.domainName"| == 17 && |"orc8r.nms.controllerHostname"| == 28 && |"orc8r.nginx.spec.hostname"| == 25
  {
  }

  /** How the keys of each group begin. */
  lemma DomainBegins(key: string)
    requires DomainSetting(key)
    ensures |key| in {17, 25, 28, 44, 48} && (if |key| == 48 then key[21] == 'i' else key[0] == 'g' || key[0] == 'o')
  {
    DomainStarts();
    LongDomainStarts();
    LteMiddle();
    DomainLengths();
  }

  lemma AdminBegins(key: string)
    requires AdminSetting(key)
    ensures (key != "" && key[0] == 'n' && |key| in {14, 17, 21}) || (|key| >= 22 && key[0] == 'n' && key[21] == 's')
  {
    assert |"nmsAdmin.organization"| == 21 && |"nmsAdmin.email"| == 14 && |"nmsAdmin.password"| == 17;
    assert |"nmsAdmin.customDomains"| == 22 && "nmsAdmin.customDomains"[21] == 's';
    assert "nmsAdmin.organization"[0] == 'n' && "nmsAdmin.email"[0] == 'n' && "nmsAdmin.password"[0] == 'n' && "nmsAdmin.customDomains"[0] == 'n';
  }

  lemma ProvisioningBegins(key: string)
    requires ProvisioningSetting(key)
    ensures (key != "" && key[0] == 'p' && |key| in {23, 25, 28}) || (|key| == 40 && key[0] == 'o')
  {
    assert |"provisioning.network.id"| == 23 && |"provisioning.network.name"| == 25 && |"provisioning.subscriber.imsi"| == 28;
    assert "provisioning.network.id"[0] == 'p' && "provisioning.network.name"[0] == 'p' && "provisioning.subscriber.imsi"[0] == 'p';
    assert "orc8r.nms.magmalte.service.http.nodePort"[0] == 'o' && |"orc8r.nms.magmalte.service.http.nodePort"| == 40;
  }

  lemma FixedBegins()
    ensures "orc8r.nms.magmalte.service.type"[0] == 'o' && "orc8r.nms.nginx.create"[0] == 'o'
    ensures |"orc8r.nms.magmalte.service.type"| == 31 && |"orc8r.nms.nginx.create"| == 22
  {
  }

  /** No key belongs to two groups. */
  lemma GroupsApart(key: string)
    ensures DomainSetting(key) ==> !AdminSetting(key) && !ProvisioningSetting(key)
    ensures AdminSetting(key) ==> !ProvisioningSetting(key)
    ensures key == "orc8r.nms.magmalte.service.type" || key == "orc8r.nms.nginx.create" ==> !DomainSetting(key) && !AdminSetting(key) && !ProvisioningSetting(key)
  {
    hide DomainSetting, AdminSetting, ProvisioningSetting;
    if DomainSetting(key) { DomainBegins(key); }
    if AdminSetting(key) { AdminBegins(key); }
    if ProvisioningSetting(key) { ProvisioningBegins(key); }
    FixedBegins();
  }

  const FIXED: StringMap := map["orc8r.nms.magmalte.service.type" := "NodePort", "orc8r.nms.nginx.create" := "false"]

  lemma NotFixed(key: string)
    requires DomainSetting(key) || AdminSetting(key) || ProvisioningSetting(key)
    ensures Get(FIXED, key) == ""
  {
    hide DomainSetting, ProvisioningSetting, AdminSetting;
    GroupsApart(key);
  }

  /** The entries before the user's own values are merged in. */
  function OwnValues(spec: Orc8rSpec): StringMap {
    ProvisioningValues(AdminValues(DomainValues(FIXED, spec), spec), spec)
  }

  /** The user's own value wins. */
  lemma OnTop(spec: Orc8rSpec, key: string)
    ensures Get(Orc8rValues(spec), key) == Overridden(spec.values, key, Get(OwnValues(spec), key))
  {
    hide DomainValues, AdminValues, ProvisioningValues;
  }

  lemma DomainEntry(spec: Orc8rSpec, key: string)
    requires DomainSetting(key)
    ensures Get(FIXED, key) == ""
    ensures Get(Orc8rValues(spec), key) == Overridden(spec.values, key, Get(DomainValues(FIXED, spec), key))
  {
    hide DomainValues, AdminValues, ProvisioningValues, Get, DomainSetting, AdminSetting, ProvisioningSetting, Orc8rValues, Overridden;
    GroupsApart(key);
    NotFixed(key);
    AdminOther(DomainValues(FIXED, spec), spec, key);
    ProvisioningOther(AdminValues(DomainValues(FIXED, spec), spec), spec, key);
    OnTop(spec, key);
  }

  lemma AdminEntry(spec: Orc8rSpec, key: string)
    requires AdminSetting(key)
    ensures Get(DomainValues(FIXED, spec), key) == ""
    ensures Get(Orc8rValues(spec), key) == Overridden(spec.values, key, Get(AdminValues(DomainValues(FIXED, spec), spec), key))
  {
    hide DomainValues, AdminValues, ProvisioningValues, Get, DomainSetting, AdminSetting, ProvisioningSetting, Orc8rValues, Overridden;
    GroupsApart(key);
    NotFixed(key);
    DomainOther(FIXED, spec, key);
    ProvisioningOther(AdminValues(DomainValues(FIXED, spec), spec), spec, key);
    OnTop(spec, key);
  }

  lemma ProvisioningEntry(spec: Orc8rSpec, key: string)
    requires ProvisioningSetting(key)
    ensures Get(AdminValues(DomainValues(FIXED, spec), spec), key) == ""
    ensures Get(Orc8rValues(spec), key) == Overridden(spec.values, key, Get(OwnValues(spec), key))
  {
    hide DomainValues, AdminValues, ProvisioningValues, Get, DomainSetting, AdminSetting, ProvisioningSetting, Orc8rValues, Overridden;
    GroupsApart(key);
    NotFixed(key);
    DomainOther(FIXED, spec, key);
    AdminOther(DomainValues(FIXED, spec), spec, key);
    OnTop(spec, key);
  }

  lemma DomainMembers()
    ensures DomainSetting("global.domainName") && DomainSetting("orc8r.controller.image.env.orc8r_domain_name")
    ensures DomainSetting("lte-orc8r.controller.image.env.orc8r_domain_name")
    ensures DomainSetting("orc8r.nms.controllerHostname") && DomainSetting("orc8r.nginx.spec.hostname")
  {
  }

  /** Domain and host name: the user's own value, or else the field of the specification. */
  lemma DomainEntries(spec: Orc8rSpec)
    ensures var v, u := Orc8rValues(spec), spec.values;
      && Get(v, "global.domainName") == Overridden(u, "global.domainName", spec.domainName)
      && Get(v, "orc8r.controller.image.env.orc8r_domain_name") == Overridden(u, "orc8r.controller.image.env.orc8r_domain_name", spec.domainName)
      && Get(v, "lte-orc8r.controller.image.env.orc8r_domain_name") == Overridden(u, "lte-orc8r.controller.image.env.orc8r_domain_name", spec.domainName)
      && Get(v, "orc8r.nms.controllerHostname") == Overridden(u, "orc8r.nms.controllerHostname", spec.controllerHostname)
      && Get(v, "orc8r.nginx.spec.hostname") == Overridden(u, "orc8r.nginx.spec.hostname", spec.controllerHostname)
  {
    hide Orc8rValues, DomainValues, Get, Overridden, DomainSetting;
    DomainMembers();
    DomainEntry(spec, "global.domainName");
    DomainEntry(spec, "orc8r.controller.image.env.orc8r_domain_name");
    DomainEntry(spec, "lte-orc8r.controller.image.env.orc8r_domain_name");
    DomainEntry(spec, "orc8r.nms.controllerHostname");
    DomainEntry(spec, "orc8r.nginx.spec.hostname");
    DomainOwn(FIXED, spec);
  }

  /** Administrator and domains of the NMS. */
  lemma AdminEntries(spec: Orc8rSpec)
    ensures var v, u := Orc8rValues(spec), spec.values;
      && Get(v, "nmsAdmin.organization") == Overridden(u, "nmsAdmin.organization", spec.nmsOrganization)
      && Get(v, "nmsAdmin.email") == Overridden(u, "nmsAdmin.email", spec.nmsAdminEmail)
      && Get(v, "nmsAdmin.password") == Overridden(u, "nmsAdmin.password", spec.nmsAdminPassword)
    ensures forall i :: 0 <= i < |spec.nmsCustomDomains| ==>
      Get(Orc8rValues(spec), ListKey("nmsAdmin.customDomains", i)) == Overridden(spec.values, ListKey("nmsAdmin.customDomains", i), spec.nmsCustomDomains[i])
  {
    hide Orc8rValues, DomainValues, AdminValues, Get, Overridden;
    AdminEntry(spec, "nmsAdmin.organization");
    AdminEntry(spec, "nmsAdmin.email");
    AdminEntry(spec, "nmsAdmin.password");
    AdminOwn(DomainValues(FIXED, spec), spec);
    forall i | 0 <= i < |spec.nmsCustomDomains|
      ensures Get(Orc8rValues(spec), ListKey("nmsAdmin.customDomains", i)) == Overridden(spec.values, ListKey("nmsAdmin.customDomains", i), spec.nmsCustomDomains[i])
    {
      assert "nmsAdmin.customDomains" <= ListKey("nmsAdmin.customDomains", i);
      AdminEntry(spec, ListKey("nmsAdmin.customDomains", i));
      CustomDomain(DomainValues(FIXED, spec), spec, i);
    }
  }

  /** Network, subscriber, node port, and the two fixed entries. */
  lemma ProvisioningEntries(spec: Orc8rSpec)
    ensures var v, u := Orc8rValues(spec), spec.values;
      && Get(v, "provisioning.network.id") == Overridden(u, "provisioning.network.id", spec.networkID)
      && Get(v, "provisioning.network.name") == Overridden(u, "provisioning.network.name", spec.networkName)
      && Get(v, "provisioning.subscriber.imsi") == Overridden(u, "provisioning.subscriber.imsi", spec.subscriberIMSI)
      && Get(v, "orc8r.nms.magmalte.service.http.nodePort") == Overridden(u, "orc8r.nms.magmalte.service.http.nodePort", PortText(spec.nmsNodePort))
  {
    hide Orc8rValues, DomainValues, AdminValues, ProvisioningValues, Get, Overridden;
    ProvisioningEntry(spec, "provisioning.network.id");
    ProvisioningEntry(spec, "provisioning.network.name");
    ProvisioningEntry(spec, "provisioning.subscriber.imsi");
    ProvisioningEntry(spec, "orc8r.nms.magmalte.service.http.nodePort");
    ProvisioningOwn(AdminValues(DomainValues(FIXED, spec), spec), spec);
  }

  lemma FixedEntries(spec: Orc8rSpec)
    ensures var v, u := Orc8rValues(spec), spec.values;
      && Get(v, "orc8r.nms.magmalte.service.type") == Overridden(u, "orc8r.nms.magmalte.service.type", "NodePort")
      && Get(v, "orc8r.nms.nginx.create") == Overridden(u, "orc8r.nms.nginx.create", "false")
  {
    hide DomainValues, AdminValues, ProvisioningValues, DomainSetting, AdminSetting, ProvisioningSetting, Orc8rValues, Overridden;
    FixedBegins();
    forall key | key == "orc8r.nms.magmalte.service.type" || key == "orc8r.nms.nginx.create"
      ensures Get(Orc8rValues(spec), key) == Overridden(spec.values, key, Get(FIXED, key))
    {
      GroupsApart(key);
      DomainOther(FIXED, spec, key);
      AdminOther(DomainValues(FIXED, spec), spec, key);
      ProvisioningOther(AdminValues(DomainValues(FIXED, spec), spec), spec, key);
      OnTop(spec, key);
    }
  }
}
