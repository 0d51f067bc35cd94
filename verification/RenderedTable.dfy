/** The replacement table as the program writes it down: 31 patterns, and what each of them becomes. */
module RenderedTable {
  import opened GoMaps
  import opened Replacer
  import opened Rendering

  /** The value under a key, or the fallback when it is missing or empty. */
  function Chosen(values: StringMap, key: string, fallback: string): string {
    if key in values && values[key] != "" then values[key] else fallback
  }

  function Plainly(values: StringMap, key: string): string {
    if key in values then values[key] else ""
  }

  function DomainOf(values: StringMap): string {
    Chosen(values, "global.domainName", Chosen(values, "config.domainName", "magma.local"))
  }

  datatype Row = Row(pattern: string, becomes: string)

  function ServiceRow(service: string, domain: string): Row {
    Row(service + "-controller.magma.local", service + "-controller." + domain)
  }

  function SettingRow(stem: string, value: string): Row {
    Row(stem + "placeholder", value)
  }

  /** One row of the table; the constructor only numbers the rows. */
  function RowOf(p: Placeholder, release: string, namespace: string, values: StringMap): Row {
    match p
    case AgwRelease => Row("agwrel", release)
    case AgwNamespace => Row("agwns", namespace)
    case Orc8rRelease => Row("orc8rrel", release)
    case Orc8rNamespace => Row("orc8rns", namespace)
    case Domain => Row("domain-placeholder.local", DomainOf(values))
    case ControllerHost => Row("controller-placeholder.local", Chosen(values, "orc8r.nms.controllerHostname", "controller." + DomainOf(values)))
    case MagmaController => Row("controller.magma.local", "controller." + DomainOf(values))
    case Bootstrapper => ServiceRow("bootstrapper", DomainOf(values))
    case Accessd => ServiceRow("accessd", DomainOf(values))
    case Certifier => ServiceRow("certifier", DomainOf(values))
    case Configurator => ServiceRow("configurator", DomainOf(values))
    case Device => ServiceRow("device", DomainOf(values))
    case Directoryd => ServiceRow("directoryd", DomainOf(values))
    case Dispatcher => ServiceRow("dispatcher", DomainOf(values))
    case Eventd => ServiceRow("eventd", DomainOf(values))
    case Metricsd => ServiceRow("metricsd", DomainOf(values))
    case Policydb => ServiceRow("policydb", DomainOf(values))
    case State => ServiceRow("state", DomainOf(values))
    case Streamer => ServiceRow("streamer", DomainOf(values))
    case Subscriberdb => ServiceRow("subscriberdb", DomainOf(values))
    case HostAliasIp => Row("10.0.0.1", Chosen(values, "orc8r.hostAliases.ip", "10.152.183.140"))
    case Challenge => SettingRow("gwchallenge", Plainly(values, "config.gwChallenge"))
    case Hardware => SettingRow("hardware", Plainly(values, "gatewayIdentity.snowflake"))
    case S1 => SettingRow("s1", Plainly(values, "nodePrep.interfaces.s1.parent"))
    case Sgi => SettingRow("sgi", Plainly(values, "nodePrep.interfaces.nat.parent"))
    case Organization => SettingRow("org", Chosen(values, "nmsAdmin.organization", "magma-test"))
    case Email => SettingRow("email", Chosen(values, "nmsAdmin.email", "admin"))
    case Password => SettingRow("password", Chosen(values, "nmsAdmin.password", "admin"))
    case NetworkId => SettingRow("networkid", Chosen(values, "provisioning.network.id", "mpk_test"))
    case NetworkName => SettingRow("networkname", Chosen(values, "provisioning.network.name", "mpk_test"))
    case Imsi => SettingRow("imsi", Chosen(values, "provisioning.subscriber.imsi", "IMSI001010000000001"))
  }

  lemma DomainIs(values: StringMap)
    ensures DomainOf(values) == DomainName(values)
  {
  }

  lemma ReleaseRow(p: Placeholder, target: Target, values: StringMap)
    requires GroupOf(p) == Group.Release
    ensures RowOf(p, target.release, target.namespace, values) == Row(Text(p), Value(p, target, values))
  {
    hide DomainName, DomainOf;
    DomainIs(values);
  }

  lemma ServiceRows(p: Placeholder, target: Target, values: StringMap)
    requires GroupOf(p) == Group.ServiceA || GroupOf(p) == Group.ServiceB
    ensures RowOf(p, target.release, target.namespace, values) == Row(Text(p), Value(p, target, values))
  {
    hide DomainName, DomainOf;
    DomainIs(values);
  }

  lemma SettingRows(p: Placeholder, target: Target, values: StringMap)
    requires GroupOf(p) == Group.Setting
    ensures RowOf(p, target.release, target.namespace, values) == Row(Text(p), Value(p, target, values))
  {
    hide DomainName, DomainOf;
  }

  /** Each of the 31 patterns renders to its entry, and nothing else is a pattern. */
  lemma TableExact(target: Target, values: StringMap)
    ensures forall p: Placeholder :: Render(RowOf(p, target.release, target.namespace, values).pattern, target, values)
                                  == RowOf(p, target.release, target.namespace, values).becomes
    ensures forall t :: t in Patterns() <==> exists p: Placeholder :: RowOf(p, target.release, target.namespace, values).pattern == t
  {
    hide Render, RowOf, Text, Value;
    forall p: Placeholder
      ensures RowOf(p, target.release, target.namespace, values) == Row(Text(p), Value(p, target, values))
      ensures Render(Text(p), target, values) == Value(p, target, values) && Text(p) in Patterns()
    {
      match GroupOf(p) {
        case Release => ReleaseRow(p, target, values);
        case Setting => SettingRows(p, target, values);
        case _ => ServiceRows(p, target, values);
      }
      PlaceholderRenders(p, target, values);
      OwnPattern(p);
    }
    forall t | t in Patterns()
      ensures exists p: Placeholder :: RowOf(p, target.release, target.namespace, values).pattern == t
    {
      PatternHasPlaceholder(t);
      assert RowOf(PlaceholderOf(t), target.release, target.namespace, values).pattern == t;
    }
  }
}
