/**
 Manifest rendering: the placeholder table, its single-pass substitution, and which texts
 render the same whatever the release values are.
 */
module Rendering {
  import opened GoMaps
  import opened Replacer

  datatype Placeholder =
    | AgwRelease | AgwNamespace | Orc8rRelease | Orc8rNamespace
    | Domain | ControllerHost | MagmaController
    | Bootstrapper | Accessd | Certifier | Configurator | Device | Directoryd | Dispatcher
    | Eventd | Metricsd | Policydb | State | Streamer | Subscriberdb
    | HostAliasIp | Challenge | Hardware | S1 | Sgi
    | Organization | Email | Password | NetworkId | NetworkName | Imsi

  /** The Orc8r service, or the setting, that the placeholder is named after. */
  function Stem(p: Placeholder): string {
    match p
    case Bootstrapper => "bootstrapper"
    case Accessd => "accessd"
    case Certifier => "certifier"
    case Configurator => "configurator"
    case Device => "device"
    case Directoryd => "directoryd"
    case Dispatcher => "dispatcher"
    case Eventd => "eventd"
    case Metricsd => "metricsd"
    case Policydb => "policydb"
    case State => "state"
    case Streamer => "streamer"
    case Subscriberdb => "subscriberdb"
    case Challenge => "gwchallenge"
    case Hardware => "hardware"
    case S1 => "s1"
    case Sgi => "sgi"
    case Organization => "org"
    case Email => "email"
    case Password => "password"
    case NetworkId => "networkid"
    case NetworkName => "networkname"
    case Imsi => "imsi"
    case _ => ""
  }

  /** The text that stands for the placeholder in a manifest. */
  function Text(p: Placeholder): string {
    match p
    case AgwRelease => "agwrel"
    case AgwNamespace => "agwns"
    case Orc8rRelease => "orc8rrel"
    case Orc8rNamespace => "orc8rns"
    case Domain => "domain-placeholder.local"
    case ControllerHost => "controller-placeholder.local"
    case MagmaController => "controller.magma.local"
    case HostAliasIp => "10.0.0.1"
    case Challenge | Hardware | S1 | Sgi | Organization
        | Email | Password | NetworkId | NetworkName | Imsi => Stem(p) + "placeholder"
    case _ => Stem(p) + "-controller.magma.local"
  }

  datatype Target = Target(release: string, namespace: string)

  function DomainName(values: StringMap): string {
    ValueOrDefault(values, "global.domainName", ValueOrDefault(values, "config.domainName", "magma.local"))
  }

  /** What the placeholder is replaced by. */
  function Value(p: Placeholder, target: Target, values: StringMap): string {
    match p
    case AgwRelease => target.release
    case AgwNamespace => target.namespace
    case Orc8rRelease => target.release
    case Orc8rNamespace => target.namespace
    case Domain => DomainName(values)
    case ControllerHost =>
      ValueOrDefault(values, "orc8r.nms.controllerHostname", "controller." + DomainName(values))
    case MagmaController => "controller." + DomainName(values)
    case HostAliasIp => ValueOrDefault(values, "orc8r.hostAliases.ip", "10.152.183.140")
    case Challenge => Get(values, "config.gwChallenge")
    case Hardware => Get(values, "gatewayIdentity.snowflake")
    case S1 => Get(values, "nodePrep.interfaces.s1.parent")
    case Sgi => Get(values, "nodePrep.interfaces.nat.parent")
    case Organization => ValueOrDefault(values, "nmsAdmin.organization", "magma-test")
    case Email => ValueOrDefault(values, "nmsAdmin.email", "admin")
    case Password => ValueOrDefault(values, "nmsAdmin.password", "admin")
    case NetworkId => ValueOrDefault(values, "provisioning.network.id", "mpk_test")
    case NetworkName => ValueOrDefault(values, "provisioning.network.name", "mpk_test")
    case Imsi => ValueOrDefault(values, "provisioning.subscriber.imsi", "IMSI001010000000001")
    case _ => Stem(p) + "-controller." + DomainName(values)
  }

  datatype Found = Nothing | Just(p: Placeholder)

  /** Names the only placeholder that can start a text, from a few of its characters. */
  function Classify(s: string): Found {
    if |s| < 4 then Nothing
    else if s[0] == 'a' then
      if s[1] == 'g' then Just(if s[3] == 'r' then AgwRelease else AgwNamespace)
      else Just(Accessd)
    else if s[0] == 'o' then
      if s[2] == 'g' then Just(Organization)
      else if |s| > 5 then Just(if s[5] == 'r' then Orc8rRelease else Orc8rNamespace)
      else Nothing
    else if s[0] == 'd' then
      if s[1] == 'o' then Just(Domain)
      else if s[1] == 'e' then Just(Device)
      else Just(if s[2] == 'r' then Directoryd else Dispatcher)
    else if s[0] == 'c' then
      if s[1] == 'e' then Just(Certifier)
      else if s[3] == 'f' then Just(Configurator)
      else if |s| > 10 then Just(if s[10] == '-' then ControllerHost else MagmaController)
      else Nothing
    else if s[0] == 'b' then Just(Bootstrapper)
    else if s[0] == 's' then
      if s[1] == '1' then Just(S1)
      else if s[1] == 'g' then Just(Sgi)
      else if s[1] == 'u' then Just(Subscriberdb)
      else Just(if s[2] == 'a' then State else Streamer)
    else if s[0] == 'e' then Just(if s[1] == 'v' then Eventd else Email)
    else if s[0] == 'm' then Just(Metricsd)
    else if s[0] == 'p' then Just(if s[1] == 'o' then Policydb else Password)
    else if s[0] == '1' then Just(HostAliasIp)
    else if s[0] == 'g' then Just(Challenge)
    else if s[0] == 'h' then Just(Hardware)
    else if s[0] == 'n' then
      if |s| > 7 then Just(if s[7] == 'i' then NetworkId else NetworkName) else Nothing
    else if s[0] == 'i' then Just(Imsi)
    else Nothing
  }

  datatype Group = Release | ServiceA | ServiceB | Setting

  function GroupOf(p: Placeholder): Group {
    match p
    case AgwRelease | AgwNamespace | Orc8rRelease | Orc8rNamespace | Domain | ControllerHost | MagmaController | HostAliasIp => Group.Release
    case Bootstrapper | Accessd | Certifier | Configurator | Device => Group.ServiceA
    case Directoryd | Dispatcher | Eventd | Metricsd | Policydb | State | Streamer | Subscriberdb => Group.ServiceB
    case _ => Setting
  }

  lemma ReleaseStarts(p: Placeholder, s: string)
    requires GroupOf(p) == Group.Release && Text(p) <= s
    requires p in {AgwRelease, AgwNamespace, Orc8rRelease, Orc8rNamespace}
    ensures Classify(s) == Just(p)
  {
    match p
    case AgwRelease => assert s[0] == 'a' && s[1] == 'g' && s[3] == 'r';
    case AgwNamespace => assert s[0] == 'a' && s[1] == 'g' && s[3] == 'n';
    case Orc8rRelease => assert s[0] == 'o' && s[2] == 'c' && s[5] == 'r';
    case Orc8rNamespace => assert s[0] == 'o' && s[2] == 'c' && s[5] == 'n';
    case _ =>
  }

  lemma AddressStarts(p: Placeholder, s: string)
    requires GroupOf(p) == Group.Release && Text(p) <= s
    requires p !in {AgwRelease, AgwNamespace, Orc8rRelease, Orc8rNamespace}
    ensures Classify(s) == Just(p)
  {
    match p
    case Domain => assert s[0] == 'd' && s[1] == 'o';
    case ControllerHost => assert s[0] == 'c' && s[1] == 'o' && s[3] == 't' && s[10] == '-';
    case MagmaController => assert s[0] == 'c' && s[1] == 'o' && s[3] == 't' && s[10] == '.';
    case HostAliasIp => assert s[0] == '1';
    case _ =>
  }

  lemma ServiceAStarts(p: Placeholder, s: string)
    requires GroupOf(p) == Group.ServiceA && Text(p) <= s
    ensures Classify(s) == Just(p)
  {
    assert Stem(p) <= s;
    match p
    case Bootstrapper => assert s[0] == 'b';
    case Accessd => assert s[0] == 'a' && s[1] == 'c';
    case Certifier => assert s[0] == 'c' && s[1] == 'e';
    case Configurator => assert s[0] == 'c' && s[1] == 'o' && s[3] == 'f';
    case Device => assert s[0] == 'd' && s[1] == 'e';
    case _ =>
  }

  lemma ServiceBStarts(p: Placeholder, s: string)
    requires GroupOf(p) == Group.ServiceB && Text(p) <= s
    ensures Classify(s) == Just(p)
  {
    assert Stem(p) <= s;
    match p
    case Directoryd => assert s[0] == 'd' && s[1] == 'i' && s[2] == 'r';
    case Dispatcher => assert s[0] == 'd' && s[1] == 'i' && s[2] == 's';
    case Eventd => assert s[0] == 'e' && s[1] == 'v';
    case Metricsd => assert s[0] == 'm';
    case Policydb => assert s[0] == 'p' && s[1] == 'o';
    case State => assert s[0] == 's' && s[1] == 't' && s[2] == 'a';
    case Streamer => assert s[0] == 's' && s[1] == 't' && s[2] == 'r';
    case Subscriberdb => assert s[0] == 's' && s[1] == 'u';
    case _ =>
  }

  lemma SettingStarts(p: Placeholder, s: string)
    requires GroupOf(p) == Group.Setting && Text(p) <= s
    ensures Classify(s) == Just(p)
  {
    assert Stem(p) <= s;
    match p
    case Challenge => assert s[0] == 'g';
    case Hardware => assert s[0] == 'h';
    case S1 => assert s[0] == 's' && s[1] == '1';
    case Sgi => assert s[0] == 's' && s[1] == 'g';
    case Organization => assert s[0] == 'o' && s[2] == 'g';
    case Email => assert s[0] == 'e' && s[1] == 'm';
    case Password => assert s[0] == 'p' && s[1] == 'a';
    case NetworkId => assert s[0] == 'n' && s[7] == 'i';
    case NetworkName => assert s[0] == 'n' && s[7] == 'n';
    case Imsi => assert s[0] == 'i';
    case _ =>
  }

  lemma StartDecides(p: Placeholder, s: string)
    requires Text(p) <= s
    ensures Classify(s) == Just(p)
  {
    match GroupOf(p)
    case Release =>
      if p in {AgwRelease, AgwNamespace, Orc8rRelease, Orc8rNamespace} { ReleaseStarts(p, s); } else { AddressStarts(p, s); }
    case ServiceA => ServiceAStarts(p, s);
    case ServiceB => ServiceBStarts(p, s);
    case Setting => SettingStarts(p, s);
  }

  function Patterns(): set<string> {
    set p: Placeholder | Text(p) != "" :: Text(p)
  }

  /** The placeholder a pattern belongs to. */
  function PlaceholderOf(t: string): Placeholder {
    match Classify(t)
    case Just(p) => p
    case Nothing => AgwRelease
  }

  lemma OwnPattern(p: Placeholder)
    ensures Text(p) in Patterns()
    ensures PlaceholderOf(Text(p)) == p
  {
    StartDecides(p, Text(p));
  }

  lemma PatternHasPlaceholder(t: string)
    requires t in Patterns()
    ensures Text(PlaceholderOf(t)) == t
  {
    var p: Placeholder :| Text(p) == t;
    OwnPattern(p);
  }

  lemma PatternsArePrefixFree()
    ensures "" !in Patterns()
    ensures PrefixFree(Patterns())
  {
    forall a, b | a in Patterns() && b in Patterns() && a <= b
      ensures a == b
    {
      PatternHasPlaceholder(a);
      PatternHasPlaceholder(b);
      StartDecides(PlaceholderOf(a), b);
      StartDecides(PlaceholderOf(b), b);
    }
  }

  /** The replacement table of one release. */
  function Replacements(target: Target, values: StringMap): StringMap {
    map t | t in Patterns() :: Value(PlaceholderOf(t), target, values)
  }

  lemma GoodTable(target: Target, values: StringMap)
    ensures Replacements(target, values).Keys == Patterns()
    ensures "" !in Replacements(target, values) && PrefixFree(Replacements(target, values).Keys)
  {
    PatternsArePrefixFree();
    assert Replacements(target, values).Keys == Patterns();
  }

  /** The rendered text: every placeholder occurrence filled once, everything else kept. */
  ghost function Render(text: string, target: Target, values: StringMap): string {
    GoodTable(target, values);
    Substitute(Replacements(target, values), text)
  }

  /** Rendering does not depend on the order in which the replacement table is enumerated. */
  method RenderNativeManifest(manifest: string, target: Target, values: StringMap) returns (rendered: string)
    ensures rendered == Render(manifest, target, values)
  {
    GoodTable(target, values);
    rendered := ReplaceWithTable(Replacements(target, values), manifest);
  }

  // ----- Line locality -----

  /** No blank, tab or newline. */
  predicate Visible(s: string) {
    forall i :: 0 <= i < |s| ==> s[i] > ' '
  }

  lemma ServiceStemVisible(p: Placeholder)
    requires GroupOf(p) == Group.ServiceA || GroupOf(p) == Group.ServiceB
    ensures Visible(Stem(p))
  {
  }

  lemma SettingStemVisible(p: Placeholder)
    requires GroupOf(p) == Group.Setting
    ensures Visible(Stem(p))
  {
  }

  lemma SuffixesVisible()
    ensures Visible("-controller.magma.local") && Visible("placeholder")
  {
  }

  lemma ReleaseVisible(p: Placeholder)
    requires p in {AgwRelease, AgwNamespace, Orc8rRelease, Orc8rNamespace, HostAliasIp}
    ensures Visible(Text(p))
  {
  }

  lemma AddressVisible(p: Placeholder)
    requires p in {Domain, ControllerHost, MagmaController}
    ensures Visible(Text(p))
  {
    DomainVisible();
    HostVisible();
    ControllerVisible();
    hide Visible;
  }

  lemma DomainVisible()
    ensures Visible("domain-placeholder.local")
  {
  }

  lemma HostVisible()
    ensures Visible("controller-placeholder.local")
  {
  }

  lemma ControllerVisible()
    ensures Visible("controller.magma.local")
  {
  }

  lemma TextVisible(p: Placeholder)
    ensures Visible(Text(p))
  {
    hide Stem, Visible;
    match GroupOf(p)
    case Release =>
      if p in {Domain, ControllerHost, MagmaController} { AddressVisible(p); } else { ReleaseVisible(p); }
    case Setting =>
      SettingStemVisible(p);
      SuffixesVisible();
      VisibleSum(Stem(p), "placeholder");
    case _ =>
      ServiceStemVisible(p);
      SuffixesVisible();
      VisibleSum(Stem(p), "-controller.magma.local");
  }

  lemma VisibleSum(a: string, b: string)
    requires Visible(a) && Visible(b)
    ensures Visible(a + b)
  {
  }

  lemma OneLine(p: Placeholder)
    ensures '\n' !in Text(p) && ' ' !in Text(p)
  {
    hide Text;
    TextVisible(p);
  }

  lemma PatternsOneLine()
    ensures forall t :: t in Patterns() ==> '\n' !in t && ' ' !in t
  {
    forall t | t in Patterns()
      ensures '\n' !in t && ' ' !in t
    {
      PatternHasPlaceholder(t);
      OneLine(PlaceholderOf(t));
    }
  }

  /** Rendering works line by line, whatever the values contain. */
  lemma RenderLocal(a: string, b: string, target: Target, values: StringMap)
    ensures Render(a + "\n" + b, target, values) == Render(a, target, values) + "\n" + Render(b, target, values)
  {
    PatternsOneLine();
    GoodTable(target, values);
    SubstituteLocal(Replacements(target, values), a, '\n', b);
    assert "\n" == ['\n'];
  }

  lemma SubstituteLocal(table: StringMap, a: string, c: char, b: string)
    requires "" !in table && PrefixFree(table.Keys)
    requires forall t :: t in table ==> c !in t
    ensures Substitute(table, a + [c] + b) == Substitute(table, a) + [c] + Substitute(table, b)
  {
    var pairs := ListEntries(table);
    ReplaceIsFill(pairs, table, a + [c] + b);
    ReplaceIsFill(pairs, table, a);
    ReplaceIsFill(pairs, table, b);
    SeparatorLocality(pairs, a, c, b);
  }

  /** Leading spaces are kept. */
  lemma SpaceKept(rest: string, target: Target, values: StringMap)
    ensures Render(" " + rest, target, values) == " " + Render(rest, target, values)
  {
    PatternsOneLine();
    GoodTable(target, values);
    SubstituteLocal(Replacements(target, values), "", ' ', rest);
    assert "" + [' '] + rest == " " + rest;
    assert Render("", target, values) == "";
  }

  function Join(lines: seq<string>): string {
    if lines == [] then ""
    else if |lines| == 1 then lines[0]
    else lines[0] + "\n" + Join(lines[1..])
  }

  ghost function RenderLines(lines: seq<string>, target: Target, values: StringMap): (r: seq<string>)
    ensures |r| == |lines|
    ensures forall i :: 0 <= i < |lines| ==> r[i] == Render(lines[i], target, values)
  {
    if lines == [] then [] else [Render(lines[0], target, values)] + RenderLines(lines[1..], target, values)
  }

  lemma {:induction false} RenderByLine(lines: seq<string>, target: Target, values: StringMap)
    ensures Render(Join(lines), target, values) == Join(RenderLines(lines, target, values))
  {
    if |lines| == 1 {
      assert RenderLines(lines, target, values) == [Render(lines[0], target, values)];
    } else if lines != [] {
      RenderLocal(lines[0], Join(lines[1..]), target, values);
      RenderByLine(lines[1..], target, values);
      var r := RenderLines(lines, target, values);
      assert r[1..] == RenderLines(lines[1..], target, values);
    }
  }

  /** A placeholder by itself renders to its value. */
  lemma PlaceholderRenders(p: Placeholder, target: Target, values: StringMap)
    ensures Render(Text(p), target, values) == Value(p, target, values)
  {
    GoodTable(target, values);
    OwnPattern(p);
    var keys, text := Patterns(), Text(p);
    assert HasKeyAt(keys, text);
    assert KeyAt(keys, text) == text;
    assert text[|text|..] == "";
    assert Tokens(keys, text) == [Hole(text)];
    FillHole(text, [], Replacements(target, values));
  }

  // ----- Which texts render the same under all values -----

  /** Placeholders filled from the release name and namespace, not from the values. */
  predicate FromTarget(p: Placeholder) {
    p.AgwRelease? || p.AgwNamespace? || p.Orc8rRelease? || p.Orc8rNamespace?
  }

  /** No occurrence of a placeholder that is filled from the values. */
  ghost predicate ValueFree(text: string) {
    PatternsArePrefixFree();
    forall t :: t in Tokens(Patterns(), text) && t.Hole? ==> t.key in Patterns() && FromTarget(PlaceholderOf(t.key))
  }

  ghost predicate Agnostic(text: string, target: Target) {
    forall v: StringMap, w: StringMap :: Render(text, target, v) == Render(text, target, w)
  }

  lemma {:induction false} SameFill(tokens: seq<Token>, m: StringMap, n: StringMap)
    requires FilledBy(tokens, m) && FilledBy(tokens, n)
    requires forall t :: t in tokens && t.Hole? ==> m[t.key] == n[t.key]
    ensures Fill(tokens, m) == Fill(tokens, n)
  {
    if tokens != [] {
      SameFill(tokens[1..], m, n);
    }
  }

  lemma ValueFreeAgrees(text: string, target: Target, v: StringMap, w: StringMap)
    requires ValueFree(text)
    ensures Render(text, target, v) == Render(text, target, w)
  {
    GoodTable(target, v);
    GoodTable(target, w);
    TokensHoles(Patterns(), text);
    TargetEntries(target, v, w);
    SameFill(Tokens(Patterns(), text), Replacements(target, v), Replacements(target, w));
  }

  lemma TargetEntries(target: Target, v: StringMap, w: StringMap)
    ensures Replacements(target, v).Keys == Replacements(target, w).Keys == Patterns()
    ensures forall t :: t in Patterns() && FromTarget(PlaceholderOf(t)) ==>
      Replacements(target, v)[t] == Replacements(target, w)[t]
  {
    forall t | t in Patterns() && FromTarget(PlaceholderOf(t))
      ensures Replacements(target, v)[t] == Replacements(target, w)[t]
    {
    }
  }

  function SettingNames(): set<string> {
    {"global.domainName", "orc8r.nms.controllerHostname", "orc8r.hostAliases.ip", "config.gwChallenge",
     "gatewayIdentity.snowflake", "nodePrep.interfaces.s1.parent", "nodePrep.interfaces.nat.parent",
     "nmsAdmin.organization", "nmsAdmin.email", "nmsAdmin.password", "provisioning.network.id",
     "provisioning.network.name", "provisioning.subscriber.imsi"}
  }

  /** A value for every setting, longer than any default. */
  function Loud(): StringMap {
    map k | k in SettingNames() :: "a-value-longer-than-every-default-value"
  }

  lemma LoudIsLonger(p: Placeholder, target: Target)
    requires !FromTarget(p)
    ensures |Value(p, target, Loud())| > |Value(p, target, map[])|
  {
    assert DomainName(Loud()) == Loud()["global.domainName"];
    assert DomainName(map[]) == "magma.local";
  }

  lemma LoudEntries(target: Target)
    ensures Replacements(target, map[]).Keys == Replacements(target, Loud()).Keys == Patterns()
    ensures forall t :: t in Patterns() ==> |Replacements(target, map[])[t]| <= |Replacements(target, Loud())[t]|
    ensures forall t :: t in Patterns() && !FromTarget(PlaceholderOf(t)) ==>
      |Replacements(target, map[])[t]| < |Replacements(target, Loud())[t]|
  {
    forall t | t in Patterns()
      ensures |Replacements(target, map[])[t]| <= |Replacements(target, Loud())[t]|
      ensures !FromTarget(PlaceholderOf(t)) ==> |Replacements(target, map[])[t]| < |Replacements(target, Loud())[t]|
    {
      var p := PlaceholderOf(t);
      if !FromTarget(p) { LoudIsLonger(p, target); }
    }
  }

  lemma {:induction false} LongerFill(tokens: seq<Token>, m: StringMap, n: StringMap)
    requires FilledBy(tokens, m) && FilledBy(tokens, n)
    requires forall t :: t in tokens && t.Hole? ==> |m[t.key]| <= |n[t.key]|
    ensures |Fill(tokens, m)| <= |Fill(tokens, n)|
    ensures (exists t :: t in tokens && t.Hole? && |m[t.key]| < |n[t.key]|) ==> |Fill(tokens, m)| < |Fill(tokens, n)|
  {
    if tokens != [] {
      LongerFill(tokens[1..], m, n);
    }
  }

  /**
   A text renders the same under all values exactly when none of its placeholder occurrences
   is filled from the values.
   */
  lemma AgnosticExact(text: string, target: Target)
    ensures Agnostic(text, target) <==> ValueFree(text)
  {
    GoodTable(target, map[]);
    GoodTable(target, Loud());
    var tokens := Tokens(Patterns(), text);
    TokensHoles(Patterns(), text);
    if ValueFree(text) {
      forall v: StringMap, w: StringMap
        ensures Render(text, target, v) == Render(text, target, w)
      {
        ValueFreeAgrees(text, target, v, w);
      }
    } else {
      var quiet, loud := Replacements(target, map[]), Replacements(target, Loud());
      LoudEntries(target);
      LongerFill(tokens, quiet, loud);
      assert Render(text, target, map[]) != Render(text, target, Loud());
    }
  }
}
