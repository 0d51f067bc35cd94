/**
 When the objects found while rendering for deletion, without values, are those found while
 rendering for apply.  Values are written into the text unescaped, so a value that contains a
 line break can add, rename or hide objects.
 */
module Agreement {
  import opened GoMaps
  import opened Objects
  import opened Separators
  import opened Replacer
  import opened Rendering
  import opened Manifests

  // ----- Tame values -----

  predicate AllQuiet(lines: seq<string>) {
    forall i :: 0 <= i < |lines| ==> Quiet(lines[i])
  }

  /** Every line that a value can change stays within its indentation when it is rendered, wherever YAML breaks it. */
  ghost predicate Tame(lines: seq<string>, target: Target, values: StringMap) {
    forall i :: 0 <= i < |lines| ==> ValueFree(lines[i]) || AllQuiet(Lines(Render(lines[i], target, values)))
  }

  lemma {:induction false} QuietVanish(lines: seq<string>)
    requires AllQuiet(lines)
    ensures Louds(lines) == []
  {
    if lines != [] {
      QuietVanish(lines[1..]);
    }
  }

  lemma LineAgrees(line: string, target: Target, v: StringMap, w: StringMap)
    requires ValueFree(line) || (AllQuiet(Lines(Render(line, target, v))) && AllQuiet(Lines(Render(line, target, w))))
    ensures Louds(Lines(Render(line, target, v))) == Louds(Lines(Render(line, target, w)))
  {
    hide Render, Lines, ValueFree;
    if ValueFree(line) {
      ValueFreeAgrees(line, target, v, w);
    } else {
      QuietVanish(Lines(Render(line, target, v)));
      QuietVanish(Lines(Render(line, target, w)));
    }
  }

  lemma {:induction false} LoudLinesAgree(lines: seq<string>, target: Target, v: StringMap, w: StringMap)
    requires Tame(lines, target, v) && Tame(lines, target, w)
    ensures Louds(AllLines(RenderLines(lines, target, v))) == Louds(AllLines(RenderLines(lines, target, w)))
  {
    if lines != [] {
      var rv, rw := RenderLines(lines, target, v), RenderLines(lines, target, w);
      assert rv[0] == Render(lines[0], target, v) && rv[1..] == RenderLines(lines[1..], target, v);
      assert rw[0] == Render(lines[0], target, w) && rw[1..] == RenderLines(lines[1..], target, w);
      hide Render, Lines, ValueFree, Louds;
      LoudLinesAgree(lines[1..], target, v, w);
      LineAgrees(lines[0], target, v, w);
      LoudsSum(Lines(rv[0]), AllLines(rv[1..]));
      LoudsSum(Lines(rw[0]), AllLines(rw[1..]));
    }
  }

  lemma RenderedLines(lines: seq<string>, target: Target, values: StringMap)
    requires lines != []
    ensures Lines(Render(Join(lines), target, values)) == AllLines(RenderLines(lines, target, values))
  {
    RenderByLine(lines, target, values);
    LinesOfJoin(RenderLines(lines, target, values));
  }

  /** Two renderings with tame values find the same objects, in the same order. */
  lemma TameAgrees(lines: seq<string>, target: Target, v: StringMap, w: StringMap)
    requires Tame(lines, target, v) && Tame(lines, target, w)
    ensures ManifestKeys(lines, target, v) == ManifestKeys(lines, target, w)
  {
    hide Render, Lines, Documents, Identities, Louds, ValueFree;
    if lines == [] {
      assert Render("", target, v) == Render("", target, w) == "" by { EmptyRenders(target, v); EmptyRenders(target, w); }
    } else {
      RenderedLines(lines, target, v);
      RenderedLines(lines, target, w);
      LoudLinesAgree(lines, target, v, w);
      IdentitiesFromLoud(AllLines(RenderLines(lines, target, v)), target.namespace);
      IdentitiesFromLoud(AllLines(RenderLines(lines, target, w)), target.namespace);
    }
  }

  lemma EmptyRenders(target: Target, values: StringMap)
    ensures Render("", target, values) == ""
  {
  }

  // ----- A condition on the manifest and one on the values -----

  /** Values appear only in lines that are three spaces in or more. */
  ghost predicate StableNames(lines: seq<string>) {
    forall i :: 0 <= i < |lines| ==> OneLineText(lines[i]) && (ValueFree(lines[i]) || Deep(lines[i]))
  }

  /** No placeholder that occurs in the manifest is filled with a line break. */
  ghost predicate OneLineValues(lines: seq<string>, target: Target, values: StringMap) {
    forall i :: 0 <= i < |lines| ==> !Breaks(lines[i], target, values)
  }

  lemma DeepRenders(line: string, target: Target, values: StringMap)
    requires Deep(line)
    ensures Deep(Render(line, target, values))
  {
    assert line == "   " + line[3..];
    hide Render;
    ThreeSpaces(line[3..], target, values);
  }

  /** With such a manifest, values without line breaks are tame. */
  lemma OneLineIsTame(lines: seq<string>, target: Target, values: StringMap)
    requires StableNames(lines) && OneLineValues(lines, target, values)
    ensures Tame(lines, target, values)
  {
    hide Render, ValueFree, Breaks;
    forall i | 0 <= i < |lines| && !ValueFree(lines[i])
      ensures AllQuiet(Lines(Render(lines[i], target, values)))
    {
      BreaksExact(lines[i], target, values);
      DeepRenders(lines[i], target, values);
      YamlWhole(Render(lines[i], target, values));
      assert '\n' !in Render(lines[i], target, values);
    }
  }

  // ----- Texts without any placeholder -----

  /** Every placeholder contains one of these characters. */
  predicate Marker(c: char) {
    c == 'l' || c == 's' || c == '1'
  }

  predicate HasMarker(text: string) {
    exists i :: 0 <= i < |text| && Marker(text[i])
  }

  lemma ReleaseMarked(p: Placeholder)
    requires GroupOf(p) == Group.Release
    ensures HasMarker(Text(p))
  {
    var text := Text(p);
    match p
    case AgwRelease => assert Marker(text[5]);
    case AgwNamespace => assert Marker(text[4]);
    case Orc8rRelease => assert Marker(text[7]);
    case Orc8rNamespace => assert Marker(text[6]);
    case Domain => assert Marker(text[8]);
    case ControllerHost => assert Marker(text[6]);
    case MagmaController => assert Marker(text[6]);
    case HostAliasIp => assert Marker(text[0]);
    case _ =>
  }

  lemma SuffixMarked(stem: string)
    ensures HasMarker(stem + "placeholder") && HasMarker(stem + "-controller.magma.local")
  {
    assert Marker((stem + "placeholder")[|stem| + 1]);
    assert Marker((stem + "-controller.magma.local")[|stem| + 7]);
  }

  lemma Marked(p: Placeholder)
    ensures HasMarker(Text(p))
  {
    if GroupOf(p) == Group.Release {
      ReleaseMarked(p);
    } else {
      SuffixMarked(Stem(p));
      hide HasMarker;
    }
  }

  lemma UnmarkedStart(text: string)
    requires forall i :: 0 <= i < |text| ==> !Marker(text[i])
    ensures !HasKeyAt(Patterns(), text)
  {
    forall k | k in Patterns()
      ensures !(k <= text)
    {
      PatternHasPlaceholder(k);
      Marked(PlaceholderOf(k));
      var i :| 0 <= i < |k| && Marker(k[i]);
      assert i < |text| ==> text[i] != k[i];
    }
  }

  lemma {:induction false} UnmarkedTokens(text: string)
    requires forall i :: 0 <= i < |text| ==> !Marker(text[i])
    ensures "" !in Patterns() && forall t :: t in Tokens(Patterns(), text) ==> t.Plain?
    ensures forall table: StringMap :: table.Keys == Patterns() ==> Substitute(table, text) == text
    decreases |text|
  {
    PatternsArePrefixFree();
    TokensHoles(Patterns(), text);
    if text != "" {
      assert !HasKeyAt(Patterns(), text) by { UnmarkedStart(text); }
      UnmarkedTokens(text[1..]);
      var rest := Tokens(Patterns(), text[1..]);
      assert Tokens(Patterns(), text) == [Plain(text[0])] + rest;
      forall table: StringMap | table.Keys == Patterns()
        ensures Substitute(table, text) == text
      {
        TokensHoles(Patterns(), text[1..]);
        assert Substitute(table, text[1..]) == text[1..];
        FillPlain(text[0], rest, table);
        assert text == [text[0]] + text[1..];
      }
    }
  }

  /** A text without these characters renders to itself, whatever the values. */
  lemma UnmarkedRenders(text: string, target: Target, values: StringMap)
    requires forall i :: 0 <= i < |text| ==> !Marker(text[i])
    ensures ValueFree(text) && Render(text, target, values) == text
  {
    GoodTable(target, values);
    UnmarkedTokens(text);
  }

  // ----- For all values: exactly the manifests without value placeholders -----

  /** The setting that a placeholder is filled from. */
  function Setting(p: Placeholder): string {
    match p
    case ControllerHost => "orc8r.nms.controllerHostname"
    case HostAliasIp => "orc8r.hostAliases.ip"
    case Challenge => "config.gwChallenge"
    case Hardware => "gatewayIdentity.snowflake"
    case S1 => "nodePrep.interfaces.s1.parent"
    case Sgi => "nodePrep.interfaces.nat.parent"
    case Organization => "nmsAdmin.organization"
    case Email => "nmsAdmin.email"
    case Password => "nmsAdmin.password"
    case NetworkId => "provisioning.network.id"
    case NetworkName => "provisioning.network.name"
    case Imsi => "provisioning.subscriber.imsi"
    case _ => "global.domainName"
  }

  function Front(p: Placeholder): string {
    match GroupOf(p)
    case Release => if p.MagmaController? then "controller." else ""
    case Setting => ""
    case _ => Stem(p) + "-controller."
  }

  lemma SettingFills(p: Placeholder, target: Target, text: string)
    requires !FromTarget(p) && text != ""
    ensures Value(p, target, map[Setting(p) := text]) == Front(p) + text
  {
    match GroupOf(p)
    case Setting => SettingFillsOwn(p, target, text);
    case Release => AddressFills(p, target, text);
    case _ => ServiceFills(p, target, text);
  }

  lemma SettingFillsOwn(p: Placeholder, target: Target, text: string)
    requires GroupOf(p) == Group.Setting && text != ""
    ensures Value(p, target, map[Setting(p) := text]) == Front(p) + text
  {
    assert Get(map[Setting(p) := text], Setting(p)) == text;
    assert "" + text == text;
  }

  lemma AddressFills(p: Placeholder, target: Target, text: string)
    requires GroupOf(p) == Group.Release && !FromTarget(p) && text != ""
    ensures Value(p, target, map[Setting(p) := text]) == Front(p) + text
  {
    assert Get(map[Setting(p) := text], Setting(p)) == text;
    assert "" + text == text;
  }

  lemma ServiceFills(p: Placeholder, target: Target, text: string)
    requires GroupOf(p) == Group.ServiceA || GroupOf(p) == Group.ServiceB
    requires text != ""
    ensures Value(p, target, map[Setting(p) := text]) == Front(p) + text
  {
    hide Stem;
    assert Get(map[Setting(p) := text], Setting(p)) == text;
    assert DomainName(map[Setting(p) := text]) == text;
  }

  lemma {:induction false} FillHolds(tokens: seq<Token>, table: StringMap, t: Token, text: string) returns (before: string, after: string)
    requires FilledBy(tokens, table) && t in tokens && t.Hole? && exists front :: table[t.key] == front + text
    ensures Fill(tokens, table) == before + text + after
  {
    var head := if tokens[0].Plain? then [tokens[0].c] else table[tokens[0].key];
    var rest := Fill(tokens[1..], table);
    if tokens[0] == t {
      var front :| table[t.key] == front + text;
      before, after := front, rest;
    } else {
      var b, a := FillHolds(tokens[1..], table, t, text);
      before, after := head + b, a;
      assert head + (b + text + a) == head + b + text + a;
    }
  }

  /** A line with a value placeholder can be made to contain any text. */
  lemma LineHolds(line: string, target: Target, text: string) returns (values: StringMap, before: string, after: string)
    requires !ValueFree(line) && text != ""
    ensures Render(line, target, values) == before + text + after
  {
    PatternsArePrefixFree();
    TokensHoles(Patterns(), line);
    var t :| t in Tokens(Patterns(), line) && t.Hole? && !FromTarget(PlaceholderOf(t.key));
    var p := PlaceholderOf(t.key);
    values := map[Setting(p) := text];
    GoodTable(target, values);
    SettingFills(p, target, text);
    assert Replacements(target, values)[t.key] == Front(p) + text;
    before, after := FillHolds(Tokens(Patterns(), line), Replacements(target, values), t, text);
  }

  // ----- A document between two separators is found, whatever is around it -----

  lemma DocumentsStep(lines: seq<string>)
    requires lines != []
    ensures var rest := Documents(lines[1..]);
      Documents(lines) == if IsSeparator(lines[0]) then [[]] + rest else [[lines[0]] + rest[0]] + rest[1..]
  {
  }

  lemma SumTail(a: seq<seq<string>>, b: seq<seq<string>>)
    requires a != []
    ensures (a + b)[0] == a[0] && (a + b)[1..] == a[1..] + b
  {
  }

  lemma {:induction false} DocumentsCut(a: seq<string>, b: seq<string>)
    ensures Documents(a + ["---"] + b) == Documents(a) + Documents(b)
  {
    hide Documents, IsSeparator;
    var all := a + ["---"] + b;
    if a == [] {
      assert all[0] == "---" && all[1..] == b;
      DashesSeparate();
      DocumentsStep(all);
      assert Documents(a) == [[]] by { NoDocuments(); }
    } else {
      assert all[0] == a[0] && all[1..] == a[1..] + ["---"] + b;
      DocumentsCut(a[1..], b);
      DocumentsStep(all);
      DocumentsStep(a);
      SumTail(Documents(a[1..]), Documents(b));
    }
  }

  lemma DashesSeparate()
    ensures IsSeparator("---")
  {
  }

  lemma NoDocuments()
    ensures Documents([]) == [[]]
  {
  }

  lemma {:induction false} OneDocument(doc: seq<string>)
    requires forall i :: 0 <= i < |doc| ==> !IsSeparator(doc[i])
    ensures Documents(doc) == [doc]
  {
    if doc != [] {
      OneDocument(doc[1..]);
      assert Documents(doc[1..])[0] == doc[1..] && doc == [doc[0]] + doc[1..];
    }
  }

  /** The identity that a document gives, if it is named. */
  function KeyOf(doc: seq<string>, namespace: string): seq<ObjectKey> {
    if Named(doc) then [DocKey(doc, namespace)] else []
  }

  lemma IdentitiesStep(docs: seq<seq<string>>, namespace: string)
    requires docs != []
    ensures Identities(docs, namespace) == KeyOf(docs[0], namespace) + Identities(docs[1..], namespace)
  {
    hide Named, DocKey;
  }

  lemma {:induction false} IdentitiesSum(a: seq<seq<string>>, b: seq<seq<string>>, namespace: string)
    ensures Identities(a + b, namespace) == Identities(a, namespace) + Identities(b, namespace)
  {
    hide KeyOf;
    if a == [] {
      assert a + b == b;
    } else {
      SumTail(a, b);
      IdentitiesSum(a[1..], b, namespace);
      IdentitiesStep(a, namespace);
      IdentitiesStep(a + b, namespace);
      hide Identities;
    }
  }

  // ----- Reading short documents -----

  lemma {:induction false} LastOne(lines: seq<string>, i: nat, prefix: string)
    requires i < |lines| && prefix <= lines[i] && !HasWith(lines[i + 1..], prefix)
    ensures LastWith(lines, prefix) == lines[i][|prefix|..]
  {
    if i > 0 {
      assert lines[1..][i..] == lines[i + 1..];
      assert HasWith(lines[1..], prefix) by { assert prefix <= lines[1..][i - 1]; }
      LastOne(lines[1..], i - 1, prefix);
    }
  }

  lemma {:induction false} LastNone(lines: seq<string>, prefix: string)
    requires !HasWith(lines, prefix)
    ensures LastWith(lines, prefix) == ""
  {
    if lines != [] {
      HasWithFirst(lines, prefix);
      LastNone(lines[1..], prefix);
    }
  }

  lemma {:induction false} MetadataAt(lines: seq<string>, i: nat)
    requires i < |lines| && lines[i] == "metadata:" && "metadata:" !in lines[i + 1..]
    ensures Metadata(lines) == Block(lines[i + 1..])
  {
    if i > 0 {
      assert lines[1..][i..] == lines[i + 1..] && lines[1..][i - 1] == "metadata:";
      MetadataAt(lines[1..], i - 1);
    }
  }

  function NameLine(name: string): string {
    "  name: " + name
  }

  lemma NameLineReads(name: string)
    ensures Block([NameLine(name)]) == [NameLine(name)]
    ensures LastWith([NameLine(name)], "  name: ") == name && LastWith([NameLine(name)], "  namespace: ") == ""
  {
    var line := NameLine(name);
    var none: seq<string> := [];
    assert line[0] == ' ' && line[8..] == name && [line][1..] == none;
    assert !HasWith(none, "  name: ") && Block(none) == none;
    LastOne([line], 0, "  name: ");
    assert !("  namespace: " <= line) by { assert line[6] == ':' && "  namespace: "[6] == 's'; }
    LastNone([line], "  namespace: ");
  }

  /** An object of this kind and name, and nothing else. */
  function SimpleDocument(kind: string, name: string): seq<string> {
    ["kind: " + kind, "metadata:", NameLine(name)]
  }

  lemma SimpleLines(kind: string, name: string)
    requires OneLineText(kind) && OneLineText(name)
    ensures YamlLines(SimpleDocument(kind, name)) == SimpleDocument(kind, name)
    ensures forall i :: 0 <= i < 3 ==> OneLineText(SimpleDocument(kind, name)[i]) && !IsSeparator(SimpleDocument(kind, name)[i])
  {
    var doc := SimpleDocument(kind, name);
    assert doc[0][0] == 'k' && doc[1][0] == 'm' && doc[2][0] == ' ' && "---"[0] == '-';
    LiteralsOneLine();
    OneLineSum("kind: ", kind);
    OneLineSum("  name: ", name);
    YamlUnbroken(doc);
  }

  lemma OneLineSum(a: string, b: string)
    requires OneLineText(a) && OneLineText(b)
    ensures OneLineText(a + b)
  {
  }

  lemma LiteralsOneLine()
    ensures OneLineText("---") && OneLineText("kind: ") && OneLineText("metadata:") && OneLineText("  name: ") && OneLineText("ConfigMap")
  {
  }

  lemma SimpleFields(kind: string, name: string)
    ensures var doc := SimpleDocument(kind, name);
      KindText(doc) == kind && NameText(doc) == name && NamespaceText(doc) == ""
  {
    var doc := SimpleDocument(kind, name);
    assert doc[0][..6] == "kind: " && doc[0][6..] == kind;
    assert doc[1] == "metadata:" && doc[2][0] == ' ' && doc[1..] == [doc[1], doc[2]] && doc[2..] == [doc[2]];
    assert !HasWith(doc[1..], "kind: ") by {
      assert "kind: "[0] == 'k' && doc[1][0] == 'm';
      assert forall i :: 0 <= i < 2 ==> doc[1..][i] == doc[i + 1];
    }
    LastOne(doc, 0, "kind: ");
    assert "metadata:" !in [doc[2]] by { assert "metadata:"[0] == 'm'; }
    MetadataAt(doc, 1);
    NameLineReads(name);
  }

  lemma SimpleIdentity(kind: string, name: string, namespace: string)
    requires OneLineText(kind) && OneLineText(name) && kind != "" && name != "" && !KindOf(kind).Namespace?
    ensures Named(SimpleDocument(kind, name)) && DocKey(SimpleDocument(kind, name), namespace) == ObjectKey(KindOf(kind), namespace, name)
  {
    hide KindOf, KindText, NameText, NamespaceText, SimpleDocument;
    SimpleLines(kind, name);
    SimpleFields(kind, name);
  }

  function ExtraDocument(name: string): seq<string> {
    SimpleDocument("ConfigMap", name)
  }

  lemma ExtraIdentity(name: string, namespace: string)
    requires name != "" && OneLineText(name)
    ensures Named(ExtraDocument(name)) && DocKey(ExtraDocument(name), namespace) == ObjectKey(ConfigMap, namespace, name)
    ensures forall i :: 0 <= i < 3 ==> OneLineText(ExtraDocument(name)[i]) && !IsSeparator(ExtraDocument(name)[i])
  {
    LiteralsOneLine();
    ConfigMapKind();
    SimpleLines("ConfigMap", name);
    SimpleIdentity("ConfigMap", name, namespace);
  }

  lemma ConfigMapKind()
    ensures KindOf("ConfigMap") == ConfigMap
  {
    assert "ConfigMap"[0] == 'C' && "Secret"[0] == 'S';
  }

  lemma ExtraFound(a: seq<string>, b: seq<string>, name: string, namespace: string)
    requires name != "" && OneLineText(name)
    ensures ObjectKey(ConfigMap, namespace, name) in Identities(Documents(a + ExtraLines(name) + b), namespace)
  {
    var doc := ExtraDocument(name);
    ExtraIdentity(name, namespace);
    OneDocument(doc);
    assert a + ExtraLines(name) + b == a + ["---"] + (doc + ["---"] + b);
    hide Documents, ExtraDocument, ExtraLines;
    DocumentsCut(a, doc + ["---"] + b);
    DocumentsCut(doc, b);
    IdentitiesSum(Documents(a), [doc] + Documents(b), namespace);
    assert Identities([doc] + Documents(b), namespace)[0] == ObjectKey(ConfigMap, namespace, name);
  }

  // ----- No name is longer than the text it comes from -----

  lemma {:induction false} LinesShort(text: string)
    ensures forall i :: 0 <= i < |Lines(text)| ==> |Lines(text)[i]| <= |text|
    decreases |text|
  {
    if '\n' in text {
      var i := IndexOf('\n', text);
      IndexOfFound('\n', text);
      LinesShort(text[i + 1..]);
    }
  }

  predicate Short(lines: seq<string>, bound: nat) {
    forall i :: 0 <= i < |lines| ==> |lines[i]| <= bound
  }

  lemma {:induction false} DocumentsShort(lines: seq<string>, bound: nat)
    requires Short(lines, bound)
    ensures forall i :: 0 <= i < |Documents(lines)| ==> Short(Documents(lines)[i], bound)
  {
    if lines != [] {
      DocumentsShort(lines[1..], bound);
    }
  }

  lemma {:induction false} BlockShort(lines: seq<string>, bound: nat)
    requires Short(lines, bound)
    ensures Short(Block(lines), bound)
  {
    if lines != [] {
      BlockShort(lines[1..], bound);
    }
  }

  lemma {:induction false} MetadataShort(doc: seq<string>, bound: nat)
    requires Short(doc, bound)
    ensures Short(Metadata(doc), bound)
  {
    if doc != [] {
      BlockShort(doc[1..], bound);
      MetadataShort(doc[1..], bound);
    }
  }

  lemma {:induction false} LastWithShort(lines: seq<string>, prefix: string, bound: nat)
    requires Short(lines, bound)
    ensures |LastWith(lines, prefix)| <= bound
  {
    if lines != [] {
      LastWithShort(lines[1..], prefix, bound);
    }
  }

  lemma {:induction false} CutShort(line: string)
    ensures Short(YamlCut(line), |line|)
    decreases |line|
  {
    var i := BreakIndex(line);
    if i < |line| {
      CutShort(line[i + 1..]);
    }
  }

  lemma {:induction false} YamlShort(doc: seq<string>, bound: nat)
    requires Short(doc, bound)
    ensures Short(YamlLines(doc), bound)
  {
    if doc != [] {
      CutShort(doc[0]);
      YamlShort(doc[1..], bound);
    }
  }

  lemma {:induction false} IdentitiesShort(docs: seq<seq<string>>, namespace: string, bound: nat, k: ObjectKey)
    requires forall i :: 0 <= i < |docs| ==> Short(docs[i], bound)
    requires k in Identities(docs, namespace)
    ensures |k.name| <= bound
  {
    if docs != [] {
      if k in Identities(docs[1..], namespace) {
        IdentitiesShort(docs[1..], namespace, bound, k);
      } else {
        YamlShort(docs[0], bound);
        MetadataShort(YamlLines(docs[0]), bound);
        LastWithShort(Metadata(YamlLines(docs[0])), "  name: ", bound);
      }
    }
  }

  lemma NamesShort(lines: seq<string>, target: Target, values: StringMap, k: ObjectKey)
    requires k in ManifestKeys(lines, target, values)
    ensures |k.name| <= |Render(Join(lines), target, values)|
  {
    hide Render, Documents, Lines, Identities;
    var text := Render(Join(lines), target, values);
    LinesShort(text);
    DocumentsShort(Lines(text), |text|);
    IdentitiesShort(Documents(Lines(text)), target.namespace, |text|, k);
  }

  // ----- The exact theorem -----

  function ExtraLines(name: string): seq<string> {
    ["---"] + ExtraDocument(name) + ["---"]
  }

  /** Text that closes the document it is written into and opens another one. */
  function Injection(name: string): string {
    "\n" + Join(ExtraLines(name)) + "\n"
  }

  lemma InjectionLines(before: string, name: string, after: string)
    requires OneLineText(name) && name != ""
    ensures Lines(before + Injection(name) + after) == Lines(before) + ExtraLines(name) + Lines(after)
  {
    var extra := ExtraLines(name);
    ExtraOneLine(name);
    hide Lines, ExtraLines, Join;
    LinesOfJoin(extra);
    OneLineAll(extra);
    Regroup(before, Join(extra), after);
    LinesJoin(before, Join(extra) + "\n" + after);
    LinesJoin(Join(extra), after);
    SumAssociates(Lines(before), extra, Lines(after));
  }

  lemma Regroup(a: string, b: string, c: string)
    ensures a + ("\n" + b + "\n") + c == a + "\n" + (b + "\n" + c)
  {
  }

  lemma ExtraOneLine(name: string)
    requires OneLineText(name) && name != ""
    ensures OneLineEach(ExtraLines(name)) && ExtraLines(name) != []
  {
    LiteralsOneLine();
    ExtraIdentity(name, "");
    var extra, doc := ExtraLines(name), ExtraDocument(name);
    assert extra == ["---", doc[0], doc[1], doc[2], "---"];
  }

  lemma {:induction false} AllLinesSplit(texts: seq<string>, i: nat)
    requires i < |texts|
    ensures AllLines(texts) == AllLines(texts[..i]) + Lines(texts[i]) + AllLines(texts[i + 1..])
  {
    if i > 0 {
      AllLinesSplit(texts[1..], i - 1);
      assert texts[1..][..i - 1] == texts[..i][1..] && texts[1..][i - 1] == texts[i] && texts[1..][i..] == texts[i + 1..];
    }
  }

  /** A value placeholder anywhere lets some value add an object that deletion does not find. */
  lemma ValuesAddObjects(lines: seq<string>, i: nat, target: Target, name: string) returns (values: StringMap)
    requires i < |lines| && !ValueFree(lines[i]) && name != "" && OneLineText(name)
    ensures ObjectKey(ConfigMap, target.namespace, name) in ManifestKeys(lines, target, values)
  {
    var before, after;
    values, before, after := LineHolds(lines[i], target, Injection(name));
    hide Render, Lines, Injection, ExtraLines, Documents, Identities, ValueFree, AllLines;
    RenderedLines(lines, target, values);
    var rendered := RenderLines(lines, target, values);
    AllLinesSplit(rendered, i);
    InjectionLines(before, name, after);
    var x, y := AllLines(rendered[..i]), AllLines(rendered[i + 1..]);
    Around(x, Lines(before), ExtraLines(name), Lines(after), y);
    ExtraFound(x + Lines(before), Lines(after) + y, name, target.namespace);
  }

  lemma Around(x: seq<string>, a: seq<string>, extra: seq<string>, b: seq<string>, y: seq<string>)
    ensures x + (a + extra + b) + y == x + a + extra + (b + y)
  {
  }

  /** Rendering with any values finds the objects that rendering without values finds. */
  ghost predicate AgreesForAll(lines: seq<string>, target: Target) {
    forall v: StringMap :: ManifestKeys(lines, target, v) == ManifestKeys(lines, target, map[])
  }

  /** Apply and delete agree for all values exactly when the manifest holds no value placeholder. */
  lemma AgreementExact(lines: seq<string>, target: Target)
    ensures AgreesForAll(lines, target) <==> forall i :: 0 <= i < |lines| ==> ValueFree(lines[i])
  {
    hide ValueFree, Render, ManifestKeys;
    if forall i :: 0 <= i < |lines| ==> ValueFree(lines[i]) {
      forall v: StringMap
        ensures ManifestKeys(lines, target, v) == ManifestKeys(lines, target, map[])
      {
        TameAgrees(lines, target, v, map[]);
      }
    } else {
      var i :| 0 <= i < |lines| && !ValueFree(lines[i]);
      var name := seq(|Render(Join(lines), target, map[])| + 1, _ => 'x');
      var v := ValuesAddObjects(lines, i, target, name);
      var k := ObjectKey(ConfigMap, target.namespace, name);
      if k in ManifestKeys(lines, target, map[]) {
        NamesShort(lines, target, map[], k);
      }
    }
  }

  /**
   A hardware ID with a newline in it is enough: written into the line that holds it, it adds a
   ConfigMap that the rendering for deletion does not find.
   */
  lemma HardwareIdAddsObject(target: Target)
    ensures var lines, values := ["   " + Text(Hardware)], map["gatewayIdentity.snowflake" := Injection("extra")];
      && ObjectKey(ConfigMap, target.namespace, "extra") in ManifestKeys(lines, target, values)
      && ManifestKeys(lines, target, map[]) == []
  {
    var lines, values := ["   " + Text(Hardware)], map["gatewayIdentity.snowflake" := Injection("extra")];
    HardwareLine(target, values);
    HardwareLine(target, map[]);
    var text := Render(lines[0], target, values);
    assert Injection("extra") + "" == Injection("extra");
    assert text == "   " + Injection("extra") + "";
    assert Join(lines) == lines[0];
    ShortName();
    hide Render, Lines, Injection, ExtraLines, Documents, Identities;
    InjectionLines("   ", "extra", "");
    ExtraFound(Lines("   "), Lines(""), "extra", target.namespace);
    BlankLine(target.namespace);
  }

  lemma ShortName()
    ensures OneLineText("extra")
  {
  }

  lemma ThreeSpaces(text: string, target: Target, values: StringMap)
    ensures Render("   " + text, target, values) == "   " + Render(text, target, values)
  {
    hide Render;
    SpaceKept(text, target, values);
    SpaceKept(" " + text, target, values);
    SpaceKept("  " + text, target, values);
    assert " " + (" " + text) == "  " + text && " " + ("  " + text) == "   " + text;
    var r := Render(text, target, values);
    assert " " + (" " + (" " + r)) == "   " + r;
  }

  lemma HardwareLine(target: Target, values: StringMap)
    ensures Render("   " + Text(Hardware), target, values) == "   " + Get(values, "gatewayIdentity.snowflake")
  {
    hide Render, Text;
    PlaceholderRenders(Hardware, target, values);
    ThreeSpaces(Text(Hardware), target, values);
  }

  lemma BlankLine(namespace: string)
    ensures Identities(Documents(Lines("   " + "")), namespace) == []
  {
    assert '\n' !in "   ";
    assert Lines("   ") == ["   "];
    var doc := ["   "];
    assert OneLineText("   ") && !IsSeparator("   ") by { assert "   "[0] == ' ' && "---"[0] == '-'; }
    assert Documents(doc) == [doc] by { OneDocument(doc); }
    YamlUnbroken(doc);
    assert !HasWith(doc, "kind: ") by { assert "   "[0] == ' ' && "kind: "[0] == 'k'; }
    LastNone(doc, "kind: ");
  }

  // ----- A carriage return renames an object -----

  /** A ConfigMap that holds the hardware ID in a deep line. */
  function HoldingLines(own: string): seq<string> {
    SimpleDocument("ConfigMap", own) + ["   " + Text(Hardware)]
  }

  /** A text that is one line for the reader and three for the decoder. */
  function Renaming(other: string): string {
    "x" + "\r" + ("metadata:" + "\r" + NameLine(other))
  }

  predicate Unmarked(s: string) {
    forall i :: 0 <= i < |s| ==> !Marker(s[i])
  }

  lemma UnmarkedSum(a: string, b: string)
    requires Unmarked(a) && Unmarked(b)
    ensures Unmarked(a + b)
  {
  }

  lemma LiteralsUnmarked()
    ensures Unmarked("kind: ") && Unmarked("ConfigMap") && Unmarked("metadata:") && Unmarked("  name: ")
  {
  }

  lemma SimpleRenders(kind: string, own: string, target: Target, values: StringMap)
    requires Unmarked(kind) && Unmarked(own)
    ensures forall i :: 0 <= i < 3 ==> ValueFree(SimpleDocument(kind, own)[i])
    ensures forall i :: 0 <= i < 3 ==> Render(SimpleDocument(kind, own)[i], target, values) == SimpleDocument(kind, own)[i]
  {
    hide Render, Unmarked, ValueFree;
    LiteralsUnmarked();
    UnmarkedSum("kind: ", kind);
    UnmarkedSum("  name: ", own);
    UnmarkedText("kind: " + kind, target, values);
    UnmarkedText("metadata:", target, values);
    UnmarkedText("  name: " + own, target, values);
  }

  lemma UnmarkedText(text: string, target: Target, values: StringMap)
    requires Unmarked(text)
    ensures ValueFree(text) && Render(text, target, values) == text
  {
    UnmarkedRenders(text, target, values);
  }

  lemma HoldingRendered(own: string, target: Target, id: string)
    requires Unmarked(own)
    ensures RenderLines(HoldingLines(own), target, map["gatewayIdentity.snowflake" := id]) == SimpleDocument("ConfigMap", own) + ["   " + id]
  {
    hide Render, Text, Unmarked;
    var values: StringMap := map["gatewayIdentity.snowflake" := id];
    LiteralsUnmarked();
    SimpleRenders("ConfigMap", own, target, values);
    HardwareLine(target, values);
    assert Get(values, "gatewayIdentity.snowflake") == id;
    assert |SimpleDocument("ConfigMap", own)| == 3;
    hide SimpleDocument;
  }

  lemma HeldDocument(own: string, id: string)
    requires OneLineText(own) && '\n' !in id
    ensures var doc := SimpleDocument("ConfigMap", own) + ["   " + id];
      AllLines(doc) == doc && Documents(doc) == [doc]
  {
    hide Lines, Documents, IsSeparator, SimpleDocument;
    LiteralsOneLine();
    SimpleLines("ConfigMap", own);
    SimpleThree("ConfigMap", own);
    DeepHolds(id);
    var simple, last := SimpleDocument("ConfigMap", own), "   " + id;
    var doc := simple + [last];
    forall i | 0 <= i < |doc|
      ensures '\n' !in doc[i] && !IsSeparator(doc[i])
    {
      assert doc[i] == if i < 3 then simple[i] else last;
    }
    OneLineAll(doc);
    OneDocument(doc);
  }

  lemma SimpleThree(kind: string, name: string)
    ensures |SimpleDocument(kind, name)| == 3
  {
  }

  lemma DeepHolds(id: string)
    requires '\n' !in id
    ensures '\n' !in "   " + id && !IsSeparator("   " + id)
  {
    assert ("   " + id)[0] == ' ' && "---"[0] == '-';
    assert '\n' !in "   ";
  }

  /** The one document that is decoded, for a hardware ID without newlines. */
  lemma HoldingRenders(own: string, target: Target, id: string)
    requires Unmarked(own) && OneLineText(own) && '\n' !in id
    ensures Documents(Lines(Render(Join(HoldingLines(own)), target, map["gatewayIdentity.snowflake" := id])))
         == [SimpleDocument("ConfigMap", own) + ["   " + id]]
  {
    hide Render, Lines, Documents, Text, SimpleDocument, Unmarked, RenderLines, AllLines, Join;
    HoldingRendered(own, target, id);
    RenderedLines(HoldingLines(own), target, map["gatewayIdentity.snowflake" := id]);
    HeldDocument(own, id);
  }

  lemma OneIdentity(doc: seq<string>, namespace: string)
    requires Named(doc)
    ensures Identities([doc], namespace) == [DocKey(doc, namespace)]
  {
    var none: seq<seq<string>> := [];
    assert [doc][1..] == none;
  }

  lemma CutAtReturn(a: string, b: string)
    requires forall i :: 0 <= i < |a| ==> !IsBreak(a[i])
    ensures YamlCut(a + "\r" + b) == [a] + YamlCut(b)
  {
    var line := a + "\r" + b;
    assert line[|a|] == '\r';
    assert forall i :: 0 <= i < |a| ==> line[i] == a[i];
    assert BreakIndex(line) == |a|;
    assert line[..|a|] == a && line[|a| + 1..] == b;
  }

  lemma IndentedOneLine()
    ensures OneLineText("   x")
  {
  }

  /** For the reader it is one line. */
  lemma RenamingOneLine(other: string)
    requires OneLineText(other)
    ensures '\n' !in Renaming(other)
  {
    LiteralsOneLine();
    OneLineSum("  name: ", other);
    var line := NameLine(other);
    assert '\n' !in line && '\n' !in "metadata:" && '\n' !in "x";
    hide NameLine, OneLineText;
  }

  lemma RenamingParts(other: string)
    ensures "   " + Renaming(other) == "   x" + "\r" + ("metadata:" + "\r" + NameLine(other))
  {
    hide NameLine;
  }

  /** For the decoder it is three. */
  lemma RenamingCuts(other: string)
    requires OneLineText(other)
    ensures YamlCut("   " + Renaming(other)) == ["   x", "metadata:", NameLine(other)]
  {
    hide YamlCut, Renaming, OneLineText;
    LiteralsOneLine();
    IndentedOneLine();
    OneLineSum("  name: ", other);
    RenamingParts(other);
    OneLineCutAt("   x", "metadata:" + "\r" + NameLine(other));
    OneLineCutAt("metadata:", NameLine(other));
    YamlWhole(NameLine(other));
  }

  lemma OneLineCutAt(a: string, b: string)
    requires OneLineText(a)
    ensures YamlCut(a + "\r" + b) == [a] + YamlCut(b)
  {
    CutAtReturn(a, b);
  }

  lemma {:induction false} YamlSum(a: seq<string>, b: seq<string>)
    ensures YamlLines(a + b) == YamlLines(a) + YamlLines(b)
  {
    if a == [] {
      assert a + b == b;
    } else {
      assert (a + b)[0] == a[0] && (a + b)[1..] == a[1..] + b;
      YamlSum(a[1..], b);
    }
  }

  /** The document as the decoder sees it. */
  lemma HeldLines(own: string, line: string)
    requires OneLineText(own)
    ensures YamlLines(SimpleDocument("ConfigMap", own) + [line]) == SimpleDocument("ConfigMap", own) + YamlCut(line)
  {
    hide YamlLines, SimpleDocument, OneLineText;
    LiteralsOneLine();
    SimpleLines("ConfigMap", own);
    YamlOne(line);
    YamlSum(SimpleDocument("ConfigMap", own), [line]);
  }

  lemma YamlOne(line: string)
    ensures YamlLines([line]) == YamlCut(line)
  {
    var none: seq<string> := [];
    assert [line][1..] == none && YamlLines(none) == none;
  }

  lemma OwnKept(own: string, namespace: string)
    requires OneLineText(own) && own != ""
    ensures var doc := SimpleDocument("ConfigMap", own) + ["   " + ""];
      Named(doc) && DocKey(doc, namespace) == ObjectKey(ConfigMap, namespace, own)
  {
    var simple := SimpleDocument("ConfigMap", own);
    assert "   " + "" == "   " && OneLineText("   ");
    HeldLines(own, "   ");
    YamlWhole("   ");
    hide YamlLines, SimpleDocument, KindText, NameText, NamespaceText;
    assert AllDeep(["   "]);
    DeepVanish(["   "]);
    ShallowsSum(simple, ["   "]);
    assert Shallows(simple) + [] == Shallows(simple);
    FieldsFromShallow(simple + ["   "], simple);
    SimpleFields("ConfigMap", own);
    ConfigMapKind();
  }

  lemma LaterMetadata(simple: seq<string>, deep: string, other: string)
    requires !HasWith([deep, "metadata:", NameLine(other)], "kind: ")
    ensures NameText(simple + [deep, "metadata:", NameLine(other)]) == other
    ensures NamespaceText(simple + [deep, "metadata:", NameLine(other)]) == ""
  {
    var lines, n := simple + [deep, "metadata:", NameLine(other)], |simple|;
    assert lines[n + 1] == "metadata:" && lines[n + 2..] == [NameLine(other)];
    assert "metadata:" !in [NameLine(other)] by { assert "metadata:"[0] == 'm' && NameLine(other)[0] == ' '; }
    MetadataAt(lines, n + 1);
    NameLineReads(other);
  }

  lemma KindStays(own: string, rest: seq<string>)
    requires !HasWith(rest, "kind: ")
    ensures KindText(SimpleDocument("ConfigMap", own) + rest) == "ConfigMap"
  {
    var simple := SimpleDocument("ConfigMap", own);
    var lines := simple + rest;
    assert lines[0][..6] == "kind: " && lines[0][6..] == "ConfigMap";
    assert lines[1][0] == 'm' && lines[2][0] == ' ' && "kind: "[0] == 'k';
    assert forall i :: 3 <= i < |lines| ==> lines[i] == rest[i - 3];
    assert forall i :: 0 <= i < |lines| - 1 ==> lines[1..][i] == lines[i + 1];
    assert !HasWith(lines[1..], "kind: ");
    LastOne(lines, 0, "kind: ");
  }

  lemma Renamed(own: string, other: string, namespace: string)
    requires OneLineText(own) && OneLineText(other) && other != ""
    ensures var doc := SimpleDocument("ConfigMap", own) + ["   " + Renaming(other)];
      Named(doc) && DocKey(doc, namespace) == ObjectKey(ConfigMap, namespace, other)
  {
    hide YamlLines, SimpleDocument, KindText, NameText, NamespaceText, KindOf, Renaming, NameLine, YamlCut, HasWith, OneLineText;
    RenamingCuts(other);
    HeldLines(own, "   " + Renaming(other));
    NoLaterKind(other);
    KindStays(own, ["   x", "metadata:", NameLine(other)]);
    LaterMetadata(SimpleDocument("ConfigMap", own), "   x", other);
    ConfigMapKind();
    assert "ConfigMap" != "";
  }

  lemma NoLaterKind(other: string)
    ensures !HasWith(["   x", "metadata:", NameLine(other)], "kind: ")
  {
    var rest := ["   x", "metadata:", NameLine(other)];
    assert "kind: "[0] == 'k' && rest[0][0] == ' ' && rest[1][0] == 'm' && rest[2][0] == ' ';
  }

  /**
   A hardware ID with a carriage return in it renames the object it is written into: the apply
   finds the other name, the deletion the own one.
   */
  lemma CarriageReturnRenames(own: string, other: string, target: Target)
    requires Unmarked(own) && OneLineText(own) && OneLineText(other) && own != "" && other != ""
    ensures ManifestKeys(HoldingLines(own), target, map["gatewayIdentity.snowflake" := Renaming(other)]) == [ObjectKey(ConfigMap, target.namespace, other)]
    ensures ManifestKeys(HoldingLines(own), target, map["gatewayIdentity.snowflake" := ""]) == [ObjectKey(ConfigMap, target.namespace, own)]
  {
    hide Render, Lines, Documents, Identities, Named, DocKey, Text, Renaming, SimpleDocument;
    RenamingOneLine(other);
    HoldingRenders(own, target, Renaming(other));
    HoldingRenders(own, target, "");
    Renamed(own, other, target.namespace);
    OwnKept(own, target.namespace);
    OneIdentity(SimpleDocument("ConfigMap", own) + ["   " + Renaming(other)], target.namespace);
    OneIdentity(SimpleDocument("ConfigMap", own) + ["   " + ""], target.namespace);
  }
}
