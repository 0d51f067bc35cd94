/**
 The names that manifest objects get.  A name written with the release placeholder becomes the
 release name followed by the rest; a name without placeholders stays as it is.
 */
module RenderedNames {
  import opened GoMaps
  import opened Objects
  import opened Separators
  import opened Replacer
  import opened Rendering
  import opened Manifests
  import opened Agreement

  // ----- Texts without placeholders -----

  /** No placeholder starts anywhere in the text. */
  ghost predicate PlaceholderFree(text: string) {
    forall i :: 0 <= i <= |text| ==> !HasKeyAt(Patterns(), text[i..])
  }

  lemma PlainRenders(text: string, target: Target, values: StringMap)
    requires text != "" && !HasKeyAt(Patterns(), text)
    ensures Render(text, target, values) == [text[0]] + Render(text[1..], target, values)
  {
    GoodTable(target, values);
    TokensHoles(Patterns(), text[1..]);
    FillPlain(text[0], Tokens(Patterns(), text[1..]), Replacements(target, values));
  }

  lemma HoleRenders(p: Placeholder, rest: string, target: Target, values: StringMap)
    ensures Render(Text(p) + rest, target, values) == Value(p, target, values) + Render(rest, target, values)
  {
    GoodTable(target, values);
    OwnPattern(p);
    hide Text, Value;
    var keys, text := Patterns(), Text(p) + rest;
    assert Text(p) <= text;
    assert HasKeyAt(keys, text);
    var k := KeyAt(keys, text);
    assert k == Text(p) by { PrefixesNest(k, Text(p), text); }
    assert text[|k|..] == rest;
    TokensHoles(keys, rest);
    assert Tokens(keys, text) == [Hole(k)] + Tokens(keys, rest);
    FillHole(k, Tokens(keys, rest), Replacements(target, values));
  }

  lemma FreeTail(text: string)
    requires text != "" && PlaceholderFree(text)
    ensures !HasKeyAt(Patterns(), text) && PlaceholderFree(text[1..])
  {
    assert text[0..] == text;
    forall i | 0 <= i <= |text[1..]|
      ensures !HasKeyAt(Patterns(), text[1..][i..])
    {
      assert text[1..][i..] == text[i + 1..];
    }
  }

  lemma {:induction false} FreeRenders(text: string, target: Target, values: StringMap)
    requires PlaceholderFree(text)
    ensures Render(text, target, values) == text
  {
    if text == "" {
      EmptyRenders(target, values);
    } else {
      hide Render, PlaceholderFree;
      FreeTail(text);
      PlainRenders(text, target, values);
      FreeRenders(text[1..], target, values);
      assert text == [text[0]] + text[1..];
    }
  }

  /** Text after the release placeholder follows the release name. */
  lemma ReleasePrefix(rest: string, target: Target, values: StringMap)
    requires PlaceholderFree(rest)
    ensures Render("agwrel" + rest, target, values) == target.release + rest
    ensures Render("orc8rrel" + rest, target, values) == target.release + rest
  {
    hide Render;
    HoleRenders(AgwRelease, rest, target, values);
    HoleRenders(Orc8rRelease, rest, target, values);
    FreeRenders(rest, target, values);
  }

  lemma NamespaceRenders(target: Target, values: StringMap)
    ensures Render("agwns", target, values) == target.namespace
    ensures Render("orc8rns", target, values) == target.namespace
  {
    hide Render;
    PlaceholderRenders(AgwNamespace, target, values);
    PlaceholderRenders(Orc8rNamespace, target, values);
  }

  // ----- A simple test for being free of placeholders -----

  /** Every placeholder contains one of these, too. */
  predicate Sign(c: char) {
    c == 'w' || c == '8' || c == '.' || c == 'h'
  }

  predicate Signless(text: string) {
    forall i :: 0 <= i < |text| ==> !Sign(text[i])
  }

  lemma ReleaseSigned(p: Placeholder)
    requires GroupOf(p) == Group.Release
    ensures !Signless(Text(p))
  {
    var text := Text(p);
    match p
    case AgwRelease => assert Sign(text[2]);
    case AgwNamespace => assert Sign(text[2]);
    case Orc8rRelease => assert Sign(text[3]);
    case Orc8rNamespace => assert Sign(text[3]);
    case Domain => assert Sign(text[12]);
    case ControllerHost => assert Sign(text[16]);
    case MagmaController => assert Sign(text[10]);
    case HostAliasIp => assert Sign(text[2]);
    case _ =>
  }

  lemma SuffixSigned(stem: string)
    ensures !Signless(stem + "placeholder") && !Signless(stem + "-controller.magma.local")
  {
    assert Sign((stem + "placeholder")[|stem| + 5]);
    assert Sign((stem + "-controller.magma.local")[|stem| + 11]);
  }

  lemma Signed(p: Placeholder)
    ensures !Signless(Text(p))
  {
    if GroupOf(p) == Group.Release {
      ReleaseSigned(p);
    } else {
      SuffixSigned(Stem(p));
      hide Signless;
    }
  }

  lemma SignlessFree(text: string)
    requires Signless(text)
    ensures PlaceholderFree(text)
  {
    forall i, k | 0 <= i <= |text| && k in Patterns()
      ensures !(k <= text[i..])
    {
      PatternHasPlaceholder(k);
      Signed(PlaceholderOf(k));
      var j :| 0 <= j < |k| && Sign(k[j]);
      assert j < |text[i..]| ==> text[i..][j] == text[i + j];
    }
  }

  // ----- Fields keep their place -----

  /** A space never belongs to a placeholder. */
  lemma SpaceLocal(a: string, b: string, target: Target, values: StringMap)
    ensures Render(a + " " + b, target, values) == Render(a, target, values) + " " + Render(b, target, values)
  {
    PatternsOneLine();
    GoodTable(target, values);
    SubstituteLocal(Replacements(target, values), a, ' ', b);
    assert " " == [' '];
  }

  lemma FieldRenders(field: string, value: string, target: Target, values: StringMap)
    requires Signless(field)
    ensures Render(field + " " + value, target, values) == field + " " + Render(value, target, values)
  {
    hide Render;
    SpaceLocal(field, value, target, values);
    SignlessFree(field);
    FreeRenders(field, target, values);
  }

  lemma FieldNames()
    ensures Signless("kind:") && Signless("  name:") && Signless("  namespace:") && Signless("---")
  {
  }

  const FIELDS: seq<string> := ["kind: ", "  name: ", "  namespace: "]

  /** A line that rendering cannot turn into another field: indented, without placeholders, or one of the fields itself. */
  ghost predicate Steady(line: string) {
    Deep(line) || PlaceholderFree(line) || (exists i :: 0 <= i < 3 && FIELDS[i] <= line)
  }

  lemma FieldLine(i: nat, value: string, target: Target, values: StringMap)
    requires i < 3
    ensures Render(FIELDS[i] + value, target, values) == FIELDS[i] + Render(value, target, values)
  {
    hide Render, Signless;
    FieldNames();
    var rest := Render(value, target, values);
    if i == 0 {
      FieldRenders("kind:", value, target, values);
      assert "kind:" + " " + value == FIELDS[0] + value && "kind:" + " " + rest == FIELDS[0] + rest;
    } else if i == 1 {
      FieldRenders("  name:", value, target, values);
      assert "  name:" + " " + value == FIELDS[1] + value && "  name:" + " " + rest == FIELDS[1] + rest;
    } else {
      FieldRenders("  namespace:", value, target, values);
      assert "  namespace:" + " " + value == FIELDS[2] + value && "  namespace:" + " " + rest == FIELDS[2] + rest;
    }
  }

  lemma FieldsApart(i: nat, j: nat, line: string)
    requires i < 3 && j < 3 && FIELDS[i] <= line && FIELDS[j] <= line
    ensures i == j
  {
    assert FIELDS[0][0] == 'k' && FIELDS[1][0] == ' ' && FIELDS[2][0] == ' ' && FIELDS[1][6] == ':' && FIELDS[2][6] == 's';
  }

  lemma FieldsShallow(i: nat, line: string)
    requires i < 3 && FIELDS[i] <= line
    ensures !Deep(line)
  {
    assert FIELDS[0][0] == 'k' && FIELDS[1][2] == 'n' && FIELDS[2][2] == 'n' && "   "[0] == ' ' && "   "[2] == ' ';
  }

  /** A steady line has a field after rendering exactly when it had it before, with the value rendered. */
  lemma FieldKept(line: string, j: nat, target: Target, values: StringMap)
    requires Steady(line) && j < 3
    ensures var p, r := FIELDS[j], Render(line, target, values);
      (p <= r <==> p <= line) && (p <= line ==> r[|p|..] == Render(line[|p|..], target, values))
  {
    hide Render, PlaceholderFree, Deep;
    var p := FIELDS[j];
    if i :| 0 <= i < 3 && FIELDS[i] <= line {
      FieldLine(i, line[|FIELDS[i]|..], target, values);
      assert line == FIELDS[i] + line[|FIELDS[i]|..];
      var r := Render(line, target, values);
      assert FIELDS[i] <= r && r[|FIELDS[i]|..] == Render(line[|FIELDS[i]|..], target, values);
      if p <= r { FieldsApart(i, j, r); }
      if p <= line { FieldsApart(i, j, line); }
    } else if Deep(line) {
      DeepRenders(line, target, values);
      if p <= Render(line, target, values) { FieldsShallow(j, Render(line, target, values)); }
    } else {
      FreeRenders(line, target, values);
    }
  }

  /** What decides about blocks: the metadata line itself, and whether a line is indented. */
  lemma BlockKept(line: string, target: Target, values: StringMap)
    requires Steady(line)
    ensures var r := Render(line, target, values);
      && (r == "metadata:" <==> line == "metadata:")
      && (r != "" && r[0] != ' ' <==> line != "" && line[0] != ' ')
      && (IsSeparator(r) <==> IsSeparator(line))
  {
    hide Render, PlaceholderFree;
    assert "metadata:"[0] == 'm' && "---"[0] == '-' && FIELDS[0][0] == 'k' && FIELDS[1][0] == ' ' && FIELDS[2][0] == ' ' && "   "[0] == ' ';
    if i :| 0 <= i < 3 && FIELDS[i] <= line {
      FieldLine(i, line[|FIELDS[i]|..], target, values);
      assert line == FIELDS[i] + line[|FIELDS[i]|..];
      assert Render(line, target, values)[0] == FIELDS[i][0] == line[0];
    } else if Deep(line) {
      DeepRenders(line, target, values);
      assert Render(line, target, values)[0] == ' ' == line[0];
    } else {
      FreeRenders(line, target, values);
    }
  }

  ghost predicate AllSteady(lines: seq<string>) {
    forall i :: 0 <= i < |lines| ==> Steady(lines[i])
  }

  lemma RenderTail(lines: seq<string>, target: Target, values: StringMap)
    requires lines != []
    ensures RenderLines(lines, target, values)[0] == Render(lines[0], target, values)
    ensures RenderLines(lines, target, values)[1..] == RenderLines(lines[1..], target, values)
  {
    hide Render;
  }

  lemma SteadyTail(lines: seq<string>)
    requires AllSteady(lines) && lines != []
    ensures Steady(lines[0]) && AllSteady(lines[1..])
  {
    hide Steady;
  }

  lemma {:induction false} HasKept(lines: seq<string>, j: nat, target: Target, values: StringMap)
    requires AllSteady(lines) && j < 3
    ensures HasWith(RenderLines(lines, target, values), FIELDS[j]) <==> HasWith(lines, FIELDS[j])
  {
    hide Render, Steady, RenderLines, AllSteady;
    if lines == [] {
      assert RenderLines(lines, target, values) == [];
    } else {
      SteadyTail(lines);
      RenderTail(lines, target, values);
      FieldKept(lines[0], j, target, values);
      HasKept(lines[1..], j, target, values);
      HasWithFirst(lines, FIELDS[j]);
      HasWithFirst(RenderLines(lines, target, values), FIELDS[j]);
    }
  }

  lemma {:induction false} LastKept(lines: seq<string>, j: nat, target: Target, values: StringMap)
    requires AllSteady(lines) && j < 3
    ensures LastWith(RenderLines(lines, target, values), FIELDS[j]) == Render(LastWith(lines, FIELDS[j]), target, values)
  {
    hide Render, Steady, RenderLines, HasWith, AllSteady;
    if lines == [] {
      assert RenderLines(lines, target, values) == [];
      EmptyRenders(target, values);
    } else {
      SteadyTail(lines);
      RenderTail(lines, target, values);
      FieldKept(lines[0], j, target, values);
      LastKept(lines[1..], j, target, values);
      HasKept(lines[1..], j, target, values);
    }
  }

  lemma {:induction false} BlockRenders(lines: seq<string>, target: Target, values: StringMap)
    requires AllSteady(lines)
    ensures AllSteady(Block(lines)) && Block(RenderLines(lines, target, values)) == RenderLines(Block(lines), target, values)
  {
    hide Render, Steady, IsSeparator;
    if lines != [] {
      SteadyTail(lines);
      RenderTail(lines, target, values);
      BlockKept(lines[0], target, values);
      BlockRenders(lines[1..], target, values);
    }
  }

  lemma {:induction false} MetadataIn(lines: seq<string>, target: Target, values: StringMap)
    requires AllSteady(lines)
    ensures "metadata:" in RenderLines(lines, target, values) <==> "metadata:" in lines
  {
    hide Render, Steady, IsSeparator;
    if lines != [] {
      SteadyTail(lines);
      RenderTail(lines, target, values);
      BlockKept(lines[0], target, values);
      MetadataIn(lines[1..], target, values);
      var r := RenderLines(lines, target, values);
      assert "metadata:" in r <==> r[0] == "metadata:" || "metadata:" in r[1..];
      assert "metadata:" in lines <==> lines[0] == "metadata:" || "metadata:" in lines[1..];
    }
  }

  lemma {:induction false} MetadataRenders(lines: seq<string>, target: Target, values: StringMap)
    requires AllSteady(lines)
    ensures AllSteady(Metadata(lines)) && Metadata(RenderLines(lines, target, values)) == RenderLines(Metadata(lines), target, values)
  {
    hide Render, Steady, IsSeparator, Block;
    if lines != [] {
      SteadyTail(lines);
      RenderTail(lines, target, values);
      BlockKept(lines[0], target, values);
      MetadataIn(lines[1..], target, values);
      BlockRenders(lines[1..], target, values);
      MetadataRenders(lines[1..], target, values);
    }
  }

  /** Kind, name and namespace of a steady document are the rendered kind, name and namespace. */
  lemma FieldsRender(doc: seq<string>, target: Target, values: StringMap)
    requires AllSteady(doc)
    ensures var r := RenderLines(doc, target, values);
      && KindText(r) == Render(KindText(doc), target, values)
      && NameText(r) == Render(NameText(doc), target, values)
      && NamespaceText(r) == Render(NamespaceText(doc), target, values)
  {
    hide Render, Steady, RenderLines, LastWith, Metadata, AllSteady;
    MetadataRenders(doc, target, values);
    LastKept(doc, 0, target, values);
    LastKept(Metadata(doc), 1, target, values);
    LastKept(Metadata(doc), 2, target, values);
  }

  // ----- In a whole manifest -----

  /** The object stands between two separators; whatever comes before and after, it is found under its own name. */
  function Between(before: seq<string>, doc: seq<string>, after: seq<string>): seq<string> {
    before + ["---"] + doc + ["---"] + after
  }

  lemma RenderLinesSum(a: seq<string>, b: seq<string>, target: Target, values: StringMap)
    ensures RenderLines(a + b, target, values) == RenderLines(a, target, values) + RenderLines(b, target, values)
  {
    hide Render;
  }

  lemma {:induction false} AllLinesSum(a: seq<string>, b: seq<string>)
    ensures AllLines(a + b) == AllLines(a) + AllLines(b)
  {
    if a == [] {
      assert a + b == b;
    } else {
      assert (a + b)[0] == a[0] && (a + b)[1..] == a[1..] + b;
      hide Lines;
      AllLinesSum(a[1..], b);
    }
  }

  lemma SeparatorRenders(target: Target, values: StringMap)
    ensures RenderLines(["---"], target, values) == ["---"] && AllLines(["---"]) == ["---"]
  {
    FieldNames();
    SignlessFree("---");
    FreeRenders("---", target, values);
    assert RenderLines(["---"], target, values) == [Render("---", target, values)];
    assert '\n' !in "---";
    OneLineAll(["---"]);
  }

  lemma BetweenRenders(before: seq<string>, doc: seq<string>, after: seq<string>, target: Target, values: StringMap)
    requires OneLineEach(RenderLines(doc, target, values))
    ensures AllLines(RenderLines(Between(before, doc, after), target, values))
         == AllLines(RenderLines(before, target, values)) + ["---"] + RenderLines(doc, target, values) + ["---"] + AllLines(RenderLines(after, target, values))
  {
    hide Render, Lines, RenderLines, AllLines;
    var a, d, b := RenderLines(before, target, values), RenderLines(doc, target, values), RenderLines(after, target, values);
    SeparatorRenders(target, values);
    RenderLinesSum(before + ["---"] + doc + ["---"], after, target, values);
    RenderLinesSum(before + ["---"] + doc, ["---"], target, values);
    RenderLinesSum(before + ["---"], doc, target, values);
    RenderLinesSum(before, ["---"], target, values);
    AllLinesSum(a + ["---"] + d + ["---"], b);
    AllLinesSum(a + ["---"] + d, ["---"]);
    AllLinesSum(a + ["---"], d);
    AllLinesSum(a, ["---"]);
    OneLineAll(d);
  }

  lemma FoundBetween(a: seq<string>, doc: seq<string>, b: seq<string>, namespace: string)
    requires Named(doc) && forall i :: 0 <= i < |doc| ==> !IsSeparator(doc[i])
    ensures DocKey(doc, namespace) in Identities(Documents(a + ["---"] + doc + ["---"] + b), namespace)
  {
    hide Documents, Identities, Named, DocKey, IsSeparator;
    OneDocument(doc);
    assert a + ["---"] + doc + ["---"] + b == a + ["---"] + (doc + ["---"] + b);
    DocumentsCut(a, doc + ["---"] + b);
    DocumentsCut(doc, b);
    IdentitiesSum(Documents(a), [doc] + Documents(b), namespace);
    IdentitiesSum([doc], Documents(b), namespace);
    OneIdentity(doc, namespace);
  }

  /** The document renders line by line, and its fields keep their place. */
  ghost predicate Renders(doc: seq<string>, target: Target, values: StringMap) {
    && AllSteady(doc)
    && (forall i :: 0 <= i < |doc| ==> !IsSeparator(doc[i]))
    && (forall i :: 0 <= i < |doc| ==> OneLineText(Render(doc[i], target, values)))
  }

  lemma RenderedDocument(doc: seq<string>, target: Target, values: StringMap)
    requires Renders(doc, target, values)
    ensures var r := RenderLines(doc, target, values);
      OneLineEach(r) && YamlLines(r) == r && forall i :: 0 <= i < |r| ==> !IsSeparator(r[i])
  {
    hide Render, Steady, IsSeparator, OneLineText;
    var r := RenderLines(doc, target, values);
    forall i | 0 <= i < |r|
      ensures OneLineText(r[i]) && !IsSeparator(r[i])
    {
      BlockKept(doc[i], target, values);
    }
    EachOneLine(r);
    YamlUnbroken(r);
  }

  lemma EachOneLine(doc: seq<string>)
    requires forall i :: 0 <= i < |doc| ==> OneLineText(doc[i])
    ensures OneLineEach(doc)
  {
    forall i | 0 <= i < |doc|
      ensures '\n' !in doc[i]
    {
      assert OneLineText(doc[i]);
    }
  }

  /** Whatever else the manifest and the values hold, the object is found under its rendered kind, namespace and name. */
  lemma ObjectFound(before: seq<string>, doc: seq<string>, after: seq<string>, target: Target, values: StringMap)
    requires Renders(doc, target, values)
    requires Render(KindText(doc), target, values) != "" && Render(NameText(doc), target, values) != ""
    ensures var kind, namespace := KindOf(Render(KindText(doc), target, values)), Render(NamespaceText(doc), target, values);
      ObjectKey(kind, if namespace == "" && !kind.Namespace? then target.namespace else namespace, Render(NameText(doc), target, values))
        in ManifestKeys(Between(before, doc, after), target, values)
  {
    hide Render, Lines, Documents, Identities, IsSeparator, KindOf, RenderLines, AllLines, KindText, NameText, NamespaceText, YamlLines, Renders;
    var r := RenderLines(doc, target, values);
    RenderedDocument(doc, target, values);
    SteadyDocument(doc, target, values);
    FieldsRender(doc, target, values);
    BetweenRenders(before, doc, after, target, values);
    RenderedLines(Between(before, doc, after), target, values);
    FoundBetween(AllLines(RenderLines(before, target, values)), r, AllLines(RenderLines(after, target, values)), target.namespace);
  }

  lemma SteadyDocument(doc: seq<string>, target: Target, values: StringMap)
    requires Renders(doc, target, values)
    ensures AllSteady(doc)
  {
  }

  /** An object named after the release placeholder is found under the release name, in the namespace of the release. */
  lemma ReleaseNamed(before: seq<string>, doc: seq<string>, after: seq<string>, rest: string, target: Target, values: StringMap)
    requires Renders(doc, target, values) && NameText(doc) == "agwrel" + rest && NamespaceText(doc) == "agwns"
    requires PlaceholderFree(rest) && PlaceholderFree(KindText(doc)) && KindText(doc) != "" && target.release != "" && target.namespace != ""
    ensures ObjectKey(KindOf(KindText(doc)), target.namespace, target.release + rest) in ManifestKeys(Between(before, doc, after), target, values)
  {
    hide Render, ManifestKeys, PlaceholderFree, KindOf, Between, KindText, NameText, NamespaceText, Renders;
    ReleasePrefix(rest, target, values);
    NamespaceRenders(target, values);
    FreeRenders(KindText(doc), target, values);
    ObjectFound(before, doc, after, target, values);
  }

  /** An object with a name of its own keeps it, whatever the release is called. */
  lemma OwnNamed(before: seq<string>, doc: seq<string>, after: seq<string>, target: Target, values: StringMap)
    requires Renders(doc, target, values) && NameText(doc) != "" && NamespaceText(doc) == "agwns"
    requires PlaceholderFree(NameText(doc)) && PlaceholderFree(KindText(doc)) && KindText(doc) != "" && target.namespace != ""
    ensures ObjectKey(KindOf(KindText(doc)), target.namespace, NameText(doc)) in ManifestKeys(Between(before, doc, after), target, values)
  {
    hide Render, ManifestKeys, PlaceholderFree, KindOf, Between, KindText, NameText, NamespaceText, Renders;
    FreeRenders(NameText(doc), target, values);
    NamespaceRenders(target, values);
    FreeRenders(KindText(doc), target, values);
    ObjectFound(before, doc, after, target, values);
  }
}
