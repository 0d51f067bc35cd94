/**
 Manifests as text: lines, documents, and the lines that give a document its identity.  The
 reader cuts documents at newline-terminated lines of three dashes.  The decoder then reads the
 block style that the embedded manifests are written in, breaking lines wherever YAML does: the
 kind is a top-level field, name and namespace are fields of the metadata block, two spaces in,
 and the last of several equal fields wins.
 */
module Manifests {
  import opened GoMaps
  import opened Objects
  import opened Separators
  import opened Replacer
  import opened Rendering

  // ----- Lines -----

  function Lines(text: string): (lines: seq<string>)
    ensures lines != []
    ensures forall i :: 0 <= i < |lines| ==> '\n' !in lines[i]
    decreases |text|
  {
    if '\n' !in text then [text]
    else
      var i := IndexOf('\n', text);
      IndexOfFound('\n', text);
      [text[..i]] + Lines(text[i + 1..])
  }

  lemma LinesCut(a: string, b: string)
    requires '\n' !in a
    ensures Lines(a + "\n" + b) == [a] + Lines(b)
  {
    var text := a + "\n" + b;
    assert text[|a|] == '\n';
    IndexOfFirst('\n', a, b);
    assert text == a + ['\n'] + b;
    assert IndexOf('\n', text) == |a|;
    assert text[..|a|] == a && text[|a| + 1..] == b;
  }

  lemma Reassociate(a: string, b: string, c: string)
    ensures a + "\n" + b + "\n" + c == a + "\n" + (b + "\n" + c)
  {
  }

  lemma LinesJoinStep(head: string, tail: string, b: string)
    requires '\n' !in head && Lines(tail + "\n" + b) == Lines(tail) + Lines(b)
    ensures Lines(head + "\n" + tail + "\n" + b) == Lines(head + "\n" + tail) + Lines(b)
  {
    hide Lines;
    Reassociate(head, tail, b);
    LinesCut(head, tail + "\n" + b);
    LinesCut(head, tail);
    SumAssociates([head], Lines(tail), Lines(b));
  }

  lemma SumAssociates(a: seq<string>, b: seq<string>, c: seq<string>)
    ensures a + (b + c) == a + b + c
  {
  }

  lemma {:induction false} LinesJoin(a: string, b: string)
    ensures Lines(a + "\n" + b) == Lines(a) + Lines(b)
    decreases |a|
  {
    if '\n' !in a {
      LinesCut(a, b);
    } else {
      var i := IndexOf('\n', a);
      IndexOfFound('\n', a);
      var head, tail := a[..i], a[i + 1..];
      assert a == head + "\n" + tail;
      hide Lines, IndexOf;
      LinesJoin(tail, b);
      LinesJoinStep(head, tail, b);
    }
  }

  function AllLines(texts: seq<string>): seq<string> {
    if texts == [] then [] else Lines(texts[0]) + AllLines(texts[1..])
  }

  lemma {:induction false} LinesOfJoin(texts: seq<string>)
    requires texts != []
    ensures Lines(Join(texts)) == AllLines(texts)
  {
    if |texts| == 1 {
      assert texts[1..] == [];
    } else {
      LinesJoin(texts[0], Join(texts[1..]));
      LinesOfJoin(texts[1..]);
    }
  }

  predicate OneLineEach(texts: seq<string>) {
    forall i :: 0 <= i < |texts| ==> '\n' !in texts[i]
  }

  lemma {:induction false} OneLineAll(texts: seq<string>)
    requires OneLineEach(texts)
    ensures AllLines(texts) == texts
  {
    if texts != [] {
      OneLineAll(texts[1..]);
      assert Lines(texts[0]) == [texts[0]];
    }
  }

  /**
   Cutting the rendered manifest at newlines gives back the rendered lines exactly when none of
   them contains a newline.
   */
  lemma SplitExact(lines: seq<string>, target: Target, values: StringMap)
    requires lines != []
    ensures Lines(Render(Join(lines), target, values)) == RenderLines(lines, target, values)
      <==> OneLineEach(RenderLines(lines, target, values))
  {
    var rendered := RenderLines(lines, target, values);
    RenderByLine(lines, target, values);
    LinesOfJoin(rendered);
    if OneLineEach(rendered) {
      OneLineAll(rendered);
    }
  }

  // ----- Which rendered lines contain a line break -----

  lemma {:induction false} FillContains(tokens: seq<Token>, table: StringMap, c: char)
    requires FilledBy(tokens, table)
    ensures c in Fill(tokens, table) <==> exists t :: t in tokens && (if t.Plain? then t.c == c else c in table[t.key])
  {
    if tokens != [] {
      FillContains(tokens[1..], table, c);
      var head := if tokens[0].Plain? then [tokens[0].c] else table[tokens[0].key];
      assert Fill(tokens, table) == head + Fill(tokens[1..], table);
      assert forall t :: t in tokens <==> t == tokens[0] || t in tokens[1..];
    }
  }

  lemma {:induction false} PlainTokens(keys: set<string>, text: string)
    requires "" !in keys
    ensures forall t :: t in Tokens(keys, text) && t.Plain? ==> t.c in text
    decreases |text|
  {
    if text != "" {
      var n := if HasKeyAt(keys, text) then |KeyAt(keys, text)| else 1;
      PlainTokens(keys, text[n..]);
    }
  }

  /** Where YAML breaks a line, apart from the newline. */
  predicate IsBreak(c: char) {
    c == '\r' || c == '\U{0085}' || c == '\U{2028}' || c == '\U{2029}'
  }

  predicate Breaking(c: char) {
    c == '\n' || IsBreak(c)
  }

  /** One line, for the reader and for the decoder. */
  predicate OneLineText(s: string) {
    forall i :: 0 <= i < |s| ==> !Breaking(s[i])
  }

  /** A placeholder of the line is filled with a line break. */
  ghost predicate Breaks(line: string, target: Target, values: StringMap) {
    GoodTable(target, values);
    exists t :: t in Tokens(Patterns(), line) && t.Hole? && t.key in Patterns() && !OneLineText(Value(PlaceholderOf(t.key), target, values))
  }

  /** A line renders to one line exactly when no placeholder in it is filled with a line break. */
  lemma BreaksExact(line: string, target: Target, values: StringMap)
    requires OneLineText(line)
    ensures OneLineText(Render(line, target, values)) <==> !Breaks(line, target, values)
  {
    GoodTable(target, values);
    TokensHoles(Patterns(), line);
    PlainTokens(Patterns(), line);
    var tokens, table := Tokens(Patterns(), line), Replacements(target, values);
    var text := Render(line, target, values);
    if Breaks(line, target, values) {
      var t :| t in tokens && t.Hole? && t.key in Patterns() && !OneLineText(Value(PlaceholderOf(t.key), target, values));
      var i :| 0 <= i < |table[t.key]| && Breaking(table[t.key][i]);
      FillContains(tokens, table, table[t.key][i]);
    }
    if !OneLineText(text) {
      var i :| 0 <= i < |text| && Breaking(text[i]);
      FillContains(tokens, table, text[i]);
    }
  }

  // ----- Documents -----

  predicate Blank(s: string) {
    forall i :: 0 <= i < |s| ==> s[i] == ' ' || s[i] == '\t' || s[i] == '\r'
  }

  predicate IsSeparator(line: string) {
    "---" <= line && Blank(line[3..])
  }

  function Documents(lines: seq<string>): (docs: seq<seq<string>>)
    ensures docs != []
  {
    if lines == [] then [[]]
    else
      var rest := Documents(lines[1..]);
      if IsSeparator(lines[0]) then [[]] + rest else [[lines[0]] + rest[0]] + rest[1..]
  }

  // ----- Fields -----

  function BreakIndex(s: string): (i: nat)
    ensures i <= |s|
    ensures i < |s| ==> IsBreak(s[i])
    ensures forall j :: 0 <= j < i ==> !IsBreak(s[j])
  {
    if s == "" || IsBreak(s[0]) then 0 else 1 + BreakIndex(s[1..])
  }

  /** A line as the decoder sees it. */
  function YamlCut(line: string): (cut: seq<string>)
    ensures cut != []
    decreases |line|
  {
    var i := BreakIndex(line);
    if i == |line| then [line] else [line[..i]] + YamlCut(line[i + 1..])
  }

  lemma YamlWhole(line: string)
    requires OneLineText(line)
    ensures YamlCut(line) == [line]
  {
  }

  function YamlLines(doc: seq<string>): seq<string> {
    if doc == [] then [] else YamlCut(doc[0]) + YamlLines(doc[1..])
  }

  lemma {:induction false} YamlUnbroken(doc: seq<string>)
    requires forall i :: 0 <= i < |doc| ==> OneLineText(doc[i])
    ensures YamlLines(doc) == doc
  {
    if doc != [] {
      YamlWhole(doc[0]);
      YamlUnbroken(doc[1..]);
    }
  }

  predicate HasWith(lines: seq<string>, prefix: string) {
    exists i :: 0 <= i < |lines| && prefix <= lines[i]
  }

  /** The rest of the last line that starts with the prefix; empty when there is none. */
  function LastWith(lines: seq<string>, prefix: string): string {
    if lines == [] then ""
    else if prefix <= lines[0] && !HasWith(lines[1..], prefix) then lines[0][|prefix|..]
    else LastWith(lines[1..], prefix)
  }

  function Block(lines: seq<string>): seq<string> {
    if lines == [] || (lines[0] != "" && lines[0][0] != ' ') then [] else [lines[0]] + Block(lines[1..])
  }

  /** The lines of the last metadata block. */
  function Metadata(lines: seq<string>): seq<string> {
    if lines == [] then []
    else if lines[0] == "metadata:" && "metadata:" !in lines[1..] then Block(lines[1..])
    else Metadata(lines[1..])
  }

  function KindOf(text: string): Kind {
    if text == "Secret" then Secret
    else if text == "ConfigMap" then ConfigMap
    else if text == "Service" then Service
    else if text == "PersistentVolumeClaim" then PersistentVolumeClaim
    else if text == "Namespace" then Namespace
    else if text == "Job" then Job
    else if text == "CronJob" then CronJob
    else if text == "Deployment" then Deployment
    else if text == "DaemonSet" then DaemonSet
    else if text == "StatefulSet" then StatefulSet
    else if text == "Pod" then Pod
    else OtherKind(text)
  }

  function KindText(lines: seq<string>): string {
    LastWith(lines, "kind: ")
  }

  function NameText(lines: seq<string>): string {
    LastWith(Metadata(lines), "  name: ")
  }

  function NamespaceText(lines: seq<string>): string {
    LastWith(Metadata(lines), "  namespace: ")
  }

  /** Documents without a kind or a name are skipped. */
  predicate Named(doc: seq<string>) {
    KindText(YamlLines(doc)) != "" && NameText(YamlLines(doc)) != ""
  }

  function DocKey(doc: seq<string>, releaseNamespace: string): ObjectKey {
    var lines := YamlLines(doc);
    var kind, namespace := KindOf(KindText(lines)), NamespaceText(lines);
    ObjectKey(kind, if namespace == "" && !kind.Namespace? then releaseNamespace else namespace, NameText(lines))
  }

  /** The identities of the objects in the documents, in order. */
  function Identities(docs: seq<seq<string>>, releaseNamespace: string): seq<ObjectKey> {
    if docs == [] then []
    else (if Named(docs[0]) then [DocKey(docs[0], releaseNamespace)] else []) + Identities(docs[1..], releaseNamespace)
  }

  ghost function ManifestKeys(lines: seq<string>, target: Target, values: StringMap): seq<ObjectKey> {
    Identities(Documents(Lines(Render(Join(lines), target, values))), target.namespace)
  }

  // ----- Only shallow lines give identity -----

  /** Three spaces in or more. */
  predicate Deep(line: string) {
    "   " <= line
  }

  predicate AllDeep(lines: seq<string>) {
    forall i :: 0 <= i < |lines| ==> Deep(lines[i])
  }

  function Shallows(lines: seq<string>): seq<string> {
    if lines == [] then []
    else if Deep(lines[0]) then Shallows(lines[1..])
    else [lines[0]] + Shallows(lines[1..])
  }

  lemma {:induction false} ShallowsSum(a: seq<string>, b: seq<string>)
    ensures Shallows(a + b) == Shallows(a) + Shallows(b)
  {
    if a == [] {
      assert a + b == b;
    } else {
      assert (a + b)[0] == a[0] && (a + b)[1..] == a[1..] + b;
      ShallowsSum(a[1..], b);
    }
  }

  lemma {:induction false} DeepVanish(lines: seq<string>)
    requires AllDeep(lines)
    ensures Shallows(lines) == []
  {
    if lines != [] {
      DeepVanish(lines[1..]);
    }
  }

  lemma {:induction false} ShallowMembers(lines: seq<string>, line: string)
    requires !Deep(line)
    ensures line in Shallows(lines) <==> line in lines
  {
    if lines != [] {
      ShallowMembers(lines[1..], line);
      assert line in lines <==> line == lines[0] || line in lines[1..];
    }
  }

  lemma {:induction false} HasWithShallow(lines: seq<string>, prefix: string)
    requires |prefix| >= 3 && prefix[..3] != "   "
    ensures HasWith(Shallows(lines), prefix) <==> HasWith(lines, prefix)
  {
    if lines != [] {
      HasWithShallow(lines[1..], prefix);
      var s := Shallows(lines);
      assert prefix <= lines[0] ==> lines[0][..3] == prefix[..3];
      HasWithFirst(lines, prefix);
      if !Deep(lines[0]) {
        assert s[0] == lines[0] && s[1..] == Shallows(lines[1..]);
        HasWithFirst(s, prefix);
      }
    }
  }

  lemma HasWithFirst(lines: seq<string>, prefix: string)
    requires lines != []
    ensures HasWith(lines, prefix) <==> prefix <= lines[0] || HasWith(lines[1..], prefix)
  {
    if HasWith(lines[1..], prefix) {
      var i :| 0 <= i < |lines| - 1 && prefix <= lines[1..][i];
      assert prefix <= lines[i + 1];
    }
    if HasWith(lines, prefix) && !(prefix <= lines[0]) {
      var i :| 0 <= i < |lines| && prefix <= lines[i];
      assert prefix <= lines[1..][i - 1];
    }
  }

  lemma {:induction false} LastWithShallow(lines: seq<string>, prefix: string)
    requires |prefix| >= 3 && prefix[..3] != "   "
    ensures LastWith(Shallows(lines), prefix) == LastWith(lines, prefix)
  {
    if lines != [] {
      LastWithShallow(lines[1..], prefix);
      HasWithShallow(lines[1..], prefix);
      var s := Shallows(lines);
      assert prefix <= lines[0] ==> lines[0][..3] == prefix[..3];
      assert !Deep(lines[0]) ==> s[0] == lines[0] && s[1..] == Shallows(lines[1..]);
    }
  }

  lemma {:induction false} BlockShallow(lines: seq<string>)
    ensures Block(Shallows(lines)) == Shallows(Block(lines))
  {
    if lines != [] {
      BlockShallow(lines[1..]);
      var s := Shallows(lines);
      assert Deep(lines[0]) ==> lines[0][0] == ' ';
      assert !Deep(lines[0]) ==> s[0] == lines[0] && s[1..] == Shallows(lines[1..]);
    }
  }

  lemma {:induction false} MetadataShallow(lines: seq<string>)
    ensures Metadata(Shallows(lines)) == Shallows(Metadata(lines))
  {
    if lines != [] {
      var s := Shallows(lines);
      assert Deep(lines[0]) ==> lines[0][0] == ' ' && lines[0] != "metadata:";
      assert !Deep(lines[0]) ==> s[0] == lines[0] && s[1..] == Shallows(lines[1..]);
      assert !Deep("metadata:") by { assert "metadata:"[0] == 'm'; }
      ShallowMembers(lines[1..], "metadata:");
      BlockShallow(lines[1..]);
      MetadataShallow(lines[1..]);
    }
  }

  lemma PrefixesShallow()
    ensures "kind: "[..3] != "   " && "  name: "[..3] != "   " && "  namespace: "[..3] != "   "
  {
    assert "kind: "[..3][0] == 'k' && "  name: "[..3][2] == 'n' && "  namespace: "[..3][2] == 'n' && "   "[2] == ' ';
  }

  /** The fields that give identity are read from shallow lines. */
  lemma FieldsFromShallow(a: seq<string>, b: seq<string>)
    requires Shallows(a) == Shallows(b)
    ensures KindText(a) == KindText(b) && NameText(a) == NameText(b) && NamespaceText(a) == NamespaceText(b)
  {
    hide Shallows, LastWith, Metadata;
    PrefixesShallow();
    LastWithShallow(a, "kind: ");
    LastWithShallow(b, "kind: ");
    MetadataShallow(a);
    MetadataShallow(b);
    LastWithShallow(Metadata(a), "  name: ");
    LastWithShallow(Metadata(b), "  name: ");
    LastWithShallow(Metadata(a), "  namespace: ");
    LastWithShallow(Metadata(b), "  namespace: ");
  }

  // ----- Lines that say nothing about identity -----

  /** Deep, and deep again after every line break that the decoder sees in it. */
  predicate Quiet(line: string) {
    AllDeep(YamlCut(line))
  }

  lemma QuietStarts(line: string)
    requires Quiet(line)
    ensures line != "" && line[0] == ' ' && !IsSeparator(line)
  {
    var first := YamlCut(line)[0];
    assert Deep(first) && first[0] == ' ';
    assert first <= line;
    assert "---"[0] == '-';
  }

  function Louds(lines: seq<string>): seq<string> {
    if lines == [] then []
    else if Quiet(lines[0]) then Louds(lines[1..])
    else [lines[0]] + Louds(lines[1..])
  }

  lemma {:induction false} LoudsSum(a: seq<string>, b: seq<string>)
    ensures Louds(a + b) == Louds(a) + Louds(b)
  {
    if a == [] {
      assert a + b == b;
    } else {
      assert (a + b)[0] == a[0] && (a + b)[1..] == a[1..] + b;
      LoudsSum(a[1..], b);
    }
  }

  lemma {:induction false} LoudFields(doc: seq<string>)
    ensures Shallows(YamlLines(Louds(doc))) == Shallows(YamlLines(doc))
  {
    if doc != [] {
      LoudFields(doc[1..]);
      var l := Louds(doc);
      ShallowsSum(YamlCut(doc[0]), YamlLines(doc[1..]));
      if Quiet(doc[0]) {
        DeepVanish(YamlCut(doc[0]));
      } else {
        assert l[0] == doc[0] && l[1..] == Louds(doc[1..]);
        ShallowsSum(YamlCut(doc[0]), YamlLines(Louds(doc[1..])));
      }
    }
  }

  lemma DocLoud(doc: seq<string>, releaseNamespace: string)
    ensures Named(Louds(doc)) <==> Named(doc)
    ensures DocKey(Louds(doc), releaseNamespace) == DocKey(doc, releaseNamespace)
  {
    hide Shallows, Louds, YamlLines, KindText, NameText, NamespaceText, KindOf;
    LoudFields(doc);
    FieldsFromShallow(YamlLines(Louds(doc)), YamlLines(doc));
  }

  function LoudDocs(docs: seq<seq<string>>): (r: seq<seq<string>>)
    ensures |r| == |docs|
  {
    if docs == [] then [] else [Louds(docs[0])] + LoudDocs(docs[1..])
  }

  lemma {:induction false} IdentitiesLoud(docs: seq<seq<string>>, releaseNamespace: string)
    ensures Identities(LoudDocs(docs), releaseNamespace) == Identities(docs, releaseNamespace)
  {
    if docs != [] {
      var s := LoudDocs(docs);
      assert s[0] == Louds(docs[0]) && s[1..] == LoudDocs(docs[1..]);
      DocLoud(docs[0], releaseNamespace);
      IdentitiesLoud(docs[1..], releaseNamespace);
    }
  }

  lemma {:induction false} DocumentsLoud(lines: seq<string>)
    ensures Documents(Louds(lines)) == LoudDocs(Documents(lines))
  {
    if lines != [] {
      hide Quiet, IsSeparator;
      DocumentsLoud(lines[1..]);
      var rest := Documents(lines[1..]);
      var s := Louds(lines);
      if Quiet(lines[0]) {
        QuietStarts(lines[0]);
      }
      assert !Quiet(lines[0]) ==> s[0] == lines[0] && s[1..] == Louds(lines[1..]);
      if !IsSeparator(lines[0]) {
        var head := [lines[0]] + rest[0];
        assert head[0] == lines[0] && head[1..] == rest[0];
        assert ([head] + rest[1..])[1..] == rest[1..];
        assert Louds(head) == if Quiet(lines[0]) then Louds(rest[0]) else [lines[0]] + Louds(rest[0]);
      } else {
        assert ([[]] + rest)[1..] == rest;
      }
    }
  }

  /** Quiet lines do not matter for the identities in a text. */
  lemma IdentitiesFromLoud(lines: seq<string>, releaseNamespace: string)
    ensures Identities(Documents(lines), releaseNamespace) == Identities(Documents(Louds(lines)), releaseNamespace)
  {
    DocumentsLoud(lines);
    IdentitiesLoud(Documents(lines), releaseNamespace);
  }
}
