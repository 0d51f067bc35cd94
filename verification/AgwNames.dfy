/** Which objects of a manifest are the ones that the operator looks for by name. */
module AgwNames {
  import opened GoMaps
  import opened Objects
  import opened Replacer
  import opened Rendering
  import opened Manifests
  import opened Agreement
  import opened RenderedNames
  import opened NativeRelease
  import opened AgwModel
  import opened AgwTrust
  import opened AgwValidation
  import opened AgwPass
  import opened AgwFootprint

  /**
   The manifest holds, between two separators, an object of this kind, with this name as it is
   written, in the release namespace; the values that this object is rendered with stay on their lines.
   */
  ghost predicate Holds(op: Operator, agw: Agw, values: StringMap, kind: string, written: string) {
    exists before: seq<string>, doc: seq<string>, after: seq<string> ::
      && op.manifest.lines == Between(before, doc, after) && Renders(doc, AgwTarget(agw), values)
      && KindText(doc) == kind && NameText(doc) == written && NamespaceText(doc) == "agwns"
  }

  lemma ListedKeys(agw: Agw, values: StringMap, op: Operator, k: ObjectKey)
    ensures Lists(AgwObjects(agw, values, op), k) <==> k in ManifestKeys(op.manifest.lines, AgwTarget(agw), values)
  {
    var m, target := op.manifest, AgwTarget(agw);
    KeysOfDecoded(Documents(Lines(Render(Join(m.lines), target, values))), target.namespace, m.decode);
    ListsKeys(AgwObjects(agw, values, op), k);
    hide Render, Lines, Documents, DecodeAll, AgwTarget;
  }

  /** An object named after the release placeholder is listed, whatever the values, under the release name. */
  lemma ListedByRelease(agw: Agw, values: StringMap, op: Operator, kind: string, rest: string)
    requires Holds(op, agw, values, kind, "agwrel" + rest) && ReleaseName(agw) != "" && agw.namespace != ""
    requires PlaceholderFree(kind) && kind != "" && PlaceholderFree(rest)
    ensures Lists(AgwObjects(agw, values, op), ObjectKey(KindOf(kind), agw.namespace, ReleaseName(agw) + rest))
  {
    hide ManifestKeys, AgwObjects, PlaceholderFree, KindOf, Between, KindText, NameText, NamespaceText, ReleaseName, Renders;
    var before: seq<string>, doc: seq<string>, after: seq<string> :|
      && op.manifest.lines == Between(before, doc, after) && Renders(doc, AgwTarget(agw), values)
      && KindText(doc) == kind && NameText(doc) == "agwrel" + rest && NamespaceText(doc) == "agwns";
    ReleaseNamed(before, doc, after, rest, AgwTarget(agw), values);
    ListedKeys(agw, values, op, ObjectKey(KindOf(kind), agw.namespace, ReleaseName(agw) + rest));
  }

  lemma ListedByName(agw: Agw, values: StringMap, op: Operator, kind: string, name: string)
    requires Holds(op, agw, values, kind, name) && agw.namespace != ""
    requires PlaceholderFree(kind) && kind != "" && PlaceholderFree(name) && name != ""
    ensures Lists(AgwObjects(agw, values, op), ObjectKey(KindOf(kind), agw.namespace, name))
  {
    hide ManifestKeys, AgwObjects, PlaceholderFree, KindOf, Between, KindText, NameText, NamespaceText, ReleaseName, Renders;
    var before: seq<string>, doc: seq<string>, after: seq<string> :|
      && op.manifest.lines == Between(before, doc, after) && Renders(doc, AgwTarget(agw), values)
      && KindText(doc) == kind && NameText(doc) == name && NamespaceText(doc) == "agwns";
    OwnNamed(before, doc, after, AgwTarget(agw), values);
    ListedKeys(agw, values, op, ObjectKey(KindOf(kind), agw.namespace, name));
  }

  lemma KindTexts()
    ensures KindOf("PersistentVolumeClaim") == PersistentVolumeClaim && KindOf("Deployment") == Deployment && KindOf("Secret") == Secret
  {
    assert |"PersistentVolumeClaim"| == 21 && |"Deployment"| == 10 && |"Secret"| == 6 && |"ConfigMap"| == 9 && |"Service"| == 7;
    assert |"Namespace"| == 9 && |"Job"| == 3 && |"CronJob"| == 7;
  }

  lemma PlainTexts()
    ensures Signless("PersistentVolumeClaim") && Signless("Deployment") && Signless("Secret")
    ensures Signless("-claim") && Signless("-ueransim-gnb") && Signless("-ueransim-ue") && Signless("-secret-certs")
  {
  }

  /**
   The objects that the operator looks for by name are manifest objects when the manifest names
   them after the release: the volume claim, the two simulator Deployments and, unless the values
   name another one, the certificate Secret.
   */
  lemma LookedForAreListed(agw: Agw, values: StringMap, op: Operator)
    requires ReleaseName(agw) != "" && agw.namespace != ""
    ensures Holds(op, agw, values, "PersistentVolumeClaim", "agwrel" + "-claim") ==> Lists(AgwObjects(agw, values, op), PvcKey(agw))
    ensures Holds(op, agw, values, "Deployment", "agwrel" + "-ueransim-gnb") ==> Lists(AgwObjects(agw, values, op), GnbKey(agw))
    ensures Holds(op, agw, values, "Deployment", "agwrel" + "-ueransim-ue") ==> Lists(AgwObjects(agw, values, op), UeKey(agw))
    ensures Holds(op, agw, values, "Secret", "agwrel" + "-secret-certs") && Get(agw.spec.values, "secret.certs") == "" ==>
      Lists(AgwObjects(agw, values, op), CertKey(agw))
  {
    hide AgwObjects, Holds, Signless, PlaceholderFree, KindOf, ReleaseName;
    KindTexts();
    PlainTexts();
    Quiets("PersistentVolumeClaim", "-claim");
    Quiets("Deployment", "-ueransim-gnb");
    Quiets("Deployment", "-ueransim-ue");
    Quiets("Secret", "-secret-certs");
    if Holds(op, agw, values, "PersistentVolumeClaim", "agwrel" + "-claim") {
      ListedByRelease(agw, values, op, "PersistentVolumeClaim", "-claim");
    }
    if Holds(op, agw, values, "Deployment", "agwrel" + "-ueransim-gnb") {
      ListedByRelease(agw, values, op, "Deployment", "-ueransim-gnb");
    }
    if Holds(op, agw, values, "Deployment", "agwrel" + "-ueransim-ue") {
      ListedByRelease(agw, values, op, "Deployment", "-ueransim-ue");
    }
    if Holds(op, agw, values, "Secret", "agwrel" + "-secret-certs") {
      ListedByRelease(agw, values, op, "Secret", "-secret-certs");
    }
  }

  lemma Quiets(kind: string, rest: string)
    requires Signless(kind) && Signless(rest)
    ensures PlaceholderFree(kind) && PlaceholderFree(rest)
  {
    SignlessFree(kind);
    SignlessFree(rest);
  }

  // ----- The embedded manifest names the claim and the certificate Secret after one release -----

  lemma NoStart(s: string)
    requires Classify(s).Just? ==> !(Text(Classify(s).p) <= s)
    ensures !HasKeyAt(Patterns(), s)
  {
    forall k | k in Patterns()
      ensures !(k <= s)
    {
      PatternHasPlaceholder(k);
      if k <= s {
        StartDecides(PlaceholderOf(k), s);
      }
    }
  }

  lemma FreeBefore(c: char, rest: string)
    requires !HasKeyAt(Patterns(), [c] + rest) && PlaceholderFree(rest)
    ensures PlaceholderFree([c] + rest)
  {
    var text := [c] + rest;
    forall i | 0 <= i <= |text|
      ensures !HasKeyAt(Patterns(), text[i..])
    {
      assert text[0..] == text;
      assert i > 0 ==> text[i..] == rest[i - 1..];
    }
  }

  lemma NoStartC(s: string)
    requires |s| > 1 && s[0] == 'c' && s[1] == '-'
    ensures !HasKeyAt(Patterns(), s)
  {
    hide Patterns, HasKeyAt;
    assert Text(ControllerHost)[1] == 'o' && Text(MagmaController)[1] == 'o' && Stem(Configurator)[1] == 'o';
    assert Stem(Configurator) <= Text(Configurator);
    NoStart(s);
  }

  lemma NoStartW(s: string)
    requires s != "" && s[0] == 'w'
    ensures !HasKeyAt(Patterns(), s)
  {
    hide Patterns, HasKeyAt, Text;
    NoStart(s);
  }

  lemma NoStartG(s: string)
    requires |s| > 3 && s[0] == 'g' && s[3] == '-'
    ensures !HasKeyAt(Patterns(), s)
  {
    hide Patterns, HasKeyAt;
    assert Stem(Challenge)[3] == 'h' && Stem(Challenge) <= Text(Challenge);
    NoStart(s);
  }

  lemma NoStartA(s: string)
    requires |s| > 3 && s[0] == 'a' && s[1] == 'g' && s[3] == 'c'
    ensures !HasKeyAt(Patterns(), s)
  {
    hide Patterns, HasKeyAt;
    assert Text(AgwNamespace)[3] == 'n';
    NoStart(s);
  }

  lemma FixedName(rest: string)
    requires Signless(rest) && |rest| > 1 && rest[0] == '-'
    ensures PlaceholderFree("agwc" + rest)
  {
    hide Patterns, HasKeyAt, PlaceholderFree, Signless;
    SignlessFree(rest);
    var c1, c2, c3, c4 := ['c'] + rest, "wc" + rest, "gwc" + rest, "agwc" + rest;
    assert ['w'] + c1 == c2 && ['g'] + c2 == c3 && ['a'] + c3 == c4;
    NoStartC(c1);
    NoStartW(c2);
    NoStartG(c3);
    NoStartA(c4);
    FreeBefore('c', rest);
    FreeBefore('w', c1);
    FreeBefore('g', c2);
    FreeBefore('a', c3);
  }

  lemma SameStem(a: string, b: string, rest: string)
    ensures a + rest == b + rest <==> a == b
  {
    assert a == (a + rest)[..|a|] && b == (b + rest)[..|b|];
    assert a + rest == b + rest ==> |a| == |b|;
  }

  /**
   The claim and the certificate Secret that the embedded manifest lists under fixed names are
   the ones the operator looks for exactly for one release name.
   */
  lemma FixedNamesExact(agw: Agw, values: StringMap, op: Operator)
    requires agw.namespace != ""
    requires Holds(op, agw, values, "PersistentVolumeClaim", "agwc" + "-claim") && Holds(op, agw, values, "Secret", "agwc" + "-secret-certs")
    ensures var claim, certs := ObjectKey(PersistentVolumeClaim, agw.namespace, "agwc" + "-claim"), ObjectKey(Secret, agw.namespace, "agwc" + "-secret-certs");
      && Lists(AgwObjects(agw, values, op), claim) && Lists(AgwObjects(agw, values, op), certs)
      && (claim == PvcKey(agw) <==> ReleaseName(agw) == "agwc")
      && (certs == CertKey(agw) <==>
            if Get(agw.spec.values, "secret.certs") != "" then Get(agw.spec.values, "secret.certs") == "agwc" + "-secret-certs"
            else ReleaseName(agw) == "agwc")
  {
    hide AgwObjects, Holds, Signless, PlaceholderFree, KindOf, ReleaseName;
    KindTexts();
    PlainTexts();
    Quiets("PersistentVolumeClaim", "-claim");
    Quiets("Secret", "-secret-certs");
    FixedName("-claim");
    FixedName("-secret-certs");
    ListedByName(agw, values, op, "PersistentVolumeClaim", "agwc" + "-claim");
    ListedByName(agw, values, op, "Secret", "agwc" + "-secret-certs");
    SameStem(ReleaseName(agw), "agwc", "-claim");
    SameStem(ReleaseName(agw), "agwc", "-secret-certs");
  }
}
