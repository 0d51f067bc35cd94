/**
 The native release engine: manifest objects are rendered, then applied one by one, with
 filtered-out objects deleted and existing Secrets preserved; deletion renders the manifest
 again, without the values that were used to apply it.
 */
module NativeRelease {
  import opened GoMaps
  import opened Objects
  import opened Separators
  import opened Rendering
  import opened Manifests
  import opened Agreement

  // ----- Metadata -----

  const HELM_CHART := "helm.sh/chart"
  const HELM_PREFIX := "helm.sh/"

  function CleanLabels(labels: StringMap): StringMap {
    (labels - {HELM_CHART})[LABEL_MANAGED_BY := MANAGED_BY_OPERATOR]
  }

  function CleanAnnotations(annotations: StringMap): StringMap {
    map k | k in annotations && !(HELM_PREFIX <= k) :: annotations[k]
  }

  function CleanMetadata(o: Object): Object {
    o.(labels := CleanLabels(o.labels), annotations := CleanAnnotations(o.annotations))
  }

  lemma MetadataKeysDiffer()
    ensures HELM_CHART != LABEL_MANAGED_BY
  {
    assert |HELM_CHART| != |LABEL_MANAGED_BY|;
  }

  /** Deletes Helm annotations, one by one; reports a change exactly when there is one. */
  method RemoveHelmAnnotations(existing: StringMap) returns (annotations: StringMap, changed: bool)
    ensures annotations == CleanAnnotations(existing)
    ensures changed <==> annotations != existing
  {
    changed := false;
    annotations := existing;
    var todo := existing.Keys;
    while todo != {}
      invariant todo <= existing.Keys
      invariant annotations == map k | k in existing && (k in todo || !(HELM_PREFIX <= k)) :: existing[k]
      invariant changed <==> annotations != existing
      decreases |todo|
    {
      var k :| k in todo;
      todo := todo - {k};
      if HELM_PREFIX <= k {
        annotations := annotations - {k};
        changed := true;
        assert k in existing && k !in annotations;
      }
    }
  }

  /** Deletes Helm metadata and claims the object; reports a change exactly when there is one. */
  method NativeObjectMetadata(existingLabels: StringMap, existingAnnotations: StringMap)
    returns (labels: StringMap, annotations: StringMap, changed: bool)
    ensures labels == CleanLabels(existingLabels)
    ensures annotations == CleanAnnotations(existingAnnotations)
    ensures changed <==> labels != existingLabels || annotations != existingAnnotations
  {
    MetadataKeysDiffer();
    changed := false;
    labels := existingLabels;
    if HELM_CHART in labels {
      labels := labels - {HELM_CHART};
      changed := true;
    }
    if Get(labels, LABEL_MANAGED_BY) != MANAGED_BY_OPERATOR {
      labels := labels[LABEL_MANAGED_BY := MANAGED_BY_OPERATOR];
      changed := true;
    }
    assert labels == CleanLabels(existingLabels);
    var removed;
    annotations, removed := RemoveHelmAnnotations(existingAnnotations);
    changed := changed || removed;
  }

  // ----- Manifest objects -----

  /** What a document says beside its identity. */
  datatype Content = Content(labels: StringMap, annotations: StringMap, data: StringMap, body: string)

  /** The lines of an embedded manifest, and how the content of a document is read from its lines. */
  datatype Manifest = Manifest(lines: seq<string>, decode: seq<string> -> Content)

  datatype Desired = Desired(key: ObjectKey, content: Object)

  function DesiredObject(doc: seq<string>, namespace: string, decode: seq<string> -> Content): Desired {
    var c := decode(doc);
    Desired(DocKey(doc, namespace),
            BLANK.(labels := CleanLabels(c.labels), annotations := CleanAnnotations(c.annotations), data := c.data, body := c.body))
  }

  /** The named documents, in order. */
  function DecodeAll(docs: seq<seq<string>>, namespace: string, decode: seq<string> -> Content): seq<Desired> {
    if docs == [] then []
    else (if Named(docs[0]) then [DesiredObject(docs[0], namespace, decode)] else []) + DecodeAll(docs[1..], namespace, decode)
  }

  /** The whole manifest is rendered as one text, then cut into lines, documents and objects. */
  ghost function ReleaseObjects(m: Manifest, target: Target, values: StringMap): seq<Desired> {
    DecodeAll(Documents(Lines(Render(Join(m.lines), target, values))), target.namespace, m.decode)
  }

  method SplitLines(text: string) returns (lines: seq<string>)
    ensures lines == Lines(text)
  {
    lines := [];
    var rest := text;
    while '\n' in rest
      invariant Lines(text) == lines + Lines(rest)
      decreases |rest|
    {
      var i := IndexOf('\n', rest);
      IndexOfFound('\n', rest);
      lines := lines + [rest[..i]];
      rest := rest[i + 1..];
    }
    lines := lines + [rest];
  }

  method DecodeDocument(doc: seq<string>, namespace: string, decode: seq<string> -> Content) returns (d: Desired)
    ensures d == DesiredObject(doc, namespace, decode)
  {
    var c := decode(doc);
    var labels, annotations, _ := NativeObjectMetadata(c.labels, c.annotations);
    d := Desired(DocKey(doc, namespace), BLANK.(labels := labels, annotations := annotations, data := c.data, body := c.body));
  }

  /** Documents whose first one continues lines that were read before. */
  function Continued(current: seq<string>, docs: seq<seq<string>>): seq<seq<string>>
    requires docs != []
  {
    [current + docs[0]] + docs[1..]
  }

  function Flushed(doc: seq<string>, namespace: string, decode: seq<string> -> Content): seq<Desired> {
    if Named(doc) then [DesiredObject(doc, namespace, decode)] else []
  }

  /** The objects still to come when these lines of the current document have been read. */
  function Left(current: seq<string>, lines: seq<string>, namespace: string, decode: seq<string> -> Content): seq<Desired> {
    DecodeAll(Continued(current, Documents(lines)), namespace, decode)
  }

  lemma LeftAll(lines: seq<string>, namespace: string, decode: seq<string> -> Content)
    ensures Left([], lines, namespace, decode) == DecodeAll(Documents(lines), namespace, decode)
  {
    var docs := Documents(lines);
    assert [] + docs[0] == docs[0];
    assert Continued([], docs) == docs;
  }

  lemma DecodeFirst(doc: seq<string>, docs: seq<seq<string>>, namespace: string, decode: seq<string> -> Content)
    ensures DecodeAll([doc] + docs, namespace, decode) == Flushed(doc, namespace, decode) + DecodeAll(docs, namespace, decode)
  {
    assert ([doc] + docs)[1..] == docs;
  }

  lemma LeftStep(current: seq<string>, lines: seq<string>, namespace: string, decode: seq<string> -> Content)
    requires lines != []
    ensures Left(current, lines, namespace, decode) ==
      if IsSeparator(lines[0]) then Flushed(current, namespace, decode) + Left([], lines[1..], namespace, decode)
      else Left(current + [lines[0]], lines[1..], namespace, decode)
  {
    var rest := Documents(lines[1..]);
    if IsSeparator(lines[0]) {
      assert current + [] == current;
      assert Continued(current, Documents(lines)) == [current] + rest;
      hide DecodeAll;
      DecodeFirst(current, rest, namespace, decode);
      LeftAll(lines[1..], namespace, decode);
    } else {
      assert current + [lines[0]] + rest[0] == current + ([lines[0]] + rest[0]);
    }
  }

  lemma LeftEnd(current: seq<string>, namespace: string, decode: seq<string> -> Content)
    ensures Left(current, [], namespace, decode) == Flushed(current, namespace, decode)
  {
    assert current + [] == current;
    assert Continued(current, [[]]) == [current] + [];
    DecodeFirst(current, [], namespace, decode);
  }

  method Flush(doc: seq<string>, namespace: string, decode: seq<string> -> Content) returns (objects: seq<Desired>)
    ensures objects == Flushed(doc, namespace, decode)
  {
    objects := [];
    if Named(doc) {
      var d := DecodeDocument(doc, namespace, decode);
      objects := [d];
    }
  }

  /** Reads lines into documents and named documents into objects. */
  method DecodeLines(lines: seq<string>, namespace: string, decode: seq<string> -> Content) returns (objects: seq<Desired>)
    ensures objects == DecodeAll(Documents(lines), namespace, decode)
  {
    hide Left, Flushed, DecodeAll, Documents, IsSeparator;
    objects := [];
    var current: seq<string> := [];
    LeftAll(lines, namespace, decode);
    for i := 0 to |lines|
      invariant Left([], lines, namespace, decode) == objects + Left(current, lines[i..], namespace, decode)
    {
      LeftStep(current, lines[i..], namespace, decode);
      assert lines[i..][0] == lines[i] && lines[i..][1..] == lines[i + 1..];
      if IsSeparator(lines[i]) {
        var flushed := Flush(current, namespace, decode);
        objects := objects + flushed;
        current := [];
      } else {
        current := current + [lines[i]];
      }
    }
    LeftEnd(current, namespace, decode);
    var flushed := Flush(current, namespace, decode);
    objects := objects + flushed;
  }

  method NativeReleaseObjects(m: Manifest, target: Target, values: StringMap) returns (objects: seq<Desired>)
    ensures objects == ReleaseObjects(m, target, values)
  {
    hide Documents, Lines, DecodeAll, Render;
    var rendered := RenderNativeManifest(Join(m.lines), target, values);
    var lines := SplitLines(rendered);
    objects := DecodeLines(lines, target.namespace, m.decode);
  }

  ghost function KeysOf(objects: seq<Desired>): (keys: seq<ObjectKey>)
    ensures |keys| == |objects| && forall i :: 0 <= i < |objects| ==> keys[i] == objects[i].key
  {
    seq(|objects|, i requires 0 <= i < |objects| => objects[i].key)
  }

  lemma {:induction false} KeysOfDecoded(docs: seq<seq<string>>, namespace: string, decode: seq<string> -> Content)
    ensures KeysOf(DecodeAll(docs, namespace, decode)) == Identities(docs, namespace)
  {
    if docs != [] {
      KeysOfDecoded(docs[1..], namespace, decode);
      var head := if Named(docs[0]) then [DesiredObject(docs[0], namespace, decode)] else [];
      var tail := DecodeAll(docs[1..], namespace, decode);
      assert KeysOf(head + tail) == KeysOf(head) + KeysOf(tail);
    }
  }

  /**
   The objects found when rendering for deletion, without values, are exactly those found when
   rendering for an apply of the same release, as long as the values stay within their lines.
   */
  lemma SameIdentities(m: Manifest, target: Target, v: StringMap, w: StringMap)
    requires Tame(m.lines, target, v) && Tame(m.lines, target, w)
    ensures KeysOf(ReleaseObjects(m, target, v)) == KeysOf(ReleaseObjects(m, target, w))
  {
    hide Render, Lines, Documents, Tame, KeysOf, DecodeAll;
    TameAgrees(m.lines, target, v, w);
    KeysOfDecoded(Documents(Lines(Render(Join(m.lines), target, v))), target.namespace, m.decode);
    KeysOfDecoded(Documents(Lines(Render(Join(m.lines), target, w))), target.namespace, m.decode);
  }

  lemma SameListing(m: Manifest, target: Target, v: StringMap, w: StringMap, k: ObjectKey)
    requires Tame(m.lines, target, v) && Tame(m.lines, target, w)
    ensures Lists(ReleaseObjects(m, target, v), k) <==> Lists(ReleaseObjects(m, target, w), k)
  {
    hide ReleaseObjects, Tame;
    SameIdentities(m, target, v, w);
    ListsKeys(ReleaseObjects(m, target, v), k);
    ListsKeys(ReleaseObjects(m, target, w), k);
  }

  lemma ListsKeys(objects: seq<Desired>, k: ObjectKey)
    ensures Lists(objects, k) <==> k in KeysOf(objects)
  {
    if Lists(objects, k) {
      var i :| 0 <= i < |objects| && objects[i].key == k;
      assert KeysOf(objects)[i] == k;
    }
  }

  // ----- Applying a release -----

  datatype Filter = Everything | WithoutSimulator

  predicate Admits(filter: Filter, name: string) {
    filter.Everything? || (!Contains(name, "ueransim") && !Contains(name, "simulator") && !Contains(name, "iperf3"))
  }

  /** Server-side apply: listed fields are overwritten, status and fields of other managers stay. */
  function ServerSideApply(store: Store, d: Desired): Object {
    if d.key in store then
      var current := store[d.key];
      current.(labels := current.labels + d.content.labels,
            annotations := current.annotations + d.content.annotations,
            data := current.data + d.content.data,
            podAnnotations := current.podAnnotations + d.content.podAnnotations,
            body := d.content.body,
            generation := if current.body == d.content.body then current.generation else current.generation + 1)
    else d.content
  }

  /** One manifest object; `immutable` are the Jobs whose patch the API server rejects as invalid. */
  function ApplyOne(store: Store, d: Desired, filter: Filter, immutable: set<ObjectKey>): Store {
    if !Admits(filter, d.key.name) then store - {d.key}
    else if d.key.kind.Secret? && d.key in store then store[d.key := CleanMetadata(store[d.key])]
    else if d.key.kind.Job? && d.key in immutable then store - {d.key}
    else store[d.key := CleanMetadata(ServerSideApply(store, d))]
  }

  function Apply(store: Store, objects: seq<Desired>, filter: Filter, immutable: set<ObjectKey>): Store {
    if objects == [] then store
    else
      var n := |objects| - 1;
      ApplyOne(Apply(store, objects[..n], filter, immutable), objects[n], filter, immutable)
  }

  function Delete(store: Store, objects: seq<Desired>): Store {
    if objects == [] then store
    else
      var n := |objects| - 1;
      Delete(store, objects[..n]) - {objects[n].key}
  }

  /** Where in the handling of an object a request fails. */
  datatype Phase = Before | Midway | After

  /** A request that fails at one object of a list, if any. */
  datatype Stop = Never | Stop(at: nat, phase: Phase)

  predicate Completes(stop: Stop, count: nat) {
    stop.Never? || stop.at >= count
  }

  /** How many objects of a list have been deleted. */
  function Handled(stop: Stop, count: nat): (n: nat)
    ensures n <= count
  {
    if Completes(stop, count) then count else if stop.phase.After? then stop.at + 1 else stop.at
  }

  /** The object has been applied, its metadata have not been cleaned. */
  function ApplyPartly(store: Store, d: Desired, filter: Filter, immutable: set<ObjectKey>): Store {
    if !Admits(filter, d.key.name) || (d.key.kind.Secret? && d.key in store) || (d.key.kind.Job? && d.key in immutable)
    then ApplyOne(store, d, filter, immutable)
    else store[d.key := ServerSideApply(store, d)]
  }

  /** The list up to the request that fails. */
  function ApplyUpTo(store: Store, objects: seq<Desired>, filter: Filter, immutable: set<ObjectKey>, stop: Stop): Store {
    if Completes(stop, |objects|) then Apply(store, objects, filter, immutable)
    else
      var done := Apply(store, objects[..stop.at], filter, immutable);
      match stop.phase
      case Before => done
      case Midway => ApplyPartly(done, objects[stop.at], filter, immutable)
      case After => ApplyOne(done, objects[stop.at], filter, immutable)
  }

  predicate DistinctKeys(objects: seq<Desired>) {
    forall i, j :: 0 <= i < j < |objects| ==> objects[i].key != objects[j].key
  }

  predicate Lists(objects: seq<Desired>, key: ObjectKey) {
    exists i :: 0 <= i < |objects| && objects[i].key == key
  }

  lemma {:induction false} ApplyFrame(store: Store, objects: seq<Desired>, filter: Filter, immutable: set<ObjectKey>, key: ObjectKey)
    requires !Lists(objects, key)
    ensures key in Apply(store, objects, filter, immutable) <==> key in store
    ensures key in store ==> Apply(store, objects, filter, immutable)[key] == store[key]
  {
    if objects != [] {
      var n := |objects| - 1;
      assert forall i :: 0 <= i < n ==> objects[..n][i] == objects[i];
      assert !Lists(objects[..n], key);
      assert objects[n].key != key;
      ApplyFrame(store, objects[..n], filter, immutable, key);
    }
  }

  /** What one listed object has become once the whole list has been applied. */
  ghost predicate AppliedAs(store: Store, d: Desired, filter: Filter, immutable: set<ObjectKey>, after: Store) {
    if !Admits(filter, d.key.name) then d.key !in after
    else if d.key.kind.Secret? && d.key in store then
      d.key in after && after[d.key] == CleanMetadata(store[d.key])
    else if d.key.kind.Job? && d.key in immutable then d.key !in after
    else d.key in after && after[d.key] == CleanMetadata(ServerSideApply(store, d))
  }

  /**
   After the whole list: filtered-out objects are absent, Secrets that existed keep their data,
   rejected Jobs are deleted, everything else is as the manifest says.
   */
  lemma {:induction false} ApplyPost(store: Store, objects: seq<Desired>, filter: Filter, immutable: set<ObjectKey>, i: nat)
    requires DistinctKeys(objects) && i < |objects|
    ensures AppliedAs(store, objects[i], filter, immutable, Apply(store, objects, filter, immutable))
    decreases |objects|
  {
    var n := |objects| - 1;
    var before := Apply(store, objects[..n], filter, immutable);
    if i == n {
      assert !Lists(objects[..n], objects[n].key);
      ApplyFrame(store, objects[..n], filter, immutable, objects[n].key);
    } else {
      assert objects[..n][i] == objects[i];
      ApplyPost(store, objects[..n], filter, immutable, i);
      assert objects[i].key != objects[n].key;
    }
  }

  /** Applying a release never changes the data of a Secret it does not filter out. */
  lemma {:induction false} SecretDataKept(store: Store, objects: seq<Desired>, filter: Filter, immutable: set<ObjectKey>, key: ObjectKey)
    requires key.kind.Secret? && key in store
    requires Admits(filter, key.name) || !Lists(objects, key)
    ensures key in Apply(store, objects, filter, immutable)
    ensures Apply(store, objects, filter, immutable)[key].data == store[key].data
    ensures forall a :: a in store[key].annotations && !(HELM_PREFIX <= a) ==>
      a in Apply(store, objects, filter, immutable)[key].annotations
      && Apply(store, objects, filter, immutable)[key].annotations[a] == store[key].annotations[a]
  {
    if objects != [] {
      var n := |objects| - 1;
      assert forall i :: 0 <= i < n ==> objects[..n][i] == objects[i];
      SecretDataKept(store, objects[..n], filter, immutable, key);
    }
  }

  lemma {:induction false} DeletePost(store: Store, objects: seq<Desired>, key: ObjectKey)
    ensures key in Delete(store, objects) <==> key in store && !Lists(objects, key)
    ensures key in Delete(store, objects) ==> Delete(store, objects)[key] == store[key]
  {
    if objects != [] {
      var n := |objects| - 1;
      assert forall i :: 0 <= i < n ==> objects[..n][i] == objects[i];
      DeletePost(store, objects[..n], key);
      assert Lists(objects, key) <==> Lists(objects[..n], key) || objects[n].key == key;
    }
  }

  // ----- The same for an apply that is interrupted -----

  lemma PrefixLists(objects: seq<Desired>, n: nat, k: ObjectKey)
    requires n <= |objects| && Lists(objects[..n], k)
    ensures Lists(objects, k)
  {
    var i :| 0 <= i < n && objects[..n][i].key == k;
    assert objects[i].key == k;
  }

  lemma UpToFrame(store: Store, objects: seq<Desired>, filter: Filter, immutable: set<ObjectKey>, stop: Stop, key: ObjectKey)
    requires !Lists(objects, key)
    ensures key in ApplyUpTo(store, objects, filter, immutable, stop) <==> key in store
    ensures key in store ==> ApplyUpTo(store, objects, filter, immutable, stop)[key] == store[key]
  {
    hide Apply, ServerSideApply, CleanMetadata, Admits;
    if Completes(stop, |objects|) {
      ApplyFrame(store, objects, filter, immutable, key);
    } else {
      if Lists(objects[..stop.at], key) {
        PrefixLists(objects, stop.at, key);
      }
      ApplyFrame(store, objects[..stop.at], filter, immutable, key);
      assert objects[stop.at].key != key;
    }
  }

  /** Interrupted or not, an apply never changes the data of a Secret it does not filter out. */
  lemma UpToSecret(store: Store, objects: seq<Desired>, filter: Filter, immutable: set<ObjectKey>, stop: Stop, key: ObjectKey)
    requires key.kind.Secret? && key in store
    requires Admits(filter, key.name) || !Lists(objects, key)
    ensures key in ApplyUpTo(store, objects, filter, immutable, stop)
    ensures ApplyUpTo(store, objects, filter, immutable, stop)[key].data == store[key].data
    ensures forall a :: a in store[key].annotations && !(HELM_PREFIX <= a) ==>
      a in ApplyUpTo(store, objects, filter, immutable, stop)[key].annotations
      && ApplyUpTo(store, objects, filter, immutable, stop)[key].annotations[a] == store[key].annotations[a]
  {
    hide Apply, ServerSideApply, Admits;
    if Completes(stop, |objects|) {
      SecretDataKept(store, objects, filter, immutable, key);
    } else {
      var part := objects[..stop.at];
      if Lists(part, key) {
        PrefixLists(objects, stop.at, key);
      }
      SecretDataKept(store, part, filter, immutable, key);
      assert objects[stop.at].key == key ==> Lists(objects, key);
    }
  }

  /**
   Server-side apply: every listed entry gets the listed value, entries of other field managers
   and the status stay, and only a changed body starts a new generation.
   */
  lemma ServedExact(store: Store, d: Desired, key: string)
    requires d.key in store
    ensures var before, after := store[d.key], ServerSideApply(store, d);
      && Get(after.data, key) == (if key in d.content.data then d.content.data[key] else Get(before.data, key))
      && Get(after.labels, key) == (if key in d.content.labels then d.content.labels[key] else Get(before.labels, key))
      && Get(after.annotations, key) == (if key in d.content.annotations then d.content.annotations[key] else Get(before.annotations, key))
      && after.body == d.content.body && after.status == before.status && after.replicas == before.replicas
      && (after.generation == before.generation <==> before.body == d.content.body)
      && before.generation <= after.generation
  {
  }

  /** What a document says ends up in the object, without Helm metadata and claimed by the operator. */
  lemma DesiredExact(doc: seq<string>, namespace: string, decode: seq<string> -> Content, key: string)
    ensures var c, o := decode(doc), DesiredObject(doc, namespace, decode).content;
      && o.data == c.data && o.body == c.body && o.status == NO_STATUS
      && Get(o.labels, "app.kubernetes.io/managed-by") == "magma-operator" && "helm.sh/chart" !in o.labels
      && (key != "app.kubernetes.io/managed-by" && key != "helm.sh/chart" ==> Get(o.labels, key) == Get(c.labels, key))
      && Get(o.annotations, key) == if "helm.sh/" <= key then "" else Get(c.annotations, key)
  {
    MetadataKeysDiffer();
  }
}
