/**
 Node selectors travel inside the flat values map: each selector key is escaped and stored
 under a prefix, and read back when the manifest objects are built.
 */
module Placement {
  import opened GoMaps
  import opened Objects
  import opened SelectorKeys

  function StoredKey(prefix: string, key: string): string {
    prefix + "." + EscapeValueKey(key)
  }

  lemma StoredKeyInjective(prefix: string, a: string, b: string)
    requires StoredKey(prefix, a) == StoredKey(prefix, b)
    ensures a == b
  {
    var p := prefix + ".";
    assert EscapeValueKey(a) == StoredKey(prefix, a)[|p|..] == EscapeValueKey(b);
    EscapeInjective(a, b);
  }

  function StoredKeys(prefix: string, selector: StringMap): set<string> {
    set k | k in selector :: StoredKey(prefix, k)
  }

  ghost function KeyBehind(prefix: string, selector: StringMap, stored: string): (k: string)
    requires stored in StoredKeys(prefix, selector)
    ensures k in selector && StoredKey(prefix, k) == stored
  {
    var k :| k in selector && StoredKey(prefix, k) == stored; k
  }

  /** The entries that a selector leaves in the values map. */
  ghost function Stored(prefix: string, selector: StringMap): StringMap {
    map x | x in StoredKeys(prefix, selector) :: selector[KeyBehind(prefix, selector, x)]
  }

  lemma StoredEntry(prefix: string, selector: StringMap, k: string)
    requires k in selector
    ensures StoredKey(prefix, k) in Stored(prefix, selector)
    ensures Stored(prefix, selector)[StoredKey(prefix, k)] == selector[k]
  {
    var x := StoredKey(prefix, k);
    assert x in StoredKeys(prefix, selector);
    StoredKeyInjective(prefix, k, KeyBehind(prefix, selector, x));
  }

  /** The values with the entries of these selector keys stored in them. */
  ghost predicate HoldsEntries(updated: StringMap, values: StringMap, prefix: string, selector: StringMap, done: set<string>)
    requires done <= selector.Keys
  {
    && (forall k :: k in done ==> StoredKey(prefix, k) in updated && updated[StoredKey(prefix, k)] == selector[k])
    && (forall x :: x in values && (forall k :: k in done ==> StoredKey(prefix, k) != x) ==> x in updated && updated[x] == values[x])
    && (forall x :: x in updated ==> x in values || exists k :: k in done && StoredKey(prefix, k) == x)
  }

  lemma HoldsOneMore(updated: StringMap, values: StringMap, prefix: string, selector: StringMap, done: set<string>, k: string)
    requires done <= selector.Keys && k in selector
    requires HoldsEntries(updated, values, prefix, selector, done)
    ensures HoldsEntries(updated[StoredKey(prefix, k) := selector[k]], values, prefix, selector, done + {k})
  {
    var x := StoredKey(prefix, k);
    forall j | j in done
      ensures StoredKey(prefix, j) != x || j == k
    {
      if StoredKey(prefix, j) == x { StoredKeyInjective(prefix, j, k); }
    }
  }

  lemma HoldsAll(updated: StringMap, values: StringMap, prefix: string, selector: StringMap)
    requires HoldsEntries(updated, values, prefix, selector, selector.Keys)
    ensures updated == values + Stored(prefix, selector)
  {
    var sum := values + Stored(prefix, selector);
    forall x | x in sum
      ensures x in updated && updated[x] == sum[x]
    {
      if x in StoredKeys(prefix, selector) {
        StoredEntry(prefix, selector, KeyBehind(prefix, selector, x));
      } else {
        assert forall k :: k in selector ==> StoredKey(prefix, k) != x;
      }
    }
    forall x | x in updated
      ensures x in sum
    {
      if x !in values {
        var k :| k in selector && StoredKey(prefix, k) == x;
        StoredEntry(prefix, selector, k);
      }
    }
  }

  /** Stores a selector key by key; whatever the order, no entry overwrites another. */
  method SetSelectorValues(values: StringMap, prefix: string, selector: StringMap) returns (updated: StringMap)
    ensures updated == values + Stored(prefix, selector)
  {
    updated := values;
    var todo, done := selector.Keys, {};
    while todo != {}
      invariant todo + done == selector.Keys
      invariant HoldsEntries(updated, values, prefix, selector, done)
      decreases |todo|
    {
      var k :| k in todo;
      HoldsOneMore(updated, values, prefix, selector, done, k);
      updated := updated[StoredKey(prefix, k) := selector[k]];
      todo, done := todo - {k}, done + {k};
    }
    HoldsAll(updated, values, prefix, selector);
  }

  // ----- Reading a selector back -----

  /** The selector key that a values key under the prefix stands for. */
  function ReadKey(prefix: string, stored: string): string
    requires prefix <= stored
  {
    UnescapeValueKey(stored[|prefix|..])
  }

  /** A result that reading may give: when two entries stand for one key, either value can win. */
  ghost predicate ReadsAs(values: StringMap, prefix: string, selector: StringMap) {
    && (forall k :: k in values && prefix <= k ==> ReadKey(prefix, k) in selector)
    && (forall s :: s in selector ==> ReadFrom(values, prefix, s, selector[s]))
  }

  ghost predicate ReadFrom(values: StringMap, prefix: string, key: string, value: string) {
    exists k :: k in values && prefix <= k && ReadKey(prefix, k) == key && values[k] == value
  }

  method SelectorValues(values: StringMap, prefix: string) returns (selector: StringMap)
    ensures ReadsAs(values, prefix, selector)
  {
    selector := map[];
    var todo := values.Keys;
    while todo != {}
      invariant todo <= values.Keys
      invariant forall k :: k in values && k !in todo && prefix <= k ==> ReadKey(prefix, k) in selector
      invariant forall s :: s in selector ==> ReadFrom(values, prefix, s, selector[s])
      decreases |todo|
    {
      var k :| k in todo;
      todo := todo - {k};
      if prefix <= k {
        selector := selector[ReadKey(prefix, k) := values[k]];
      }
    }
  }

  predicate RegularKeys(selector: StringMap) {
    forall k :: k in selector ==> Regular(k)
  }

  /** The entries of the values map under a prefix. */
  function Under(values: StringMap, prefix: string): StringMap {
    map k | k in values && prefix <= k :: values[k]
  }

  lemma ReadStored(prefix: string, k: string)
    requires Regular(k)
    ensures prefix + "." <= StoredKey(prefix, k)
    ensures ReadKey(prefix + ".", StoredKey(prefix, k)) == k
  {
    RoundTripExact(k);
    assert StoredKey(prefix, k)[|prefix + "."|..] == EscapeValueKey(k);
  }

  /** Escape, store, read back and unescape: exactly the selector that was stored. */
  lemma SelectorRoundTrip(values: StringMap, prefix: string, selector: StringMap, back: StringMap)
    requires RegularKeys(selector)
    requires Under(values, prefix + ".") == Stored(prefix, selector)
    requires ReadsAs(values, prefix + ".", back)
    ensures back == selector
  {
    var p := prefix + ".";
    forall k | k in selector
      ensures k in back
    {
      ReadStored(prefix, k);
      StoredEntry(prefix, selector, k);
      var x := StoredKey(prefix, k);
      assert x in Under(values, p);
    }
    forall s | s in back
      ensures s in selector && back[s] == selector[s]
    {
      var x :| x in values && p <= x && ReadKey(p, x) == s && values[x] == back[s];
      assert x in Under(values, p);
      var k := KeyBehind(prefix, selector, x);
      ReadStored(prefix, k);
      StoredEntry(prefix, selector, k);
    }
  }

  lemma UnderStored(prefix: string, selector: StringMap)
    ensures Under(Stored(prefix, selector), prefix + ".") == Stored(prefix, selector)
  {
  }

  /** Entries stored under one prefix do not show up under another that does not begin the same way. */
  lemma UnderOther(prefix: string, selector: StringMap, other: string)
    requires !(other <= prefix + ".") && !(prefix + "." <= other)
    ensures Under(Stored(prefix, selector), other) == map[]
  {
    forall x | x in Stored(prefix, selector)
      ensures !(other <= x)
    {
      assert prefix + "." <= x;
      PrefixesOfOne(other, prefix + ".", x);
    }
  }

  lemma PrefixesOfOne(a: string, b: string, x: string)
    requires b <= x && !(a <= b) && !(b <= a)
    ensures !(a <= x)
  {
    if |a| <= |b| {
      assert b[..|a|] == x[..|a|];
    } else {
      assert x[..|b|] == b;
      assert a[..|b|] != b;
    }
  }

  lemma UnderSum(a: StringMap, b: StringMap, prefix: string)
    ensures Under(a + b, prefix) == Under(a, prefix) + Under(b, prefix)
  {
  }

  // ----- Choosing an object's selector -----

  datatype Role = SimulatorObject | NodePrepObject | PlainObject

  predicate IsSimulatorName(name: string) {
    Contains(name, "ueransim") || Contains(name, "iperf3")
  }

  function RoleOf(name: string): Role {
    if IsSimulatorName(name) then SimulatorObject
    else if name == AGW_NODE_PREP then NodePrepObject
    else PlainObject
  }

  function PrefixOf(role: Role): string {
    match role
    case SimulatorObject => "simulator.nodeSelector."
    case NodePrepObject => "nodePrep.nodeSelector."
    case PlainObject => "nodeSelector."
  }

  method SelectorForObject(name: string, values: StringMap) returns (selector: StringMap)
    ensures ReadsAs(values, PrefixOf(RoleOf(name)), selector)
  {
    selector := SelectorValues(values, PrefixOf(RoleOf(name)));
  }

  const TEMPLATE_PATH: seq<string> := ["spec", "template", "spec"]
  const CRON_PATH: seq<string> := ["spec", "jobTemplate", "spec", "template", "spec"]
  const POD_PATH: seq<string> := ["spec"]

  /** Where the pod specification of an object of this kind is; other kinds have none. */
  function PodSpecPath(kind: Kind): Option<seq<string>> {
    match kind
    case Deployment | DaemonSet | StatefulSet | Job => Some(TEMPLATE_PATH)
    case CronJob => Some(CRON_PATH)
    case Pod => Some(POD_PATH)
    case _ => None
  }

  /** The string maps nested in an object, by the path of fields that leads to them. */
  type Fields = map<seq<string>, StringMap>

  function SelectorPath(kind: Kind): seq<string> {
    if PodSpecPath(kind).Some? then PodSpecPath(kind).value + ["nodeSelector"] else []
  }

  /** Only the node selector of the pod specification is set, and only to a selector that is not empty. */
  ghost predicate PlacedAs(kind: Kind, name: string, current: Fields, values: StringMap, placed: Fields) {
    exists selector ::
      ReadsAs(values, PrefixOf(RoleOf(name)), selector) &&
      placed == (if selector == map[] || PodSpecPath(kind).None? then current else current[SelectorPath(kind) := selector])
  }

  method SetPodSpecNodeSelector(current: Fields, selector: StringMap, path: seq<string>) returns (placed: Fields)
    ensures placed == current[path + ["nodeSelector"] := selector]
  {
    placed := current - {path + ["nodeSelector"]};
    placed := placed[path + ["nodeSelector"] := selector];
  }

  method ApplyNodeSelectors(kind: Kind, name: string, current: Fields, values: StringMap) returns (placed: Fields)
    ensures PlacedAs(kind, name, current, values, placed)
  {
    hide ReadsAs, RoleOf, PrefixOf, TEMPLATE_PATH, CRON_PATH, POD_PATH;
    placed := current;
    var selector := SelectorForObject(name, values);
    if selector == map[] {
      return;
    }
    match kind {
      case Deployment | DaemonSet | StatefulSet => placed := SetPodSpecNodeSelector(current, selector, TEMPLATE_PATH);
      case Job => placed := SetPodSpecNodeSelector(current, selector, TEMPLATE_PATH);
      case CronJob => placed := SetPodSpecNodeSelector(current, selector, CRON_PATH);
      case Pod => placed := SetPodSpecNodeSelector(current, selector, POD_PATH);
      case _ =>
    }
  }
}
