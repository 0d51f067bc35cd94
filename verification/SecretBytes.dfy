/**
 The bytes hashed for a Secret: entries in key order, every key and every value closed by a
 NUL byte.  A character stands for a byte.
 */
module SecretBytes {
  import opened GoMaps
  import opened Separators

  const NUL: char := '\0'

  // ----- Byte order on keys -----

  predicate Before(a: string, b: string) {
    if a == "" then b != ""
    else if b == "" then false
    else a[0] < b[0] || (a[0] == b[0] && Before(a[1..], b[1..]))
  }

  lemma {:induction false} BeforeTotal(a: string, b: string)
    ensures Before(a, b) || a == b || Before(b, a)
    decreases |a|
  {
    if a != "" && b != "" && a[0] == b[0] {
      BeforeTotal(a[1..], b[1..]);
      assert a == [a[0]] + a[1..] && b == [b[0]] + b[1..];
    }
  }

  lemma {:induction false} BeforeAsymmetric(a: string, b: string)
    requires Before(a, b)
    ensures !Before(b, a) && a != b
    decreases |a|
  {
    if a != "" && a[0] == b[0] { BeforeAsymmetric(a[1..], b[1..]); }
  }

  lemma {:induction false} BeforeTransitive(a: string, b: string, c: string)
    requires Before(a, b) && Before(b, c)
    ensures Before(a, c)
    decreases |a|
  {
    if a != "" && a[0] == b[0] == c[0] { BeforeTransitive(a[1..], b[1..], c[1..]); }
  }

  predicate Sorted(keys: seq<string>) {
    forall i, j :: 0 <= i < j < |keys| ==> Before(keys[i], keys[j])
  }

  /** A set of keys has only one sorted listing. */
  lemma {:induction false} SortedUnique(a: seq<string>, b: seq<string>)
    requires Sorted(a) && Sorted(b)
    requires forall k :: k in a <==> k in b
    ensures a == b
    decreases |a|
  {
    assert b != [] ==> b[0] in a;
    if a != [] {
      assert a[0] in b;
      SameHead(a, b);
      forall k ensures k in a[1..] <==> k in b[1..] {
        TailMembers(a, k);
        TailMembers(b, k);
      }
      SortedUnique(a[1..], b[1..]);
      assert a == [a[0]] + a[1..] && b == [b[0]] + b[1..];
    }
  }

  lemma SameHead(a: seq<string>, b: seq<string>)
    requires Sorted(a) && Sorted(b) && a != [] && b != []
    requires a[0] in b && b[0] in a
    ensures a[0] == b[0]
  {
    if a[0] != b[0] {
      var i :| 0 <= i < |a| && a[i] == b[0];
      var j :| 0 <= j < |b| && b[j] == a[0];
      BeforeAsymmetric(a[0], a[i]);
    }
  }

  lemma TailMembers(a: seq<string>, k: string)
    requires Sorted(a) && a != []
    ensures k in a[1..] <==> k in a && k != a[0]
  {
    if k in a[1..] {
      var i :| 0 <= i < |a| - 1 && a[1..][i] == k;
      BeforeAsymmetric(a[0], a[i + 1]);
    }
  }

  // ----- Sorting -----

  function Insert(keys: seq<string>, k: string): seq<string> {
    if keys == [] || Before(k, keys[0]) then [k] + keys
    else [keys[0]] + Insert(keys[1..], k)
  }

  lemma {:induction false} InsertSorts(keys: seq<string>, k: string)
    requires Sorted(keys) && k !in keys
    ensures Sorted(Insert(keys, k))
    ensures forall x :: x in Insert(keys, k) <==> x == k || x in keys
  {
    if keys != [] {
      assert forall x :: x in keys <==> x == keys[0] || x in keys[1..];
      if Before(k, keys[0]) {
        forall j | 0 <= j < |keys|
          ensures Before(k, keys[j])
        {
          if j > 0 { BeforeTransitive(k, keys[0], keys[j]); }
        }
      } else {
        BeforeTotal(k, keys[0]);
        InsertSorts(keys[1..], k);
        var rest := Insert(keys[1..], k);
        forall j | 0 <= j < |rest|
          ensures Before(keys[0], rest[j])
        {
          assert rest[j] in rest;
          if rest[j] != k {
            var i :| 0 <= i < |keys| - 1 && keys[1..][i] == rest[j];
          }
        }
        assert forall x :: x in [keys[0]] + rest <==> x == keys[0] || x in rest;
      }
    }
  }

  // ----- Serialisation -----

  function Serialize(keys: seq<string>, data: StringMap): string
    requires forall i :: 0 <= i < |keys| ==> keys[i] in data
  {
    if keys == [] then ""
    else keys[0] + [NUL] + data[keys[0]] + [NUL] + Serialize(keys[1..], data)
  }

  ghost predicate Listing(keys: seq<string>, data: StringMap) {
    Sorted(keys) && (forall k :: k in keys <==> k in data)
  }

  /** These are the bytes hashed for the data. */
  ghost predicate CanonicalBytes(bytes: string, data: StringMap) {
    exists keys :: Listing(keys, data) && bytes == Serialize(keys, data)
  }

  /** There is one such byte string, however the map is enumerated. */
  lemma CanonicalUnique(a: string, b: string, data: StringMap)
    requires CanonicalBytes(a, data) && CanonicalBytes(b, data)
    ensures a == b
  {
    var ka :| Listing(ka, data) && a == Serialize(ka, data);
    var kb :| Listing(kb, data) && b == Serialize(kb, data);
    SortedUnique(ka, kb);
  }

  /** The keys of a set in order. */
  ghost function InOrder(keys: set<string>): (listing: seq<string>)
    ensures Sorted(listing) && forall k :: k in listing <==> k in keys
  {
    if keys == {} then []
    else
      var k :| k in keys;
      var rest := InOrder(keys - {k});
      InsertSorts(rest, k);
      Insert(rest, k)
  }

  ghost function Canonical(data: StringMap): (bytes: string)
    ensures CanonicalBytes(bytes, data)
  {
    var keys := InOrder(data.Keys);
    assert Listing(keys, data);
    Serialize(keys, data)
  }

  /** Collects the keys in map order and sorts them. */
  method SortedKeys(data: StringMap) returns (keys: seq<string>)
    ensures Listing(keys, data)
  {
    keys := [];
    var todo := data.Keys;
    while todo != {}
      invariant todo <= data.Keys
      invariant Sorted(keys) && forall k :: k in keys <==> k in data && k !in todo
      decreases |todo|
    {
      var k :| k in todo;
      InsertSorts(keys, k);
      keys := Insert(keys, k);
      todo := todo - {k};
    }
  }

  lemma SerializeEnd(data: StringMap)
    ensures Serialize([], data) == ""
  {
  }

  lemma SerializeStep(keys: seq<string>, data: StringMap)
    requires keys != [] && forall i :: 0 <= i < |keys| ==> keys[i] in data
    ensures Serialize(keys, data) == keys[0] + [NUL] + data[keys[0]] + [NUL] + Serialize(keys[1..], data)
  {
  }

  method AppendEntries(keys: seq<string>, data: StringMap) returns (hashInput: string)
    requires forall i :: 0 <= i < |keys| ==> keys[i] in data
    ensures hashInput == Serialize(keys, data)
  {
    hide Serialize;
    hashInput := "";
    SerializeEnd(data);
    for i := 0 to |keys|
      invariant hashInput + Serialize(keys[i..], data) == Serialize(keys, data)
    {
      ghost var before := hashInput;
      SerializeStep(keys[i..], data);
      hashInput := hashInput + keys[i];
      hashInput := hashInput + [NUL];
      hashInput := hashInput + data[keys[i]];
      hashInput := hashInput + [NUL];
      assert keys[i..][1..] == keys[i + 1..];
      assert hashInput == before + (keys[i] + [NUL] + data[keys[i]] + [NUL]);
    }
  }

  method SecretDataBytes(data: StringMap) returns (hashInput: string)
    ensures CanonicalBytes(hashInput, data) && hashInput == Canonical(data)
  {
    var keys := SortedKeys(data);
    hashInput := AppendEntries(keys, data);
    CanonicalUnique(hashInput, Canonical(data), data);
  }

  // ----- Injectivity -----

  predicate NulFree(data: StringMap) {
    forall k :: k in data ==> NUL !in k && NUL !in data[k]
  }

  lemma {:induction false} SerializeInjective(ka: seq<string>, a: StringMap, kb: seq<string>, b: StringMap)
    requires forall i :: 0 <= i < |ka| ==> ka[i] in a
    requires forall i :: 0 <= i < |kb| ==> kb[i] in b
    requires NulFree(a) && NulFree(b)
    requires Serialize(ka, a) == Serialize(kb, b)
    ensures ka == kb
    ensures forall i :: 0 <= i < |ka| ==> a[ka[i]] == b[ka[i]]
  {
    if ka != [] && kb != [] {
      var ra, rb := Serialize(ka[1..], a), Serialize(kb[1..], b);
      assert Serialize(ka, a) == ka[0] + [NUL] + (a[ka[0]] + [NUL] + ra);
      assert Serialize(kb, b) == kb[0] + [NUL] + (b[kb[0]] + [NUL] + rb);
      CutAt(NUL, ka[0], a[ka[0]] + [NUL] + ra, kb[0], b[kb[0]] + [NUL] + rb);
      CutAt(NUL, a[ka[0]], ra, b[kb[0]], rb);
      SerializeInjective(ka[1..], a, kb[1..], b);
    }
  }

  /** NUL-free Secrets with the same bytes are the same Secret. */
  lemma CanonicalInjective(bytes: string, a: StringMap, b: StringMap)
    requires NulFree(a) && NulFree(b)
    requires CanonicalBytes(bytes, a) && CanonicalBytes(bytes, b)
    ensures a == b
  {
    var ka :| Listing(ka, a) && bytes == Serialize(ka, a);
    var kb :| Listing(kb, b) && bytes == Serialize(kb, b);
    SerializeInjective(ka, a, kb, b);
    forall k | k in a
      ensures k in b && a[k] == b[k]
    {
      assert k in ka;
    }
    assert forall k :: k in b ==> k in kb;
  }

  // ----- Whose bytes are its own -----

  /** No other byte map has these bytes. */
  ghost predicate OwnBytes(m: StringMap) {
    forall n: StringMap :: Canonical(n) == Canonical(m) ==> n == m
  }

  lemma CanonicalIs(keys: seq<string>, m: StringMap)
    requires Listing(keys, m)
    ensures Canonical(m) == Serialize(keys, m)
  {
    assert CanonicalBytes(Serialize(keys, m), m);
    CanonicalUnique(Canonical(m), Serialize(keys, m), m);
  }

  lemma {:induction false} SerializeSame(keys: seq<string>, a: StringMap, b: StringMap)
    requires forall i :: 0 <= i < |keys| ==> keys[i] in a && keys[i] in b && a[keys[i]] == b[keys[i]]
    ensures Serialize(keys, a) == Serialize(keys, b)
  {
    if keys != [] {
      SerializeSame(keys[1..], a, b);
    }
  }

  lemma SingleIs(k: string, v: string)
    ensures Canonical(map[k := v]) == k + [NUL] + v + [NUL]
  {
    var m: StringMap := map[k := v];
    assert Listing([k], m);
    CanonicalIs([k], m);
    assert [k][1..] == [];
    assert Serialize([k], m) == k + [NUL] + m[k] + [NUL] + "";
  }

  /** Two entries read as one whose value goes on. */
  lemma EntriesMerge(m: StringMap) returns (n: StringMap)
    requires |m| >= 2
    ensures n != m && Canonical(n) == Canonical(m) && n.Keys <= m.Keys
  {
    var keys := InOrder(m.Keys);
    assert Listing(keys, m);
    TwoKeys(keys, m);
    var k0, k1, rest := keys[0], keys[1], keys[2..];
    assert k0 in keys && k1 in keys && Before(k0, k1);
    BeforeAsymmetric(k0, k1);
    n := (m - {k1})[k0 := m[k0] + [NUL] + k1 + [NUL] + m[k1]];
    assert k1 !in n && k1 in m;
    MergedListing(keys, m, n);
    CanonicalIs(keys, m);
    CanonicalIs([k0] + rest, n);
    SerializeSame(rest, m, n);
    assert keys[1..][0] == k1 && keys[1..][1..] == rest && ([k0] + rest)[1..] == rest;
    var tail := Serialize(rest, m);
    Merged(k0, m[k0], k1, m[k1], tail);
  }

  lemma Merged(k0: string, v0: string, k1: string, v1: string, tail: string)
    ensures k0 + [NUL] + v0 + [NUL] + (k1 + [NUL] + v1 + [NUL] + tail) == k0 + [NUL] + (v0 + [NUL] + k1 + [NUL] + v1) + [NUL] + tail
  {
  }

  lemma TwoKeys(keys: seq<string>, m: StringMap)
    requires Listing(keys, m) && |m| >= 2
    ensures |keys| >= 2
  {
    assert m.Keys == set k | k in keys;
    assert |m| == |m.Keys|;
    MembersFew(keys);
  }

  lemma {:induction false} MembersFew(keys: seq<string>)
    ensures |set k | k in keys| <= |keys|
  {
    if keys != [] {
      MembersFew(keys[1..]);
      assert (set k | k in keys) == (set k | k in keys[1..]) + {keys[0]};
    }
  }

  lemma MergedListing(keys: seq<string>, m: StringMap, n: StringMap)
    requires Listing(keys, m) && |keys| >= 2 && n.Keys == m.Keys - {keys[1]}
    ensures Listing([keys[0]] + keys[2..], n)
    ensures forall i :: 0 <= i < |keys| - 2 ==> keys[2..][i] != keys[0] && keys[2..][i] in n
  {
    var fewer := [keys[0]] + keys[2..];
    assert forall i :: 0 < i < |fewer| ==> fewer[i] == keys[i + 1];
    forall i, j | 0 <= i < j < |keys|
      ensures keys[i] != keys[j]
    {
      BeforeAsymmetric(keys[i], keys[j]);
    }
    forall k
      ensures k in fewer <==> k in n
    {
      if k in n {
        assert k in keys;
        var i :| 0 <= i < |keys| && keys[i] == k;
        assert i == 0 ==> fewer[0] == k;
        assert i >= 2 ==> fewer[i - 1] == k;
      }
      if k in fewer {
        var i :| 0 <= i < |fewer| && fewer[i] == k;
        assert k == keys[if i == 0 then 0 else i + 1] && k in keys;
      }
    }
  }

  /** With a NUL in it, a single entry reads as another one. */
  lemma NulCollides(k: string, v: string) returns (n: StringMap)
    requires NUL in k || NUL in v
    ensures n != map[k := v] && Canonical(n) == Canonical(map[k := v])
  {
    SingleIs(k, v);
    if NUL in v {
      var x, y := FirstCut(NUL, v);
      n := map[k + [NUL] + x := y];
      SingleIs(k + [NUL] + x, y);
      assert |k + [NUL] + x| != |k| && k in map[k := v] && k !in n;
      assert k + [NUL] + x + [NUL] + y + [NUL] == k + [NUL] + (x + [NUL] + y) + [NUL];
    } else {
      var x, y := FirstCut(NUL, k);
      n := map[x := y + [NUL] + v];
      SingleIs(x, y + [NUL] + v);
      assert |x| != |k| && k in map[k := v] && k !in n;
      assert x + [NUL] + (y + [NUL] + v) + [NUL] == x + [NUL] + y + [NUL] + v + [NUL];
    }
  }

  lemma {:induction false} SerializeNuls(keys: seq<string>, m: StringMap)
    requires forall i :: 0 <= i < |keys| ==> keys[i] in m
    ensures Count(NUL, Serialize(keys, m)) >= 2 * |keys|
    ensures Count(NUL, Serialize(keys, m)) == 2 * |keys| ==> forall i :: 0 <= i < |keys| ==> NUL !in keys[i] && NUL !in m[keys[i]]
  {
    if keys != [] {
      var rest := Serialize(keys[1..], m);
      SerializeNuls(keys[1..], m);
      var value := m[keys[0]];
      assert Serialize(keys, m) == keys[0] + [NUL] + (value + [NUL] + rest);
      CountSeparated(NUL, value, rest);
      CountSeparated(NUL, keys[0], value + [NUL] + rest);
      CountNone(NUL, keys[0]);
      CountNone(NUL, value);
    }
  }

  lemma SingleOwn(k: string, v: string, n: StringMap)
    requires NUL !in k && NUL !in v && Canonical(n) == Canonical(map[k := v])
    ensures n == map[k := v]
  {
    SingleIs(k, v);
    var keys := InOrder(n.Keys);
    assert Listing(keys, n);
    CanonicalIs(keys, n);
    SerializeNuls(keys, n);
    CountSeparated(NUL, k + [NUL] + v, "");
    CountSeparated(NUL, k, v);
    CountNone(NUL, k);
    CountNone(NUL, v);
    assert k + [NUL] + v + [NUL] == k + [NUL] + v + [NUL] + "";
    assert Count(NUL, Canonical(n)) == 2;
    assert keys != [];
    var m: StringMap := map[k := v];
    assert NulFree(n) && NulFree(m);
    CanonicalInjective(Canonical(n), n, m);
  }

  /** Among all byte maps, the bytes are a map's own exactly when it has no entry, or one entry without NUL bytes. */
  lemma OwnBytesExact(m: StringMap)
    ensures OwnBytes(m) <==> |m| == 0 || (|m| == 1 && NulFree(m))
  {
    hide Canonical;
    if |m| >= 2 {
      var n := EntriesMerge(m);
    } else if |m| == 1 {
      var k := TheKey(m);
      if NulFree(m) {
        forall n: StringMap | Canonical(n) == Canonical(m)
          ensures n == m
        {
          SingleOwn(k, m[k], n);
        }
      } else {
        var n := NulCollides(k, m[k]);
      }
    } else {
      forall n: StringMap | Canonical(n) == Canonical(m)
        ensures n == m
      {
        EmptyOwn(m, n);
      }
    }
  }

  lemma TheKey(m: StringMap) returns (k: string)
    requires |m| == 1
    ensures k in m && m == map[k := m[k]]
  {
    assert |m.Keys| == 1;
    k :| k in m.Keys;
    assert |m.Keys - {k}| == 0;
    assert m.Keys == {k};
  }

  lemma EmptyOwn(m: StringMap, n: StringMap)
    requires |m| == 0 && Canonical(n) == Canonical(m)
    ensures n == m
  {
    assert m == map[];
    assert Listing([], m);
    CanonicalIs([], m);
    var keys := InOrder(n.Keys);
    assert Listing(keys, n);
    CanonicalIs(keys, n);
    SerializeNuls(keys, n);
    assert Count(NUL, "") == 0;
    assert keys == [];
    assert forall k :: k !in n;
  }

  // ----- Among the maps that a Secret can hold -----

  predicate KeyChar(c: char) {
    'a' <= c <= 'z' || 'A' <= c <= 'Z' || '0' <= c <= '9' || c == '-' || c == '_' || c == '.'
  }

  /** What the API server accepts as a key of a Secret. */
  predicate ValidKey(k: string) {
    0 < |k| <= 253 && (forall i :: 0 <= i < |k| ==> KeyChar(k[i])) && k != "." && !(".." <= k)
  }

  predicate IsSecret(m: StringMap) {
    forall k :: k in m ==> ValidKey(k)
  }

  function Entry(before: string, key: string, after: string): string {
    before + [NUL] + key + [NUL] + after
  }

  /** The value can be read as a shorter value, followed by the key of a later entry and its value. */
  ghost predicate HidesEntry(k: string, v: string) {
    exists x: string, key: string, y: string :: v == Entry(x, key, y) && ValidKey(key) && Before(k, key)
  }

  /** No other Secret has these bytes. */
  ghost predicate OwnAmongSecrets(m: StringMap) {
    forall n: StringMap :: IsSecret(n) && Canonical(n) == Canonical(m) ==> n == m
  }

  lemma PairIs(k: string, v: string, l: string, w: string)
    requires Before(k, l)
    ensures k != l && Canonical(map[k := v, l := w]) == k + [NUL] + v + [NUL] + (l + [NUL] + w + [NUL])
  {
    BeforeAsymmetric(k, l);
    var m: StringMap := map[k := v, l := w];
    assert Listing([k, l], m);
    CanonicalIs([k, l], m);
    assert [k, l][1..] == [l] && [l][1..] == [];
    assert Serialize([l], m) == l + [NUL] + w + [NUL] + "";
  }

  /** A hidden entry can be taken out of the value. */
  lemma HiddenCollides(k: string, v: string) returns (n: StringMap)
    requires ValidKey(k) && HidesEntry(k, v)
    ensures IsSecret(n) && n != map[k := v] && Canonical(n) == Canonical(map[k := v])
  {
    var x, key, y :| v == Entry(x, key, y) && ValidKey(key) && Before(k, key);
    n := map[k := x, key := y];
    PairIs(k, x, key, y);
    SingleIs(k, v);
    assert key in n && key !in map[k := v];
    Merged(k, x, key, y, "");
  }

  lemma ClosedEqual(a: string, b: string)
    requires a + [NUL] == b + [NUL]
    ensures a == b
  {
    assert a == (a + [NUL])[..|a|] && b == (b + [NUL])[..|b|];
  }

  /** Serialised entries end in a NUL. */
  lemma {:induction false} SerializeCloses(keys: seq<string>, m: StringMap) returns (s: string)
    requires keys != [] && forall i :: 0 <= i < |keys| ==> keys[i] in m
    ensures Serialize(keys, m) == s + [NUL]
    ensures exists y: string :: s == keys[0] + [NUL] + y
  {
    var value, rest := m[keys[0]], Serialize(keys[1..], m);
    if |keys| == 1 {
      assert rest == "";
      s := keys[0] + [NUL] + value;
    } else {
      var t := SerializeCloses(keys[1..], m);
      assert rest == t + [NUL];
      s := keys[0] + [NUL] + (value + [NUL] + t);
    }
    assert Serialize(keys, m) == s + [NUL];
  }

  lemma ValidNulFree(k: string)
    requires ValidKey(k)
    ensures NUL !in k
  {
    assert !KeyChar(NUL);
  }

  lemma FirstEntry(keys: seq<string>, n: StringMap, k: string, v: string)
    requires (forall i :: 0 <= i < |keys| ==> keys[i] in n) && IsSecret(n) && ValidKey(k)
    requires Serialize(keys, n) == k + [NUL] + v + [NUL]
    ensures keys != [] && keys[0] == k && n[k] + [NUL] + Serialize(keys[1..], n) == v + [NUL]
  {
    hide ValidKey;
    assert keys != [] && keys[0] in n;
    var rest := n[keys[0]] + [NUL] + Serialize(keys[1..], n);
    assert Serialize(keys, n) == keys[0] + [NUL] + rest;
    assert k + [NUL] + v + [NUL] == k + [NUL] + (v + [NUL]);
    ValidNulFree(k);
    ValidNulFree(keys[0]);
    CutAt(NUL, keys[0], rest, k, v + [NUL]);
  }

  lemma SecondEntry(keys: seq<string>, n: StringMap, k: string, v: string)
    requires |keys| >= 2 && Listing(keys, n) && IsSecret(n) && keys[0] == k
    requires n[k] + [NUL] + Serialize(keys[1..], n) == v + [NUL]
    ensures HidesEntry(k, v)
  {
    hide ValidKey, Before;
    var s := SerializeCloses(keys[1..], n);
    var y :| s == keys[1] + [NUL] + y;
    hide Serialize;
    assert n[k] + [NUL] + (s + [NUL]) == (n[k] + [NUL] + s) + [NUL];
    ClosedEqual(v, n[k] + [NUL] + s);
    assert keys[1] in keys;
    assert v == Entry(n[k], keys[1], y);
  }

  lemma SingleAmongSecrets(k: string, v: string, n: StringMap)
    requires ValidKey(k) && IsSecret(n) && Canonical(n) == Canonical(map[k := v]) && !HidesEntry(k, v)
    ensures n == map[k := v]
  {
    hide HidesEntry, ValidKey, Before;
    SingleIs(k, v);
    var keys := InOrder(n.Keys);
    assert Listing(keys, n);
    CanonicalIs(keys, n);
    FirstEntry(keys, n, k, v);
    if |keys| >= 2 {
      SecondEntry(keys, n, k, v);
    } else {
      assert keys[1..] == [] && n[k] + [NUL] + "" == n[k] + [NUL];
      ClosedEqual(n[k], v);
      assert forall l :: l in n <==> l in keys;
      assert n.Keys == {k};
    }
  }

  /**
   Among Secrets, the bytes are a Secret's own exactly when it has no entry, or one entry whose
   value does not hide another one.
   */
  lemma SecretOwnExact(m: StringMap)
    requires IsSecret(m)
    ensures OwnAmongSecrets(m) <==> |m| == 0 || (|m| == 1 && forall k :: k in m ==> !HidesEntry(k, m[k]))
  {
    hide Canonical, HidesEntry;
    if |m| >= 2 {
      var n := EntriesMerge(m);
      assert IsSecret(n);
    } else if |m| == 1 {
      var k := TheKey(m);
      if HidesEntry(k, m[k]) {
        var n := HiddenCollides(k, m[k]);
      } else {
        forall n: StringMap | IsSecret(n) && Canonical(n) == Canonical(m)
          ensures n == m
        {
          SingleAmongSecrets(k, m[k], n);
        }
      }
    } else {
      forall n: StringMap | Canonical(n) == Canonical(m)
        ensures n == m
      {
        EmptyOwn(m, n);
      }
    }
  }
}
