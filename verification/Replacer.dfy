/**
 The single-pass, multi-pattern string replacer that the operator uses to render manifests
 and to escape selector keys.  Arguments are (old, new) pairs; at each position of the text
 the pairs are tried in argument order, a match is replaced and skipped, and replaced text is
 never looked at again.
 */
module Replacer {

  datatype Pair = Pair(pattern: string, value: string)

  datatype Match = NoMatch | Matched(pair: Pair)

  /** No pattern is empty (an empty pattern has its own rules and is never used here). */
  predicate NonEmptyPatterns(pairs: seq<Pair>) {
    forall i :: 0 <= i < |pairs| ==> |pairs[i].pattern| > 0
  }

  /** The first pair, in argument order, whose pattern starts the text. */
  function FirstMatch(pairs: seq<Pair>, text: string): (m: Match)
    ensures m.Matched? ==> m.pair in pairs && m.pair.pattern <= text
    ensures m.NoMatch? ==> forall i :: 0 <= i < |pairs| ==> !(pairs[i].pattern <= text)
  {
    if pairs == [] then NoMatch
    else if pairs[0].pattern <= text then Matched(pairs[0])
    else FirstMatch(pairs[1..], text)
  }

  function Replace(pairs: seq<Pair>, text: string): string
    requires NonEmptyPatterns(pairs)
    decreases |text|
  {
    if text == "" then ""
    else
      match FirstMatch(pairs, text)
      case Matched(p) => p.value + Replace(pairs, text[|p.pattern|..])
      case NoMatch => [text[0]] + Replace(pairs, text[1..])
  }

  // ----- Tokens: what a text is cut into, independently of the replacement values -----

  datatype Token = Plain(c: char) | Hole(key: string)

  predicate PrefixFree(keys: set<string>) {
    forall a, b :: a in keys && b in keys && a <= b ==> a == b
  }

  predicate HasKeyAt(keys: set<string>, text: string) {
    exists k :: k in keys && k <= text
  }

  ghost function KeyAt(keys: set<string>, text: string): (k: string)
    requires HasKeyAt(keys, text)
    ensures k in keys && k <= text
  {
    var k :| k in keys && k <= text; k
  }

  /** The text as a sequence of plain characters and pattern occurrences. */
  ghost function Tokens(keys: set<string>, text: string): seq<Token>
    requires "" !in keys
    decreases |text|
  {
    if text == "" then []
    else if HasKeyAt(keys, text) then
      var k := KeyAt(keys, text);
      [Hole(k)] + Tokens(keys, text[|k|..])
    else
      [Plain(text[0])] + Tokens(keys, text[1..])
  }

  ghost predicate FilledBy(tokens: seq<Token>, values: map<string, string>) {
    forall t :: t in tokens && t.Hole? ==> t.key in values
  }

  /** The text obtained by writing values[k] into every hole k. */
  ghost function Fill(tokens: seq<Token>, values: map<string, string>): string
    requires FilledBy(tokens, values)
  {
    if tokens == [] then ""
    else
      (if tokens[0].Plain? then [tokens[0].c] else values[tokens[0].key]) + Fill(tokens[1..], values)
  }

  /** The text with every occurrence of a table key replaced, once, by the key's value. */
  ghost function Substitute(table: map<string, string>, text: string): string
    requires "" !in table
  {
    TokensHoles(table.Keys, text);
    Fill(Tokens(table.Keys, text), table)
  }

  ghost function Identity(keys: set<string>): map<string, string> {
    map k | k in keys :: k
  }

  lemma {:induction false} TokensHoles(keys: set<string>, text: string)
    requires "" !in keys
    ensures forall t :: t in Tokens(keys, text) && t.Hole? ==> t.key in keys
    decreases |text|
  {
    if text == "" {
    } else if HasKeyAt(keys, text) {
      TokensHoles(keys, text[|KeyAt(keys, text)|..]);
    } else {
      TokensHoles(keys, text[1..]);
    }
  }

  lemma HoleFirst(keys: set<string>, text: string)
    requires "" !in keys && text != "" && HasKeyAt(keys, text)
    requires var rest := Tokens(keys, text[|KeyAt(keys, text)|..]);
      FilledBy(rest, Identity(keys)) && Fill(rest, Identity(keys)) == text[|KeyAt(keys, text)|..]
    ensures FilledBy(Tokens(keys, text), Identity(keys)) && Fill(Tokens(keys, text), Identity(keys)) == text
  {
    var k := KeyAt(keys, text);
    var rest := Tokens(keys, text[|k|..]);
    assert Tokens(keys, text) == [Hole(k)] + rest;
    hide Tokens, KeyAt;
    FillHole(k, rest, Identity(keys));
    assert text == k + text[|k|..];
  }

  lemma PlainFirst(keys: set<string>, text: string)
    requires "" !in keys && text != "" && !HasKeyAt(keys, text)
    requires FilledBy(Tokens(keys, text[1..]), Identity(keys)) && Fill(Tokens(keys, text[1..]), Identity(keys)) == text[1..]
    ensures FilledBy(Tokens(keys, text), Identity(keys)) && Fill(Tokens(keys, text), Identity(keys)) == text
  {
    var rest := Tokens(keys, text[1..]);
    assert Tokens(keys, text) == [Plain(text[0])] + rest;
    hide Tokens;
    FillPlain(text[0], rest, Identity(keys));
    assert text == [text[0]] + text[1..];
  }

  lemma FillHole(k: string, rest: seq<Token>, values: map<string, string>)
    requires k in values && FilledBy(rest, values)
    ensures FilledBy([Hole(k)] + rest, values) && Fill([Hole(k)] + rest, values) == values[k] + Fill(rest, values)
  {
    assert ([Hole(k)] + rest)[1..] == rest;
  }

  lemma FillPlain(c: char, rest: seq<Token>, values: map<string, string>)
    requires FilledBy(rest, values)
    ensures FilledBy([Plain(c)] + rest, values) && Fill([Plain(c)] + rest, values) == [c] + Fill(rest, values)
  {
    assert ([Plain(c)] + rest)[1..] == rest;
  }

  /** Tokens lose nothing: filling every hole with its own pattern gives the text back. */
  lemma {:induction false} TokensRoundTrip(keys: set<string>, text: string)
    requires "" !in keys
    ensures FilledBy(Tokens(keys, text), Identity(keys))
    ensures Fill(Tokens(keys, text), Identity(keys)) == text
    decreases |text|
  {
    if text == "" {
    } else if HasKeyAt(keys, text) {
      hide Tokens, Fill, FilledBy, Identity;
      TokensRoundTrip(keys, text[|KeyAt(keys, text)|..]);
      HoleFirst(keys, text);
    } else {
      hide Tokens, Fill, FilledBy, Identity, HasKeyAt;
      TokensRoundTrip(keys, text[1..]);
      PlainFirst(keys, text);
    }
  }

  /** The pairs list the entries of the map, each once, in some order. */
  ghost predicate Enumerates(pairs: seq<Pair>, m: map<string, string>) {
    && (forall i :: 0 <= i < |pairs| ==> pairs[i].pattern in m && m[pairs[i].pattern] == pairs[i].value)
    && (forall k :: k in m ==> Pair(k, m[k]) in pairs)
    && (forall i, j :: 0 <= i < j < |pairs| ==> pairs[i].pattern != pairs[j].pattern)
  }

  /**
   With a prefix-free pattern set, every enumeration of the same replacement map gives the
   same output: the tokens of the text, cut without looking at any value, filled once.
   In particular no replacement value is ever scanned for further patterns.
   */
  lemma {:induction false} ReplaceIsFill(pairs: seq<Pair>, m: map<string, string>, text: string)
    requires "" !in m && PrefixFree(m.Keys) && Enumerates(pairs, m)
    ensures NonEmptyPatterns(pairs)
    ensures Replace(pairs, text) == Substitute(m, text)
    decreases |text|
  {
    TokensHoles(m.Keys, text);
    if text == "" {
    } else {
      var fm := FirstMatch(pairs, text);
      if HasKeyAt(m.Keys, text) {
        var k := KeyAt(m.Keys, text);
        assert Pair(k, m[k]) in pairs;
        assert fm.Matched?;
        PrefixesNest(fm.pair.pattern, k, text);
        assert fm.pair.pattern == k;
        ReplaceIsFill(pairs, m, text[|k|..]);
      } else {
        assert fm.NoMatch?;
        ReplaceIsFill(pairs, m, text[1..]);
      }
    }
  }

  lemma EnumeratesOneMore(pairs: seq<Pair>, table: map<string, string>, todo: set<string>, k: string)
    requires k in table && k in todo && Enumerates(pairs, table - todo)
    ensures Enumerates(pairs + [Pair(k, table[k])], table - (todo - {k}))
  {
    var more := pairs + [Pair(k, table[k])];
    var m := table - (todo - {k});
    assert more[|pairs|] == Pair(k, table[k]);
    forall j | j in m
      ensures Pair(j, m[j]) in more
    {
      assert j != k ==> j in table - todo && Pair(j, (table - todo)[j]) in pairs;
    }
  }

  /**
   Applies a replacement table.  The argument list is built from the table in whatever order
   the map yields its entries.
   */
  method ReplaceWithTable(table: map<string, string>, text: string) returns (replaced: string)
    requires "" !in table && PrefixFree(table.Keys)
    ensures replaced == Substitute(table, text)
  {
    var todo := table.Keys;
    var pairs: seq<Pair> := [];
    while todo != {}
      invariant todo <= table.Keys
      invariant Enumerates(pairs, table - todo)
      decreases |todo|
    {
      var k :| k in todo;
      EnumeratesOneMore(pairs, table, todo, k);
      pairs := pairs + [Pair(k, table[k])];
      todo := todo - {k};
    }
    assert table - {} == table;
    ReplaceIsFill(pairs, table, text);
    replaced := Replace(pairs, text);
  }

  lemma PrefixesNest(a: string, b: string, text: string)
    requires a <= text && b <= text
    ensures a <= b || b <= a
  {
    if |a| <= |b| {
      assert a == text[..|a|] == b[..|a|];
    } else {
      assert b == text[..|b|] == a[..|b|];
    }
  }

  // ----- Order independence holds exactly for prefix-free pattern sets -----

  ghost predicate OrderIndependent(keys: set<string>)
    requires "" !in keys
  {
    forall p: seq<Pair>, q: seq<Pair>, m: map<string, string>, text: string ::
      m.Keys == keys && Enumerates(p, m) && Enumerates(q, m) && NonEmptyPatterns(p) && NonEmptyPatterns(q)
      ==> Replace(p, text) == Replace(q, text)
  }

  /** With every value empty but one pattern's that cannot occur, the output is no longer than the text. */
  lemma {:induction false} EmptyValuesShrink(pairs: seq<Pair>, text: string, bound: nat)
    requires NonEmptyPatterns(pairs)
    requires forall i :: 0 <= i < |pairs| ==> pairs[i].value == "" || |pairs[i].pattern| > bound
    requires |text| <= bound
    ensures |Replace(pairs, text)| <= |text|
    decreases |text|
  {
    if text == "" {
    } else {
      match FirstMatch(pairs, text)
      case Matched(p) =>
        assert |p.pattern| <= |text|;
        EmptyValuesShrink(pairs, text[|p.pattern|..], bound);
      case NoMatch =>
        EmptyValuesShrink(pairs, text[1..], bound);
    }
  }

  lemma {:induction false} FirstPairWins(first: Pair, rest: seq<Pair>, text: string)
    requires first.pattern <= text
    ensures FirstMatch([first] + rest, text) == Matched(first)
  {
    assert ([first] + rest)[0] == first;
  }

  lemma ConsEntry(m: map<string, string>, k: string, tail: seq<Pair>)
    requires k in m && Enumerates(tail, m - {k})
    ensures Enumerates([Pair(k, m[k])] + tail, m)
  {
    var pairs := [Pair(k, m[k])] + tail;
    assert forall i :: 0 < i < |pairs| ==> pairs[i] == tail[i - 1] && pairs[i].pattern in m - {k};
    forall j | j in m
      ensures Pair(j, m[j]) in pairs
    {
      if j == k {
        assert pairs[0] == Pair(j, m[j]);
      } else {
        assert j in m - {k} && Pair(j, (m - {k})[j]) in tail;
      }
    }
  }

  ghost function ListEntries(m: map<string, string>): (pairs: seq<Pair>)
    ensures Enumerates(pairs, m)
    decreases m.Keys
  {
    if m == map[] then []
    else
      var k :| k in m;
      ConsEntry(m, k, ListEntries(m - {k}));
      [Pair(k, m[k])] + ListEntries(m - {k})
  }

  lemma OrderIndependenceExact(keys: set<string>)
    requires "" !in keys
    ensures OrderIndependent(keys) <==> PrefixFree(keys)
  {
    if PrefixFree(keys) {
      forall p: seq<Pair>, q: seq<Pair>, m: map<string, string>, text: string |
        m.Keys == keys && Enumerates(p, m) && Enumerates(q, m) && NonEmptyPatterns(p) && NonEmptyPatterns(q)
        ensures Replace(p, text) == Replace(q, text)
      {
        ReplaceIsFill(p, m, text);
        ReplaceIsFill(q, m, text);
      }
    } else {
      var a, b :| a in keys && b in keys && a <= b && a != b;
      NestedPatternsDisagree(keys, a, b);
    }
  }

  /** Two nested patterns: listing the shorter or the longer one first changes the output. */
  lemma NestedPatternsDisagree(keys: set<string>, a: string, b: string)
    requires "" !in keys && a in keys && b in keys && a <= b && a != b
    ensures !OrderIndependent(keys)
  {
    var m := map k | k in keys :: if k == b then seq(|b| + 1, _ => 'x') else "";
    var p := ShorterOrder(m, a, b);
    var q := LongerOrder(m, b);
    hide Replace, Enumerates, NonEmptyPatterns;
    assert m.Keys == keys && Replace(p, b) != Replace(q, b);
  }

  /** The order that lists the longer pattern first. */
  lemma LongerOrder(m: map<string, string>, b: string) returns (q: seq<Pair>)
    requires "" !in m && b in m
    ensures Enumerates(q, m) && NonEmptyPatterns(q) && Replace(q, b) == m[b]
  {
    var tail := ListEntries(m - {b});
    q := [Pair(b, m[b])] + tail;
    ConsEntry(m, b, tail);
    NoEmptyPattern(q, m);
    hide Replace, Enumerates;
    LongerFirst(b, m[b], tail);
  }

  /** The order that lists the shorter pattern first. */
  lemma ShorterOrder(m: map<string, string>, a: string, b: string) returns (p: seq<Pair>)
    requires "" !in m && a in m && b in m && a <= b && a != b && forall k :: k in m && k != b ==> m[k] == ""
    ensures Enumerates(p, m) && NonEmptyPatterns(p) && |Replace(p, b)| < |b|
  {
    var tail := ListEntries(m - {a});
    p := [Pair(a, "")] + tail;
    ConsEntry(m, a, tail);
    NoEmptyPattern(p, m);
    assert forall i :: 0 <= i < |tail| ==> tail[i].pattern in m - {a} && tail[i].value == m[tail[i].pattern];
    hide Replace, Enumerates;
    ShorterFirst(a, b, tail);
  }

  lemma NoEmptyPattern(pairs: seq<Pair>, m: map<string, string>)
    requires "" !in m && Enumerates(pairs, m)
    ensures NonEmptyPatterns(pairs)
  {
  }

  lemma LongerFirst(b: string, long: string, all: seq<Pair>)
    requires b != "" && NonEmptyPatterns([Pair(b, long)] + all)
    ensures Replace([Pair(b, long)] + all, b) == long
  {
    FirstPairWins(Pair(b, long), all, b);
    assert b[|b|..] == "";
  }

  lemma ShorterFirst(a: string, b: string, all: seq<Pair>)
    requires a <= b && a != b && NonEmptyPatterns([Pair(a, "")] + all)
    requires forall i :: 0 <= i < |all| ==> all[i].value == "" || all[i].pattern == b
    ensures |Replace([Pair(a, "")] + all, b)| < |b|
  {
    var p := [Pair(a, "")] + all;
    FirstPairWins(Pair(a, ""), all, b);
    assert p[0].pattern == a;
    assert |a| < |b|;
    EmptyValuesShrink(p, b[|a|..], |b| - 1);
  }

  // ----- Locality: a character that no pattern contains cuts the work in two -----

  predicate Avoids(pairs: seq<Pair>, c: char) {
    forall i :: 0 <= i < |pairs| ==> c !in pairs[i].pattern
  }

  lemma PrefixBeforeSeparator(pattern: string, a: string, c: char, b: string)
    requires c !in pattern
    ensures pattern <= a + [c] + b <==> pattern <= a
  {
    var t := a + [c] + b;
    assert t[|a|] == c && t[..|a|] == a;
    assert |pattern| <= |a| ==> t[..|pattern|] == a[..|pattern|];
  }

  lemma {:induction false} FirstMatchBeforeSeparator(pairs: seq<Pair>, a: string, c: char, b: string)
    requires Avoids(pairs, c)
    ensures FirstMatch(pairs, a + [c] + b) == FirstMatch(pairs, a)
  {
    if pairs != [] {
      PrefixBeforeSeparator(pairs[0].pattern, a, c, b);
      FirstMatchBeforeSeparator(pairs[1..], a, c, b);
    }
  }

  lemma {:induction false} SeparatorLocality(pairs: seq<Pair>, a: string, c: char, b: string)
    requires NonEmptyPatterns(pairs) && Avoids(pairs, c)
    ensures Replace(pairs, a + [c] + b) == Replace(pairs, a) + [c] + Replace(pairs, b)
    decreases |a|
  {
    var t := a + [c] + b;
    FirstMatchBeforeSeparator(pairs, a, c, b);
    if a == "" {
      assert t == [c] + b;
      var fm := FirstMatch(pairs, t);
      assert fm.NoMatch?;
      assert t[1..] == b;
    } else {
      match FirstMatch(pairs, a)
      case Matched(p) =>
        var n := |p.pattern|;
        assert t[n..] == a[n..] + [c] + b;
        SeparatorLocality(pairs, a[n..], c, b);
      case NoMatch =>
        assert t[1..] == a[1..] + [c] + b;
        SeparatorLocality(pairs, a[1..], c, b);
        assert t[0] == a[0];
    }
  }
}
