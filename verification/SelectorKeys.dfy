/**
 Selector keys inside the flat values map: the escape that writes them, the two replacements
 that read them back, and exactly which keys survive the round trip.
 */
module SelectorKeys {
  import opened Replacer

  const SLASH: char := '\\'

  function EscapeValueKey(key: string): string {
    Replace([Pair("\\", "\\\\"), Pair(".", "\\.")], key)
  }

  function DropDoubled(s: string): string {
    Replace([Pair("\\\\.", ".")], s)
  }

  function DropSingle(s: string): string {
    Replace([Pair("\\.", ".")], s)
  }

  function UnescapeValueKey(s: string): string {
    DropSingle(DropDoubled(s))
  }

  function EscapeChar(c: char): string {
    if c == SLASH then "\\\\" else if c == '.' then "\\." else [c]
  }

  lemma OneCharPrefix(c: char, t: string)
    requires t != ""
    ensures [c] <= t <==> t[0] == c
  {
  }

  lemma EscapeCons(c: char, rest: string)
    ensures EscapeValueKey([c] + rest) == EscapeChar(c) + EscapeValueKey(rest)
  {
    var t := [c] + rest;
    var pairs := [Pair("\\", "\\\\"), Pair(".", "\\.")];
    assert t[1..] == rest;
    assert pairs[1..] == [Pair(".", "\\.")];
    OneCharPrefix(SLASH, t);
    OneCharPrefix('.', t);
    assert ['.'] == "." && [SLASH] == "\\";
    assert FirstMatch(pairs[1..], t) == if c == '.' then Matched(pairs[1]) else NoMatch;
    assert FirstMatch(pairs, t) == if c == SLASH then Matched(pairs[0]) else FirstMatch(pairs[1..], t);
  }

  // ----- One step of a replacer with a single pair -----

  lemma Miss(pair: Pair, c: char, rest: string)
    requires pair.pattern != "" && !(pair.pattern <= [c] + rest)
    ensures Replace([pair], [c] + rest) == [c] + Replace([pair], rest)
  {
    assert ([c] + rest)[1..] == rest;
  }

  lemma Hit(pair: Pair, rest: string)
    requires pair.pattern != ""
    ensures Replace([pair], pair.pattern + rest) == pair.value + Replace([pair], rest)
  {
    assert (pair.pattern + rest)[|pair.pattern|..] == rest;
  }

  /** Escaping never merges two keys. */
  lemma {:induction false} EscapeInjective(a: string, b: string)
    requires EscapeValueKey(a) == EscapeValueKey(b)
    ensures a == b
    decreases |a|
  {
    if a != "" { EscapeCons(a[0], a[1..]); assert a == [a[0]] + a[1..]; }
    if b != "" { EscapeCons(b[0], b[1..]); assert b == [b[0]] + b[1..]; }
    if a != "" && b != "" {
      var ea, eb := EscapeChar(a[0]), EscapeChar(b[0]);
      var s := EscapeValueKey(a);
      assert s[0] == ea[0] == eb[0];
      if |ea| == 2 && |eb| == 2 { assert s[1] == ea[1] == eb[1]; }
      assert a[0] == b[0];
      assert EscapeValueKey(a[1..]) == s[|ea|..] == EscapeValueKey(b[1..]);
      EscapeInjective(a[1..], b[1..]);
    }
  }

  // ----- Runs of backslashes -----

  function Slashes(n: nat): (s: string)
    ensures |s| == n && forall i :: 0 <= i < n ==> s[i] == SLASH
  {
    if n == 0 then "" else [SLASH] + Slashes(n - 1)
  }

  /** The text does not begin with a backslash. */
  predicate Fresh(t: string) {
    t == "" || t[0] != SLASH
  }

  lemma SlashesCons(n: nat, t: string)
    requires n > 0
    ensures Slashes(n) + t == [SLASH] + (Slashes(n - 1) + t)
  {
  }

  lemma NoSlashes(t: string)
    ensures Slashes(0) + t == t
  {
  }

  lemma TwoSlashes(t: string)
    ensures EscapeChar(SLASH) + t == [SLASH] + ([SLASH] + t)
  {
  }

  lemma {:induction false} EscapeRun(m: nat, rest: string)
    ensures EscapeValueKey(Slashes(m) + rest) == Slashes(2 * m) + EscapeValueKey(rest)
  {
    hide Slashes, EscapeValueKey, EscapeChar;
    var e := EscapeValueKey(rest);
    if m == 0 {
      NoSlashes(rest);
      NoSlashes(e);
    } else {
      SlashesCons(m, rest);
      EscapeCons(SLASH, Slashes(m - 1) + rest);
      EscapeRun(m - 1, rest);
      SlashesCons(2 * m, e);
      SlashesCons(2 * m - 1, e);
      TwoSlashes(Slashes(2 * m - 2) + e);
    }
  }

  /** A pattern of n backslashes and a dot. */
  function Dotted(n: nat): string {
    Slashes(n) + "."
  }

  /** More backslashes than the pattern has, or none before a dot: no match at the front. */
  lemma NoDotted(k: nat, n: nat, t: string)
    requires Fresh(t) && k > 0 && n > 0
    requires n != k || t == "" || t[0] != '.'
    ensures !(Dotted(k) <= Slashes(n) + t)
  {
    var s, d := Slashes(n) + t, Dotted(k);
    assert d[k] == '.';
    assert k < n ==> s[k] == SLASH;
    assert n < k ==> d[n] == SLASH;
    assert n < |s| ==> s[n] == t[0];
  }

  lemma DropExact(k: nat, t: string)
    requires k > 0
    ensures Replace([Pair(Dotted(k), ".")], Slashes(k) + ("." + t)) == "." + Replace([Pair(Dotted(k), ".")], t)
  {
    assert Slashes(k) + ("." + t) == Dotted(k) + t;
    Hit(Pair(Dotted(k), "."), t);
  }

  /** Replacing k backslashes and a dot by a dot removes k backslashes of a long enough run before a dot. */
  lemma {:induction false} DropRun(k: nat, n: nat, t: string)
    requires k > 0 && n >= k
    ensures Replace([Pair(Dotted(k), ".")], Slashes(n) + ("." + t)) == Slashes(n - k) + ("." + Replace([Pair(Dotted(k), ".")], t))
    decreases n
  {
    hide Replace, Slashes;
    var rest := "." + Replace([Pair(Dotted(k), ".")], t);
    if n == k {
      DropExact(k, t);
      NoSlashes(rest);
    } else {
      KeepOne(k, n, "." + t);
      DropRun(k, n - 1, t);
      SlashesCons(n - k, rest);
    }
  }

  lemma KeepOne(k: nat, n: nat, t: string)
    requires Fresh(t) && k > 0 && n > 0
    requires n != k || t == "" || t[0] != '.'
    ensures Replace([Pair(Dotted(k), ".")], Slashes(n) + t) == [SLASH] + Replace([Pair(Dotted(k), ".")], Slashes(n - 1) + t)
  {
    NoDotted(k, n, t);
    SlashesCons(n, t);
    Miss(Pair(Dotted(k), "."), SLASH, Slashes(n - 1) + t);
  }

  lemma {:induction false} KeepRun(k: nat, n: nat, t: string)
    requires Fresh(t) && k > 0
    requires n < k || t == "" || t[0] != '.'
    ensures Replace([Pair(Dotted(k), ".")], Slashes(n) + t) == Slashes(n) + Replace([Pair(Dotted(k), ".")], t)
    decreases n
  {
    hide Replace, Slashes;
    var rest := Replace([Pair(Dotted(k), ".")], t);
    if n == 0 {
      NoSlashes(t);
      NoSlashes(rest);
    } else {
      KeepOne(k, n, t);
      KeepRun(k, n - 1, t);
      SlashesCons(n, rest);
    }
  }

  lemma PatternTexts()
    ensures Dotted(2) == "\\\\." && Dotted(1) == "\\."
  {
  }

  /** A character that is not a backslash passes both replacements. */
  lemma PlainCons(c: char, s: string)
    requires c != SLASH
    ensures DropDoubled([c] + s) == [c] + DropDoubled(s)
    ensures DropSingle([c] + s) == [c] + DropSingle(s)
  {
    assert ([c] + s)[0] == c;
    Miss(Pair("\\\\.", "."), c, s);
    Miss(Pair("\\.", "."), c, s);
  }

  /** What escaping and unescaping make of a key. */
  function ThereAndBack(key: string): string {
    UnescapeValueKey(EscapeValueKey(key))
  }

  lemma EndRun(m: nat)
    ensures ThereAndBack(Slashes(m)) == Slashes(2 * m)
  {
    PatternTexts();
    EscapeRun(m, "");
    assert Slashes(m) + "" == Slashes(m);
    assert Slashes(2 * m) + "" == Slashes(2 * m);
    KeepRun(2, 2 * m, "");
    KeepRun(1, 2 * m, "");
  }

  /** m backslashes before a character other than a dot come back as 2m. */
  lemma PlainRun(m: nat, c: char, rest: string)
    requires c != SLASH && c != '.'
    ensures ThereAndBack(Slashes(m) + ([c] + rest)) == Slashes(2 * m) + ([c] + ThereAndBack(rest))
  {
    PatternTexts();
    EscapeRun(m, [c] + rest);
    EscapeCons(c, rest);
    var tail := EscapeValueKey(rest);
    KeepRun(2, 2 * m, [c] + tail);
    PlainCons(c, tail);
    KeepRun(1, 2 * m, [c] + DropDoubled(tail));
    PlainCons(c, DropDoubled(tail));
  }

  /** m backslashes before a dot come back as 2m - 2, or none. */
  lemma DotRun(m: nat, rest: string)
    ensures ThereAndBack(Slashes(m) + ("." + rest)) == Slashes(if m == 0 then 0 else 2 * m - 2) + ("." + ThereAndBack(rest))
  {
    hide Slashes, EscapeValueKey, UnescapeValueKey;
    EscapeRun(m, "." + rest);
    EscapeCons('.', rest);
    var tail := EscapeValueKey(rest);
    assert ['.'] + rest == "." + rest;
    assert Slashes(2 * m) + ("\\." + tail) == Slashes(2 * m + 1) + ("." + tail) by { OneMoreSlash(2 * m, "." + tail); }
    DottedRun(m, tail);
  }

  lemma {:induction false} OneMoreSlash(n: nat, t: string)
    ensures Slashes(n) + ([SLASH] + t) == Slashes(n + 1) + t
  {
    if n > 0 { OneMoreSlash(n - 1, t); }
  }

  lemma DottedRun(m: nat, tail: string)
    ensures UnescapeValueKey(Slashes(2 * m + 1) + ("." + tail))
         == Slashes(if m == 0 then 0 else 2 * m - 2) + ("." + UnescapeValueKey(tail))
  {
    hide Slashes, DropDoubled, DropSingle;
    var u := DropDoubled(tail);
    if m == 0 {
      FirstDotted(tail);
      DropSingleRun(1, u);
    } else {
      DropDoubledRun(2 * m + 1, tail);
      DropSingleRun(2 * m - 1, u);
    }
  }

  lemma DropDoubledRun(n: nat, t: string)
    requires n >= 2
    ensures DropDoubled(Slashes(n) + ("." + t)) == Slashes(n - 2) + ("." + DropDoubled(t))
  {
    PatternTexts();
    hide Slashes, Replace, Dotted;
    DropRun(2, n, t);
  }

  lemma DropSingleRun(n: nat, t: string)
    requires n >= 1
    ensures DropSingle(Slashes(n) + ("." + t)) == Slashes(n - 1) + ("." + DropSingle(t))
  {
    PatternTexts();
    hide Slashes, Replace, Dotted;
    DropRun(1, n, t);
  }

  lemma FirstDotted(tail: string)
    ensures DropDoubled(Slashes(1) + ("." + tail)) == Slashes(1) + ("." + DropDoubled(tail))
  {
    PatternTexts();
    hide Slashes, Replace, Dotted;
    KeepRun(2, 1, "." + tail);
    PlainCons('.', tail);
  }

  // ----- The exact round trip -----

  /** Every run of backslashes is exactly two long and followed by a dot. */
  predicate Regular(key: string)
    decreases |key|
  {
    if key == "" then true
    else if key[0] != SLASH then Regular(key[1..])
    else |key| >= 3 && key[1] == SLASH && key[2] == '.' && Regular(key[3..])
  }

  function LeadingSlashes(key: string): (m: nat)
    ensures m <= |key| && key == Slashes(m) + key[m..] && Fresh(key[m..])
  {
    if key == "" || key[0] != SLASH then
      assert key == Slashes(0) + key[0..];
      0
    else
      var m := LeadingSlashes(key[1..]);
      assert key == [SLASH] + (Slashes(m) + key[1..][m..]) == Slashes(m + 1) + key[m + 1..];
      m + 1
  }

  lemma SlashCount(m: nat, s: string, n: nat, t: string)
    requires s != "" && s[0] != SLASH && t != "" && t[0] != SLASH
    requires Slashes(m) + s == Slashes(n) + t
    ensures m == n && s == t
  {
    var u := Slashes(m) + s;
    assert u[m] == s[0] && u[n] == t[0];
    assert m == n;
    assert s == u[m..] == t;
  }

  lemma RegularRun(m: nat, c: char, rest: string)
    requires c != SLASH
    ensures Regular(Slashes(m) + ([c] + rest)) <==> (m == 0 || (m == 2 && c == '.')) && Regular(rest)
  {
    var k := Slashes(m) + ([c] + rest);
    assert k[m] == c && k[m + 1..] == rest;
  }

  lemma SlashesIrregular(m: nat)
    ensures Regular(Slashes(m)) <==> m == 0
  {
  }

  /** A selector key comes back unchanged exactly when it is regular. */
  lemma {:induction false} RoundTripExact(key: string)
    ensures ThereAndBack(key) == key <==> Regular(key)
    decreases |key|
  {
    var m := LeadingSlashes(key);
    if m == |key| {
      assert key == Slashes(m);
      EndRun(m);
      SlashesIrregular(m);
    } else {
      var c, rest := key[m], key[m + 1..];
      assert key[m..] == [c] + rest;
      RoundTripExact(rest);
      RegularRun(m, c, rest);
      RunExact(m, c, rest);
    }
  }

  lemma RunExact(m: nat, c: char, rest: string)
    requires c != SLASH
    ensures var key := Slashes(m) + ([c] + rest);
      ThereAndBack(key) == key <==> (m == 0 || (m == 2 && c == '.')) && ThereAndBack(rest) == rest
  {
    var back := ThereAndBack(rest);
    var n := if c != '.' then 2 * m else if m == 0 then 0 else 2 * m - 2;
    if c == '.' { DotRun(m, rest); assert ['.'] == "."; } else { PlainRun(m, c, rest); }
    if Slashes(n) + ([c] + back) == Slashes(m) + ([c] + rest) {
      SlashCount(n, [c] + back, m, [c] + rest);
      assert back == ([c] + back)[1..] == ([c] + rest)[1..] == rest;
    }
  }

  /** Valid label keys contain no backslash, so they always come back unchanged. */
  lemma {:induction false} BackslashFreeRegular(key: string)
    requires SLASH !in key
    ensures Regular(key)
    decreases |key|
  {
    if key != "" { BackslashFreeRegular(key[1..]); }
  }
}
