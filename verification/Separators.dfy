/** Texts closed by a separator character that they do not contain. */
module Separators {

  function IndexOf(c: char, s: string): (i: nat)
    ensures i <= |s|
  {
    if s == "" || s[0] == c then 0 else 1 + IndexOf(c, s[1..])
  }

  lemma {:induction false} IndexOfFirst(c: char, a: string, x: string)
    requires c !in a
    ensures IndexOf(c, a + [c] + x) == |a|
  {
    var s := a + [c] + x;
    if a == "" {
      assert s[0] == c;
    } else {
      assert s[0] == a[0] && s[1..] == a[1..] + [c] + x;
      IndexOfFirst(c, a[1..], x);
    }
  }

  lemma {:induction false} IndexOfFound(c: char, s: string)
    requires c in s
    ensures var i := IndexOf(c, s); i < |s| && s[i] == c && c !in s[..i]
  {
    if s[0] != c {
      assert s == [s[0]] + s[1..];
      IndexOfFound(c, s[1..]);
      var i := IndexOf(c, s);
      assert s[..i] == [s[0]] + s[1..][..i - 1];
    }
  }

  /** The part before the first separator, and the part after it, are determined. */
  lemma CutAt(c: char, a: string, x: string, b: string, y: string)
    requires c !in a && c !in b
    requires a + [c] + x == b + [c] + y
    ensures a == b && x == y
  {
    var s := a + [c] + x;
    IndexOfFirst(c, a, x);
    IndexOfFirst(c, b, y);
    assert a == s[..|a|] == b;
    assert x == s[|a| + 1..] == y;
  }

  function Count(c: char, s: string): nat {
    if s == "" then 0 else (if s[0] == c then 1 else 0) + Count(c, s[1..])
  }

  lemma {:induction false} CountSum(c: char, a: string, b: string)
    ensures Count(c, a + b) == Count(c, a) + Count(c, b)
  {
    if a == "" {
      assert a + b == b;
    } else {
      assert (a + b)[0] == a[0] && (a + b)[1..] == a[1..] + b;
      CountSum(c, a[1..], b);
    }
  }

  lemma CountSeparated(c: char, a: string, b: string)
    ensures Count(c, a + [c] + b) == Count(c, a) + 1 + Count(c, b)
  {
    CountSum(c, a + [c], b);
    CountSum(c, a, [c]);
    assert [c][1..] == "";
  }

  lemma {:induction false} CountNone(c: char, s: string)
    ensures Count(c, s) == 0 <==> c !in s
  {
    if s != "" {
      assert s == [s[0]] + s[1..];
      CountNone(c, s[1..]);
    }
  }

  /** The text is cut at its first separator. */
  lemma FirstCut(c: char, s: string) returns (x: string, y: string)
    requires c in s
    ensures s == x + [c] + y && c !in x
  {
    var i := IndexOf(c, s);
    IndexOfFound(c, s);
    x, y := s[..i], s[i + 1..];
  }
}
