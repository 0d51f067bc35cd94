/** The text whose hash keys the one-shot simulator validation. */
module ValidationKey {
  import opened GoMaps
  import opened Separators

  datatype Fields = Fields(
    release: string, trigger: string, ueDeployment: string, pingHost: string,
    iperfPort: Int32, timeout: Int32, iperfServer: string)

  const BAR: char := '|'

  function Digit(n: nat): char
    requires n < 10
  {
    '0' + n as char
  }

  function Digits(n: nat): (s: string)
    ensures s != "" && forall i :: 0 <= i < |s| ==> '0' <= s[i] <= '9'
  {
    if n < 10 then [Digit(n)] else Digits(n / 10) + [Digit(n % 10)]
  }

  function Decimal(n: int): string {
    if n < 0 then "-" + Digits(-n) else Digits(n)
  }

  lemma {:induction false} DigitsInjective(m: nat, n: nat)
    requires Digits(m) == Digits(n)
    ensures m == n
  {
    var a, b := Digits(m), Digits(n);
    assert a[|a| - 1] == b[|b| - 1];
    assert (m >= 10 ==> |a| > 1) && (n >= 10 ==> |b| > 1);
    if m >= 10 {
      assert Digits(m / 10) == a[..|a| - 1] == b[..|b| - 1] == Digits(n / 10);
      DigitsInjective(m / 10, n / 10);
    }
  }

  lemma DecimalInjective(m: int, n: int)
    requires Decimal(m) == Decimal(n)
    ensures m == n
  {
    var s := Decimal(m);
    assert (m < 0 <==> s[0] == '-') && (n < 0 <==> s[0] == '-');
    if m < 0 {
      assert Digits(-m) == s[1..] == Digits(-n);
      DigitsInjective(-m, -n);
    } else {
      DigitsInjective(m, n);
    }
  }

  lemma DecimalNoBar(n: int)
    ensures BAR !in Decimal(n)
  {
  }

  function Encode(f: Fields): string {
    f.release + [BAR] + (f.trigger + [BAR] + (f.ueDeployment + [BAR] + (f.pingHost + [BAR] +
      (Decimal(f.iperfPort) + [BAR] + (Decimal(f.timeout) + [BAR] + f.iperfServer)))))
  }

  predicate BarFree(f: Fields) {
    BAR !in f.release && BAR !in f.trigger && BAR !in f.ueDeployment && BAR !in f.pingHost
  }

  /** Requests whose first four fields have no bar have the same key text only if they are the same. */
  lemma EncodeInjective(f: Fields, g: Fields)
    requires BarFree(f) && BarFree(g)
    requires Encode(f) == Encode(g)
    ensures f == g
  {
    var f6, g6 := Decimal(f.timeout) + [BAR] + f.iperfServer, Decimal(g.timeout) + [BAR] + g.iperfServer;
    var f5, g5 := Decimal(f.iperfPort) + [BAR] + f6, Decimal(g.iperfPort) + [BAR] + g6;
    var f4, g4 := f.pingHost + [BAR] + f5, g.pingHost + [BAR] + g5;
    var f3, g3 := f.ueDeployment + [BAR] + f4, g.ueDeployment + [BAR] + g4;
    var f2, g2 := f.trigger + [BAR] + f3, g.trigger + [BAR] + g3;
    CutAt(BAR, f.release, f2, g.release, g2);
    CutAt(BAR, f.trigger, f3, g.trigger, g3);
    CutAt(BAR, f.ueDeployment, f4, g.ueDeployment, g4);
    CutAt(BAR, f.pingHost, f5, g.pingHost, g5);
    DecimalNoBar(f.iperfPort);
    DecimalNoBar(g.iperfPort);
    CutAt(BAR, Decimal(f.iperfPort), f6, Decimal(g.iperfPort), g6);
    DecimalNoBar(f.timeout);
    DecimalNoBar(g.timeout);
    CutAt(BAR, Decimal(f.timeout), f.iperfServer, Decimal(g.timeout), g.iperfServer);
    DecimalInjective(f.iperfPort, g.iperfPort);
    DecimalInjective(f.timeout, g.timeout);
  }

  /** Changing only the trigger always changes the key text, whatever characters it has. */
  lemma TriggerSensitive(f: Fields, trigger: string)
    requires trigger != f.trigger
    ensures Encode(f.(trigger := trigger)) != Encode(f)
  {
    var tail := [BAR] + (f.ueDeployment + [BAR] + (f.pingHost + [BAR] +
      (Decimal(f.iperfPort) + [BAR] + (Decimal(f.timeout) + [BAR] + f.iperfServer))));
    var head := f.release + [BAR];
    var s, t := Encode(f), Encode(f.(trigger := trigger));
    assert s == head + f.trigger + tail;
    assert t == head + trigger + tail;
    assert f.trigger == s[|head|..|s| - |tail|];
    assert trigger == t[|head|..|t| - |tail|];
  }

  // ----- Whose key is its own -----

  function Sep(a: string, b: string): string {
    a + [BAR] + b
  }

  lemma SepAssociates(a: string, b: string, c: string)
    ensures Sep(Sep(a, b), c) == Sep(a, Sep(b, c))
  {
  }

  lemma EncodeIsSep(f: Fields)
    ensures Encode(f) == Sep(f.release, Sep(f.trigger, Sep(f.ueDeployment, Sep(f.pingHost, Sep(Decimal(f.iperfPort), Sep(Decimal(f.timeout), f.iperfServer))))))
  {
  }

  /** The server text can be read as 32-bit numbers and bars where another request has its numbers. */
  ghost predicate LooksLikeNumbers(server: string) {
    || (exists a: Int32, rest: string :: server == Sep(Decimal(a), rest))
    || (exists front: string, a: Int32, b: Int32, rest: string :: server == Sep(front, Sep(Decimal(a), Sep(Decimal(b), rest))))
  }

  /** No other request has this key text. */
  ghost predicate OwnKeyText(f: Fields) {
    forall g: Fields :: Encode(g) == Encode(f) ==> g == f
  }

  /** A bar in one of the first four fields can be traded against the next or the previous field. */
  lemma BarsCollide(f: Fields) returns (g: Fields)
    requires !BarFree(f)
    ensures g != f && Encode(g) == Encode(f)
  {
    hide Encode, Decimal;
    EncodeIsSep(f);
    var tail := Sep(Decimal(f.iperfPort), Sep(Decimal(f.timeout), f.iperfServer));
    if BAR in f.release {
      var x, y := FirstCut(BAR, f.release);
      g := f.(release := x, trigger := Sep(y, f.trigger));
      Traded(x, y, f.trigger, Sep(f.ueDeployment, Sep(f.pingHost, tail)));
    } else if BAR in f.trigger {
      var x, y := FirstCut(BAR, f.trigger);
      g := f.(release := Sep(f.release, x), trigger := y);
      TradedBack(f.release, x, y, Sep(f.ueDeployment, Sep(f.pingHost, tail)));
    } else if BAR in f.ueDeployment {
      var x, y := FirstCut(BAR, f.ueDeployment);
      g := f.(trigger := Sep(f.trigger, x), ueDeployment := y);
      TradedBack(f.trigger, x, y, Sep(f.pingHost, tail));
    } else {
      var x, y := FirstCut(BAR, f.pingHost);
      g := f.(ueDeployment := Sep(f.ueDeployment, x), pingHost := y);
      TradedBack(f.ueDeployment, x, y, tail);
    }
    EncodeIsSep(g);
  }

  lemma Traded(x: string, y: string, b: string, rest: string)
    ensures Sep(Sep(x, y), Sep(b, rest)) == Sep(x, Sep(Sep(y, b), rest))
    ensures |x| < |Sep(x, y)|
  {
  }

  lemma TradedBack(a: string, x: string, y: string, rest: string)
    ensures Sep(a, Sep(Sep(x, y), rest)) == Sep(Sep(a, x), Sep(y, rest))
    ensures |y| < |Sep(x, y)|
  {
  }

  /** A server text that looks like numbers lets all fields move. */
  lemma NumbersCollide(f: Fields) returns (g: Fields)
    requires LooksLikeNumbers(f.iperfServer)
    ensures g != f && Encode(g) == Encode(f)
  {
    hide Encode, Decimal;
    EncodeIsSep(f);
    var m, n := Decimal(f.iperfPort), Decimal(f.timeout);
    if a: Int32, rest: string :| f.iperfServer == Sep(Decimal(a), rest) {
      g := Fields(Sep(f.release, f.trigger), f.ueDeployment, f.pingHost, m, f.timeout, a, rest);
      SepAssociates(f.release, f.trigger, Sep(f.ueDeployment, Sep(f.pingHost, Sep(m, Sep(n, f.iperfServer)))));
    } else {
      var front: string, a: Int32, b: Int32, rest: string :| f.iperfServer == Sep(front, Sep(Decimal(a), Sep(Decimal(b), rest)));
      g := Fields(Sep(f.release, Sep(f.trigger, f.ueDeployment)), f.pingHost, m, Sep(n, front), a, b, rest);
      var numbers := Sep(Decimal(a), Sep(Decimal(b), rest));
      SepAssociates(n, front, numbers);
      var tail := Sep(f.pingHost, Sep(m, Sep(n, f.iperfServer)));
      SepAssociates(f.trigger, f.ueDeployment, tail);
      SepAssociates(f.release, Sep(f.trigger, f.ueDeployment), tail);
    }
    EncodeIsSep(g);
    assert |g.release| > |f.release|;
  }

  /** A text that ends a list whose first part is known to begin with this field gives the field up. */
  lemma Peel(field: string, rest: string, g: string, tail: string) returns (more: string)
    requires BAR !in field && Sep(field, rest) == Sep(g, tail) && Count(BAR, g) >= 1
    ensures Count(BAR, more) == Count(BAR, g) - 1 && rest == Sep(more, tail)
  {
    CountNone(BAR, g);
    var x, y := FirstCut(BAR, g);
    SepAssociates(x, y, tail);
    CutAt(BAR, field, rest, x, Sep(y, tail));
    CountSeparated(BAR, x, y);
    CountNone(BAR, x);
    more := y;
  }

  /** If another reading has a bar more in its first four fields, the server text looks like numbers. */
  lemma NumbersShift(m: string, n: string, server: string, x: string, a: Int32, b: Int32, rest: string)
    requires BAR !in m && BAR !in n
    requires Sep(m, Sep(n, server)) == Sep(x, Sep(Decimal(a), Sep(Decimal(b), rest)))
    ensures LooksLikeNumbers(server)
  {
    DecimalNoBar(a);
    DecimalNoBar(b);
    hide Decimal;
    var numbers := Sep(Decimal(a), Sep(Decimal(b), rest));
    if BAR !in x {
      CutAt(BAR, m, Sep(n, server), x, numbers);
      CutAt(BAR, n, server, Decimal(a), Sep(Decimal(b), rest));
    } else {
      CountNone(BAR, x);
      var y := Peel(m, Sep(n, server), x, numbers);
      if BAR !in y {
        CutAt(BAR, n, server, y, numbers);
      } else {
        CountNone(BAR, y);
        var z := Peel(n, server, y, numbers);
      }
    }
  }

  lemma OtherReading(f: Fields, g: Fields)
    requires BarFree(f) && !BarFree(g) && Encode(f) == Encode(g)
    ensures LooksLikeNumbers(f.iperfServer)
  {
    DecimalNoBar(f.iperfPort);
    DecimalNoBar(f.timeout);
    hide Encode, Decimal, LooksLikeNumbers;
    EncodeIsSep(f);
    EncodeIsSep(g);
    var numbers := Sep(Decimal(g.iperfPort), Sep(Decimal(g.timeout), g.iperfServer));
    var four := Sep(g.release, Sep(g.trigger, Sep(g.ueDeployment, g.pingHost)));
    SepAssociates(g.ueDeployment, g.pingHost, numbers);
    SepAssociates(g.trigger, Sep(g.ueDeployment, g.pingHost), numbers);
    SepAssociates(g.release, Sep(g.trigger, Sep(g.ueDeployment, g.pingHost)), numbers);
    FourBars(g);
    hide Sep;
    var m, n := Decimal(f.iperfPort), Decimal(f.timeout);
    var t4 := Sep(m, Sep(n, f.iperfServer));
    var g1 := Peel(f.release, Sep(f.trigger, Sep(f.ueDeployment, Sep(f.pingHost, t4))), four, numbers);
    var g2 := Peel(f.trigger, Sep(f.ueDeployment, Sep(f.pingHost, t4)), g1, numbers);
    var g3 := Peel(f.ueDeployment, Sep(f.pingHost, t4), g2, numbers);
    var g4 := Peel(f.pingHost, t4, g3, numbers);
    NumbersShift(m, n, f.iperfServer, g4, g.iperfPort, g.timeout, g.iperfServer);
  }

  lemma FourBars(g: Fields)
    requires !BarFree(g)
    ensures Count(BAR, Sep(g.release, Sep(g.trigger, Sep(g.ueDeployment, g.pingHost)))) >= 4
  {
    CountSeparated(BAR, g.ueDeployment, g.pingHost);
    CountSeparated(BAR, g.trigger, Sep(g.ueDeployment, g.pingHost));
    CountSeparated(BAR, g.release, Sep(g.trigger, Sep(g.ueDeployment, g.pingHost)));
    CountNone(BAR, g.release);
    CountNone(BAR, g.trigger);
    CountNone(BAR, g.ueDeployment);
    CountNone(BAR, g.pingHost);
  }

  /**
   No other request shares the key text exactly when the first four fields have no bar and the
   server text cannot be read as 32-bit numbers and bars.
   */
  lemma OwnKeyTextExact(f: Fields)
    ensures OwnKeyText(f) <==> BarFree(f) && !LooksLikeNumbers(f.iperfServer)
  {
    hide Encode, LooksLikeNumbers;
    if !BarFree(f) {
      var g := BarsCollide(f);
    } else if LooksLikeNumbers(f.iperfServer) {
      var g := NumbersCollide(f);
    } else {
      forall g: Fields | Encode(g) == Encode(f)
        ensures g == f
      {
        if BarFree(g) {
          EncodeInjective(f, g);
        } else {
          OtherReading(f, g);
        }
      }
    }
  }

  /** For example, a server text "3|x" after timeout 2 reads as timeout 3 and server "x". */
  lemma ServerCollides()
    ensures Encode(Fields("r", "t", "u", "p", 1, 2, "3|x")) == Encode(Fields("r|t", "u", "p", "1", 2, 3, "x"))
  {
    assert Decimal(1) == "1" && Decimal(2) == "2" && Decimal(3) == "3";
    assert "3|x" == "3" + [BAR] + "x" && "r|t" == "r" + [BAR] + "t";
  }
}
