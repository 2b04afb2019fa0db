/** Text helpers: trimming, decimal rendering and self-delimiting concatenation. */
module Text {

  predicate IsSpace(c: char) {
    c == ' ' || '\t' <= c <= '\r'
  }

  /** strings.TrimSpace on ASCII white space. */
  function Trim(s: string): string {
    if s != "" && IsSpace(s[0]) then Trim(s[1..])
    else if s != "" && IsSpace(s[|s| - 1]) then Trim(s[..|s| - 1])
    else s
  }

  /** Tab, line feed, vertical tab, form feed, carriage return or space. */
  predicate White(c: char) {
    c as int in {9, 10, 11, 12, 13, 32}
  }

  predicate Blank(s: string) {
    forall i | 0 <= i < |s| :: White(s[i])
  }

  /** No white space at either end. */
  predicate Bare(s: string) {
    s != "" ==> !White(s[0]) && !White(s[|s| - 1])
  }

  /** Trimming takes white space off both ends, all of it and nothing else. */
  lemma {:induction false} TrimTakesOff(s: string) returns (a: string, b: string)
    ensures s == a + Trim(s) + b && Blank(a) && Blank(b) && Bare(Trim(s))
  {
    if s != "" && IsSpace(s[0]) {
      a, b := TrimTakesOff(s[1..]);
      assert s == [s[0]] + s[1..] == [s[0]] + a + Trim(s) + b;
      a := [s[0]] + a;
    } else if s != "" && IsSpace(s[|s| - 1]) {
      var n := |s| - 1;
      a, b := TrimTakesOff(s[..n]);
      assert s == s[..n] + [s[n]] == a + Trim(s) + (b + [s[n]]);
      b := b + [s[n]];
    } else {
      a, b := "", "";
    }
  }

  lemma {:induction false} TrimPadded(a: string, s: string, b: string)
    requires Blank(a) && Blank(b) && s != "" && Bare(s)
    ensures Trim(a + s + b) == s
    decreases |a| + |b|
  {
    var x := a + s + b;
    if a != "" {
      assert x[1..] == a[1..] + s + b && IsSpace(x[0]);
      TrimPadded(a[1..], s, b);
    } else if b != "" {
      var n := |b| - 1;
      assert x[..|x| - 1] == a + s + b[..n] && IsSpace(x[|x| - 1]) && x[0] == s[0];
      TrimPadded(a, s, b[..n]);
    } else {
      assert x == s;
    }
  }

  function LowerChar(c: char): char {
    if 'A' <= c <= 'Z' then (c as int + 32) as char else c
  }

  /** strings.ToLower on ASCII letters. */
  function Lower(s: string): string {
    seq(|s|, i requires 0 <= i < |s| => LowerChar(s[i]))
  }

  /** Node names compare without case and surrounding white space. */
  predicate SameNode(observed: string, expected: string) {
    Lower(Trim(observed)) == Lower(Trim(expected))
  }

  /** The same letter in either case, or the same character. */
  predicate SameLetter(c: char, d: char) {
    c == d || ('A' <= c <= 'Z' && d as int == c as int + 32) || ('A' <= d <= 'Z' && c as int == d as int + 32)
  }

  predicate SameLetters(s: string, t: string) {
    |s| == |t| && forall i | 0 <= i < |s| :: SameLetter(s[i], t[i])
  }

  /** Lowering forgets the case of letters and nothing else. */
  lemma LowerForgetsCase(s: string, t: string)
    ensures Lower(s) == Lower(t) <==> SameLetters(s, t)
    ensures SameLetters(Lower(s), s) && forall i | 0 <= i < |s| :: !('A' <= Lower(s)[i] <= 'Z')
  {
    if Lower(s) == Lower(t) {
      assert |s| == |Lower(s)| == |Lower(t)| == |t|;
      forall i | 0 <= i < |s| ensures SameLetter(s[i], t[i]) {
        assert Lower(s)[i] == Lower(t)[i];
      }
    }
  }

  /** Two node names are the same up to white space around them and the case of letters. */
  lemma SameNodeIs(observed: string, expected: string)
    ensures SameNode(observed, expected) <==> SameLetters(Trim(observed), Trim(expected))
  {
    LowerForgetsCase(Trim(observed), Trim(expected));
  }

  // ---- Decimal rendering ----

  function Digit(d: nat): char
    requires d < 10
  {
    ('0' as int + d) as char
  }

  function Digits(n: nat): string {
    if n < 10 then [Digit(n)] else Digits(n / 10) + [Digit(n % 10)]
  }

  /** strconv.Itoa. */
  function Itoa(n: int): string {
    if n < 0 then "-" + Digits(-n) else Digits(n)
  }

  predicate IsDigit(c: char) { '0' <= c <= '9' }

  /** The decimal notation people use, and not another one that can be read back as well. */
  lemma ItoaSamples()
    ensures Itoa(0) == "0" && Itoa(7) == "7" && Itoa(101) == "101" && Itoa(-20) == "-20"
  {
    assert Digits(10) == Digits(1) + [Digit(0)] && Digits(2) == "2";
    assert Digits(101) == Digits(10) + [Digit(1)];
    assert Digits(20) == Digits(2) + [Digit(0)];
  }

  lemma DigitsAreDigits(n: nat)
    ensures Digits(n) != "" && forall i | 0 <= i < |Digits(n)| :: IsDigit(Digits(n)[i])
  {
  }

  lemma {:induction false} DigitsInjective(m: nat, n: nat)
    requires Digits(m) == Digits(n)
    ensures m == n
  {
    DigitsAreDigits(m / 10);
    DigitsAreDigits(n / 10);
    assert Digits(m)[|Digits(m)| - 1] == Digit(m % 10);
    assert Digits(n)[|Digits(n)| - 1] == Digit(n % 10);
    if m >= 10 && n >= 10 {
      assert Digits(m / 10) == Digits(m)[..|Digits(m)| - 1];
      assert Digits(n / 10) == Digits(n)[..|Digits(n)| - 1];
      DigitsInjective(m / 10, n / 10);
    }
  }

  lemma ItoaInjective(m: int, n: int)
    requires Itoa(m) == Itoa(n)
    ensures m == n
  {
    DigitsAreDigits(if m < 0 then -m else m);
    DigitsAreDigits(if n < 0 then -n else n);
    assert (m >= 0 ==> IsDigit(Itoa(m)[0])) && (n >= 0 ==> IsDigit(Itoa(n)[0]));
    if m < 0 && n < 0 {
      assert Digits(-m) == Itoa(m)[1..] == Itoa(n)[1..] == Digits(-n);
      DigitsInjective(-m, -n);
    } else if m >= 0 && n >= 0 {
      DigitsInjective(m, n);
    }
  }

  // ---- Self-delimiting pieces ----

  /** Everything up to the first c is fixed by the text. */
  lemma SplitAtFirst(a: string, b: string, c: char, s: string, t: string)
    requires c !in a && c !in b
    requires a + [c] + s == b + [c] + t
    ensures a == b && s == t
  {
    var x, y := a + [c] + s, b + [c] + t;
    assert x[|a|] == c && y[|b|] == c;
    assert forall i | 0 <= i < |a| :: x[i] == a[i];
    assert forall i | 0 <= i < |b| :: y[i] == b[i];
    assert |a| == |b|;
    assert a == x[..|a|] && b == y[..|b|];
    assert s == x[|a| + 1..] && t == y[|b| + 1..];
  }

  /** A rendering whose pieces can be read back off the front of any concatenation. */
  ghost predicate SelfDelimiting<T(!new)>(f: T -> string) {
    && (forall x :: f(x) != "")
    && (forall x, y, s, t {:trigger f(x) + s, f(y) + t} :: f(x) + s == f(y) + t ==> x == y)
  }

  function Join<T>(f: T -> string, xs: seq<T>): string {
    if xs == [] then "" else f(xs[0]) + Join(f, xs[1..])
  }

  lemma {:induction false} JoinAppend<T>(f: T -> string, xs: seq<T>, x: T)
    ensures Join(f, xs + [x]) == Join(f, xs) + f(x)
  {
    if xs == [] {
      assert Join(f, [] + [x]) == f(x) + Join(f, []);
    } else {
      JoinAppend(f, xs[1..], x);
      assert (xs + [x])[1..] == xs[1..] + [x];
    }
  }

  /** Concatenating self-delimiting pieces loses nothing. */
  lemma {:induction false} JoinInjective<T(!new)>(f: T -> string, xs: seq<T>, ys: seq<T>)
    requires SelfDelimiting(f)
    requires Join(f, xs) == Join(f, ys)
    ensures xs == ys
  {
    if xs == [] || ys == [] {
    } else {
      assert f(xs[0]) + Join(f, xs[1..]) == f(ys[0]) + Join(f, ys[1..]);
      var k := |f(xs[0])|;
      assert Join(f, xs[1..]) == Join(f, xs)[k..] == Join(f, ys)[k..] == Join(f, ys[1..]);
      JoinInjective(f, xs[1..], ys[1..]);
      assert xs == [xs[0]] + xs[1..] && ys == [ys[0]] + ys[1..];
    }
  }
}
