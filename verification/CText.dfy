/** Text as the C library sees it: decimal printing (`%d`, `%u`, `%ld` of a
    non-negative number), `atoi`, and the facts that tie the two together. */
module CText {

  datatype Option<+T> = None | Some(value: T)

  const NUL: char := '\0'

  predicate IsDigit(c: char) {
    '0' <= c <= '9'
  }

  predicate IsSpace(c: char) {
    c == ' ' || '\t' <= c <= '\r'
  }

  predicate AllDigits(s: string) {
    forall k :: 0 <= k < |s| ==> IsDigit(s[k])
  }

  /** A decimal numeral as `%u` writes it: digits only, no superfluous zero. */
  predicate IsNumeral(s: string) {
    |s| > 0 && AllDigits(s) && (|s| == 1 || s[0] != '0')
  }

  function DigitChar(d: nat): (c: char)
    requires d < 10
    ensures IsDigit(c) && DigitVal(c) == d
  {
    ('0' as int + d) as char
  }

  function DigitVal(c: char): (d: nat)
    requires IsDigit(c)
    ensures d < 10
  {
    c as int - '0' as int
  }

  /** What `%u` prints for `n`. */
  function Dec(n: nat): (s: string)
    ensures IsNumeral(s)
  {
    if n < 10 then [DigitChar(n)] else Dec(n / 10) + [DigitChar(n % 10)]
  }

  function Value(s: string): nat
    requires AllDigits(s)
  {
    if s == [] then 0 else Value(s[..|s| - 1]) * 10 + DigitVal(s[|s| - 1])
  }

  function DigitRun(s: string): (n: nat)
    ensures n <= |s| && AllDigits(s[..n])
    ensures n < |s| ==> !IsDigit(s[n])
  {
    if s == [] || !IsDigit(s[0]) then 0
    else
      var m := DigitRun(s[1..]);
      assert s[..1 + m] == [s[0]] + s[1..][..m];
      1 + m
  }

  function Number(s: string): nat {
    Value(s[..DigitRun(s)])
  }

  function SkipSpace(s: string): string {
    if s != [] && IsSpace(s[0]) then SkipSpace(s[1..]) else s
  }

  /** `atoi`: optional white space, optional sign, then digits up to the first
      other character. Nothing to read gives 0. */
  function Atoi(s: string): int {
    var t := SkipSpace(s);
    if t != [] && t[0] == '-' then 0 - Number(t[1..])
    else if t != [] && t[0] == '+' then Number(t[1..])
    else Number(t)
  }

  /** White space is the blank, tab, line feed, vertical tab, form feed and carriage
      return (`isspace` in the C locale). */
  predicate Blanks(w: string) {
    forall k :: 0 <= k < |w| ==> w[k] as int in {9, 10, 11, 12, 13, 32}
  }

  /** Skipping goes over blanks and nothing else. */
  lemma {:induction false} SkipsBlanks(w: string, rest: string)
    requires Blanks(w) && (rest == "" || !Blanks(rest[..1]))
    ensures SkipSpace(w + rest) == rest
  {
    if w == "" {
      assert w + rest == rest;
    } else {
      assert (w + rest)[1..] == w[1..] + rest;
      SkipsBlanks(w[1..], rest);
    }
  }

  /** Blanks in front of a number do not matter. */
  lemma AtoiAfterBlanks(w: string, n: nat, rest: string)
    requires Blanks(w) && (rest == "" || !IsDigit(rest[0]))
    ensures Atoi(w + (Dec(n) + rest)) == n
  {
    var t := Dec(n) + rest;
    assert IsDigit(t[0]);
    SkipsBlanks(w, t);
    SkipsBlanks("", t);
    assert "" + t == t;
    AtoiOfDec(n, rest);
  }

  /** Reading back a printed number, whatever follows it, gives the number. */
  lemma {:induction false} ValueOfDec(n: nat)
    ensures Value(Dec(n)) == n
  {
    if n >= 10 {
      ValueOfDec(n / 10);
      assert Dec(n)[..|Dec(n)| - 1] == Dec(n / 10);
    } else {
      assert Dec(n)[..0] == "";
    }
  }

  /** Every numeral is the printed form of the number it denotes. */
  lemma {:induction false} DecOfValue(s: string)
    requires IsNumeral(s)
    ensures Dec(Value(s)) == s
  {
    var front, d := s[..|s| - 1], DigitVal(s[|s| - 1]);
    assert s == front + [DigitChar(d)];
    if |s| == 1 {
      assert Value(front) == 0;
    } else {
      DecOfValue(front);
      ValuePositive(front);
      assert Value(s) / 10 == Value(front) && Value(s) % 10 == d;
    }
  }

  lemma {:induction false} ValuePositive(s: string)
    requires IsNumeral(s) && s[0] != '0'
    ensures Value(s) > 0
  {
    if |s| > 1 {
      ValuePositive(s[..|s| - 1]);
    } else {
      assert s[..0] == "";
    }
  }

  lemma DigitRunOfNumeral(s: string, rest: string)
    requires AllDigits(s) && (rest == "" || !IsDigit(rest[0]))
    ensures DigitRun(s + rest) == |s|
  {
    var t := s + rest;
    var n := DigitRun(t);
    assert forall k :: 0 <= k < |s| ==> t[k] == s[k];
    assert forall k :: 0 <= k < n ==> t[..n][k] == t[k];
    assert rest != "" ==> t[|s|] == rest[0];
  }

  lemma AtoiOfDec(n: nat, rest: string)
    requires rest == "" || !IsDigit(rest[0])
    ensures Atoi(Dec(n) + rest) == n
  {
    var t := Dec(n) + rest;
    assert IsDigit(t[0]);
    assert SkipSpace(t) == t;
    DigitRunOfNumeral(Dec(n), rest);
    assert t[..|Dec(n)|] == Dec(n);
    ValueOfDec(n);
  }

  lemma AtoiOfNumeral(s: string)
    requires IsNumeral(s)
    ensures Atoi(s) == Value(s)
  {
    DecOfValue(s);
    ValueOfDec(Value(s));
    AtoiOfDec(Value(s), "");
    assert s + "" == s;
  }

  /** A printed number followed by a non-digit can be split off in one way only. */
  lemma DecSplits(a: nat, x: string, b: nat, y: string)
    requires Dec(a) + x == Dec(b) + y
    requires (x == "" || !IsDigit(x[0])) && (y == "" || !IsDigit(y[0]))
    ensures a == b && x == y
  {
    DigitRunOfNumeral(Dec(a), x);
    DigitRunOfNumeral(Dec(b), y);
    assert Dec(a) == (Dec(a) + x)[..|Dec(a)|] == (Dec(b) + y)[..|Dec(b)|] == Dec(b);
    assert x == (Dec(a) + x)[|Dec(a)|..] && y == (Dec(b) + y)[|Dec(b)|..];
    ValueOfDec(a);
    ValueOfDec(b);
  }

  lemma {:induction false} DecLength(n: nat, k: nat)
    requires k > 0
    ensures |Dec(n)| <= k <==> n < Pow10(k)
  {
    if n < 10 {
      Pow10AtLeast(k);
    } else if k == 1 {
    } else {
      DecLength(n / 10, k - 1);
    }
  }

  function Pow10(k: nat): nat {
    if k == 0 then 1 else 10 * Pow10(k - 1)
  }

  lemma {:induction false} Pow10AtLeast(k: nat)
    requires k > 0
    ensures Pow10(k) >= 10
  {
    if k > 1 {
      Pow10AtLeast(k - 1);
    }
  }

  /** `key` stands in `s` at position k. */
  predicate OccursAt(s: string, key: string, k: nat) {
    k + |key| <= |s| && s[k..k + |key|] == key
  }
}
