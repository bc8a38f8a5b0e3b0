/** The vendor message scanner: the first two matches of uppercase+ "=" digit+
    decide the upstream (SRU) and downstream (SRD) rates. Matching is leftmost
    and longest (section 9.1 of the POSIX.1-2017 Base Definitions). */
module VendorScan {
  import opened CText

  /** A match: letters in [from, eq), "=" at eq, digits in (eq, end). */
  datatype Match = Match(from: nat, eq: nat, end: nat)

  datatype Rates = Rates(sru: int, srd: int)

  const MAX_MATCHES: nat := 2

  predicate IsUpper(c: char) {
    'A' <= c <= 'Z'
  }

  /** `m` is one way the expression matches inside `t`. */
  predicate IsMatch(t: string, m: Match) {
    && m.from < m.eq && m.eq + 1 < m.end <= |t|
    && (forall k :: m.from <= k < m.eq ==> IsUpper(t[k]))
    && t[m.eq] == '='
    && (forall k :: m.eq < k < m.end ==> IsDigit(t[k]))
  }

  /** The match a regular expression search from `cur` reports. */
  ghost predicate LeftmostLongest(t: string, cur: nat, m: Match) {
    && cur <= m.from && IsMatch(t, m)
    && (forall o: Match :: IsMatch(t, o) && cur <= o.from ==> m.from <= o.from && (o.from == m.from ==> o.end <= m.end))
  }

  /** The number of uppercase letters from `k` on. */
  function Letters(t: string, k: nat): (n: nat)
    requires k <= |t|
    ensures k + n <= |t| && (forall j :: k <= j < k + n ==> IsUpper(t[j]))
    ensures k + n < |t| ==> !IsUpper(t[k + n])
    decreases |t| - k
  {
    if k == |t| || !IsUpper(t[k]) then 0 else 1 + Letters(t, k + 1)
  }

  /** The number of digits from `k` on. */
  function Digits(t: string, k: nat): (n: nat)
    requires k <= |t|
    ensures k + n <= |t| && (forall j :: k <= j < k + n ==> IsDigit(t[j]))
    ensures k + n < |t| ==> !IsDigit(t[k + n])
    decreases |t| - k
  {
    if k == |t| || !IsDigit(t[k]) then 0 else 1 + Digits(t, k + 1)
  }

  /** The longest match starting exactly at `k`. */
  function MatchAt(t: string, k: nat): Option<Match>
    requires k <= |t|
  {
    var eq := k + Letters(t, k);
    if eq == k || eq == |t| || t[eq] != '=' || Digits(t, eq + 1) == 0 then None
    else Some(Match(k, eq, eq + 1 + Digits(t, eq + 1)))
  }

  /** The search from `cur`. */
  function FirstMatch(t: string, cur: nat): (r: Option<Match>)
    ensures r.Some? ==> cur <= r.value.from < r.value.eq < r.value.end <= |t|
    decreases |t| - cur
  {
    if cur >= |t| then None
    else if MatchAt(t, cur).Some? then MatchAt(t, cur)
    else FirstMatch(t, cur + 1)
  }

  lemma MatchAtIsLongest(t: string, k: nat)
    requires k <= |t|
    ensures MatchAt(t, k).Some? ==> IsMatch(t, MatchAt(t, k).value)
    ensures forall o: Match :: IsMatch(t, o) && o.from == k ==>
              MatchAt(t, k).Some? && o.eq == MatchAt(t, k).value.eq && o.end <= MatchAt(t, k).value.end
  {
    forall o: Match | IsMatch(t, o) && o.from == k
      ensures MatchAt(t, k).Some? && o.eq == MatchAt(t, k).value.eq && o.end <= MatchAt(t, k).value.end
    {
      var n := Letters(t, k);
      assert k + n < |t| ==> !IsUpper(t[k + n]);
      assert !IsUpper(t[o.eq]) && o.eq == k + n;
      assert IsDigit(t[o.eq + 1]);
    }
  }

  /** The search reports the leftmost longest match, or there is none. */
  lemma {:induction false} FirstMatchIsLeftmostLongest(t: string, cur: nat)
    ensures FirstMatch(t, cur).Some? ==> LeftmostLongest(t, cur, FirstMatch(t, cur).value)
    ensures FirstMatch(t, cur).None? ==> forall o: Match :: IsMatch(t, o) ==> o.from < cur
    decreases |t| - cur
  {
    if cur < |t| {
      MatchAtIsLongest(t, cur);
      if MatchAt(t, cur).None? {
        FirstMatchIsLeftmostLongest(t, cur + 1);
      }
    }
  }

  lemma LeftmostLongestUnique(t: string, cur: nat, m: Match)
    requires LeftmostLongest(t, cur, m)
    ensures FirstMatch(t, cur) == Some(m)
  {
    FirstMatchIsLeftmostLongest(t, cur);
    var f := FirstMatch(t, cur).value;
    assert f.from == m.from && f.end == m.end;
    MatchAtIsLongest(t, m.from);
  }

  // ------------------------------------------------- keys, numbers, the result

  predicate KeyEndsIn(t: string, m: Match, key: string) {
    && m.from <= m.eq <= |t| && m.from + |key| <= m.eq
    && t[m.eq - |key|..m.eq] == key
  }

  function NumberOf(t: string, m: Match): nat
    requires IsMatch(t, m)
  {
    var d := t[m.eq + 1..m.end];
    assert forall k :: 0 <= k < |d| ==> d[k] == t[m.eq + 1 + k];
    Value(d)
  }

  /** `ms` are the first matches of `t`, at most two, each searched from where
      the one before ended. */
  ghost predicate FirstMatches(t: string, ms: seq<Match>) {
    && |ms| <= MAX_MATCHES
    && (|ms| > 0 ==> LeftmostLongest(t, 0, ms[0]))
    && (|ms| > 1 ==> LeftmostLongest(t, ms[0].end, ms[1]))
    && (|ms| < MAX_MATCHES ==>
          var cur := if ms == [] then 0 else ms[|ms| - 1].end;
          forall o: Match :: IsMatch(t, o) ==> o.from < cur)
  }

  /** The number of the last match whose key ends in `key`. */
  ghost function LastNumber(t: string, ms: seq<Match>, key: string, otherwise: int): int
    requires forall k :: 0 <= k < |ms| ==> IsMatch(t, ms[k])
  {
    if ms == [] then otherwise
    else
      var m := ms[|ms| - 1];
      if KeyEndsIn(t, m, key) then NumberOf(t, m) else LastNumber(t, ms[..|ms| - 1], key, otherwise)
  }

  /** The scanner as a function: `left` searches from `cur`. */
  function Scan(t: string, cur: nat, left: nat, r: Rates): Rates
    decreases left
  {
    var f := FirstMatch(t, cur);
    if left == 0 || f.None? then r
    else
      FirstMatchIsLeftmostLongest(t, cur);
      Scan(t, f.value.end, left - 1, Update(t, f.value, r))
  }

  function Update(t: string, m: Match, r: Rates): Rates
    requires IsMatch(t, m)
  {
    if KeyEndsIn(t, m, "SRU") then r.(sru := NumberOf(t, m))
    else if KeyEndsIn(t, m, "SRD") then r.(srd := NumberOf(t, m))
    else r
  }

  function VendorRates(t: string): Rates {
    Scan(t, 0, MAX_MATCHES, Rates(0, 0))
  }

  lemma ScanNone(t: string)
    requires FirstMatch(t, 0).None?
    ensures VendorRates(t) == Rates(0, 0)
  {
  }

  lemma ScanOne(t: string, m: Match)
    requires FirstMatch(t, 0) == Some(m) && IsMatch(t, m) && FirstMatch(t, m.end).None?
    ensures VendorRates(t) == Update(t, m, Rates(0, 0))
  {
    hide FirstMatch, Update, IsMatch;
    assert Scan(t, m.end, 1, Update(t, m, Rates(0, 0))) == Update(t, m, Rates(0, 0));
  }

  lemma ScanTwo(t: string, m: Match, o: Match)
    requires FirstMatch(t, 0) == Some(m) && IsMatch(t, m) && FirstMatch(t, m.end) == Some(o) && IsMatch(t, o)
    ensures VendorRates(t) == Update(t, o, Update(t, m, Rates(0, 0)))
  {
    hide FirstMatch, Update, IsMatch;
    var one := Update(t, m, Rates(0, 0));
    assert Scan(t, o.end, 0, Update(t, o, one)) == Update(t, o, one);
    assert Scan(t, m.end, 1, one) == Update(t, o, one);
  }

  /** SRU is the number of the last of the first two matches whose key ends in
      SRU, or 0; likewise SRD. */
  lemma RatesAreLastNumbers(t: string, ms: seq<Match>)
    requires FirstMatches(t, ms)
    ensures forall k :: 0 <= k < |ms| ==> IsMatch(t, ms[k])
    ensures VendorRates(t) == Rates(LastNumber(t, ms, "SRU", 0), LastNumber(t, ms, "SRD", 0))
  {
    hide FirstMatch, LastNumber, Update, IsMatch;
    FirstMatchIsLeftmostLongest(t, 0);
    if |ms| == 0 {
      ScanNone(t);
      NoMatch(t);
      return;
    }
    LeftmostLongestUnique(t, 0, ms[0]);
    FirstMatchIsLeftmostLongest(t, ms[0].end);
    OneMatch(t, ms[..1]);
    if |ms| == 1 {
      assert ms[..1] == ms;
      ScanOne(t, ms[0]);
    } else {
      LeftmostLongestUnique(t, ms[0].end, ms[1]);
      ScanTwo(t, ms[0], ms[1]);
      TwoMatches(t, ms);
    }
  }

  lemma NoMatch(t: string)
    ensures LastNumber(t, [], "SRU", 0) == LastNumber(t, [], "SRD", 0) == 0
  {
  }

  lemma TwoMatches(t: string, ms: seq<Match>)
    requires |ms| == 2 && IsMatch(t, ms[0]) && IsMatch(t, ms[1])
    ensures forall k :: 0 <= k < |ms| ==> IsMatch(t, ms[k])
    ensures Update(t, ms[1], Update(t, ms[0], Rates(0, 0)))
         == Rates(LastNumber(t, ms, "SRU", 0), LastNumber(t, ms, "SRD", 0))
  {
    OneMatch(t, ms[..1]);
    KeysExclude(t, ms[1]);
    hide NumberOf, IsMatch, KeyEndsIn;
    assert LastNumber(t, ms, "SRU", 0) ==
      if KeyEndsIn(t, ms[1], "SRU") then NumberOf(t, ms[1]) else LastNumber(t, ms[..1], "SRU", 0);
    assert LastNumber(t, ms, "SRD", 0) ==
      if KeyEndsIn(t, ms[1], "SRD") then NumberOf(t, ms[1]) else LastNumber(t, ms[..1], "SRD", 0);
  }

  lemma OneMatch(t: string, ms: seq<Match>)
    requires |ms| == 1 && IsMatch(t, ms[0])
    ensures Update(t, ms[0], Rates(0, 0)) == Rates(LastNumber(t, ms, "SRU", 0), LastNumber(t, ms, "SRD", 0))
  {
    KeysExclude(t, ms[0]);
    assert ms[..0] == [];
  }

  lemma KeysExclude(t: string, m: Match)
    ensures !(KeyEndsIn(t, m, "SRU") && KeyEndsIn(t, m, "SRD"))
  {
    if KeyEndsIn(t, m, "SRU") {
      assert t[m.eq - 3..m.eq][2] == 'U';
    }
  }

  /** Such a list of matches always exists. */
  lemma FirstMatchesExist(t: string) returns (ms: seq<Match>)
    ensures FirstMatches(t, ms)
  {
    FirstMatchIsLeftmostLongest(t, 0);
    if FirstMatch(t, 0).None? {
      ms := [];
    } else {
      var m := FirstMatch(t, 0).value;
      FirstMatchIsLeftmostLongest(t, m.end);
      ms := if FirstMatch(t, m.end).None? then [m] else [m, FirstMatch(t, m.end).value];
    }
  }

  // ---------------------------------------------------------------- the code

  /** `regexec` on the text from the cursor on. */
  method Search(t: string, cursor: nat) returns (r: Option<Match>)
    ensures r == FirstMatch(t, cursor)
  {
    var k := cursor;
    while k < |t|
      invariant FirstMatch(t, cursor) == FirstMatch(t, k)
    {
      r := MatchAt(t, k);
      if r.Some? {
        return;
      }
      k := k + 1;
    }
    return None;
  }

  /** `strstr`: the first place where `key` occurs in `s`. */
  method StrStr(s: string, key: string) returns (at: Option<nat>)
    ensures at.Some? ==> OccursAt(s, key, at.value) && forall k: nat :: k < at.value ==> !OccursAt(s, key, k)
    ensures at.None? ==> forall k: nat :: !OccursAt(s, key, k)
  {
    var i := 0;
    while i + |key| <= |s|
      invariant forall k: nat :: k < i ==> !OccursAt(s, key, k)
    {
      if s[i..i + |key|] == key {
        return Some(i);
      }
      i := i + 1;
    }
    return None;
  }

  /** Inside a match "KEY=" can only stand at the end of the letters. */
  lemma KeyInMatch(t: string, m: Match, key: string, at: nat)
    requires IsMatch(t, m) && |key| == 3 && '=' !in key
    ensures OccursAt(t[m.from..m.end], key + "=", at) <==> KeyEndsIn(t, m, key) && at == m.eq - 3 - m.from
  {
    var s, pat := t[m.from..m.end], key + "=";
    assert forall k :: 0 <= k < |s| ==> s[k] == t[m.from + k];
    if OccursAt(s, pat, at) {
      assert s[at + 3] == s[at..at + 4][3] == pat[3] == '=';
      assert m.eq == m.from + at + 3;
      assert forall k :: 0 <= k < 3 ==> t[m.eq - 3..m.eq][k] == s[at..at + 4][k] == key[k];
    }
    if KeyEndsIn(t, m, key) && at == m.eq - 3 - m.from {
      var u, v := s[at..at + 4], t[m.eq - 3..m.eq];
      assert forall k :: 0 <= k < 3 ==> v[k] == u[k];
      assert u == pat;
    }
  }

  /** The search for "KEY=" in the matched text, and the number after it. */
  method KeyedNumber(t: string, m: Match, key: string) returns (n: Option<int>)
    requires IsMatch(t, m) && |key| == 3 && '=' !in key
    ensures n == if KeyEndsIn(t, m, key) then Some(NumberOf(t, m)) else None
  {
    var s := t[m.from..m.end];
    var at := StrStr(s, key + "=");
    if at.None? {
      if KeyEndsIn(t, m, key) {
        KeyInMatch(t, m, key, m.eq - 3 - m.from);
      }
      return None;
    }
    KeyInMatch(t, m, key, at.value);
    var digits := s[at.value + 4..];
    assert digits == t[m.eq + 1..m.end];
    DigitsAtoi(digits);
    return Some(Atoi(digits));
  }

  lemma DigitsAtoi(s: string)
    requires s != "" && AllDigits(s)
    ensures Atoi(s) == Value(s)
  {
    assert IsDigit(s[0]);
    DigitRunOfNumeral(s, "");
    assert s + "" == s && s[..|s|] == s;
  }

  /** The scanner: two searches with a moving cursor; the caller's rates are
      overwritten only by matches that carry them. */
  method DmlSetVendorParams(t: string, sru0: int, srd0: int) returns (sru: int, srd: int)
    ensures Rates(sru, srd) == Scan(t, 0, MAX_MATCHES, Rates(sru0, srd0))
  {
    sru, srd := sru0, srd0;
    var cursor := 0;
    var m := 0;
    while m < MAX_MATCHES
      invariant m <= MAX_MATCHES
      invariant Scan(t, 0, MAX_MATCHES, Rates(sru0, srd0)) == Scan(t, cursor, MAX_MATCHES - m, Rates(sru, srd))
    {
      var f := Search(t, cursor);
      if f.None? {
        return;
      }
      FirstMatchIsLeftmostLongest(t, cursor);
      var n := KeyedNumber(t, f.value, "SRU");
      if n.Some? {
        sru := n.value;
      } else {
        n := KeyedNumber(t, f.value, "SRD");
        if n.Some? {
          srd := n.value;
        }
      }
      cursor := f.value.end;
      m := m + 1;
    }
  }

  // --------------------------------------------------------------- round trip

  function Keyed(key: string, n: nat): string {
    key + "=" + Dec(n) + "#"
  }

  function RateText(n: nat, m: nat): string {
    Keyed("SRU", n) + Keyed("SRD", m)
  }

  /** A keyed number that ends in '#' is found where it stands. */
  lemma MatchOfText(t: string, k: nat, key: string, n: nat)
    requires |key| == 3 && forall j :: 0 <= j < 3 ==> IsUpper(key[j])
    requires OccursAt(t, Keyed(key, n), k)
    ensures |Keyed(key, n)| == |Dec(n)| + 5
    ensures FirstMatch(t, k) == Some(Match(k, k + 3, k + 4 + |Dec(n)|))
    ensures IsMatch(t, FirstMatch(t, k).value) && NumberOf(t, FirstMatch(t, k).value) == n
    ensures KeyEndsIn(t, FirstMatch(t, k).value, key)
  {
    hide Dec, FirstMatch;
    var d, m := Dec(n), Match(k, k + 3, k + 4 + |Dec(n)|);
    TextParts(t, k, key, d);
    assert IsMatch(t, m);
    forall o: Match | IsMatch(t, o) && k <= o.from
      ensures m.from <= o.from && (o.from == m.from ==> o.end <= m.end)
    {
      if o.from == k {
        assert t[k + 3] == '=' && !IsUpper(t[k + 3]);
        assert o.eq == k + 3;
      }
    }
    LeftmostLongestUnique(t, k, m);
    ValueOfDec(n);
  }

  lemma TextParts(t: string, k: nat, key: string, d: string)
    requires |key| == 3 && OccursAt(t, key + "=" + d + "#", k)
    ensures t[k..k + 3] == key && t[k + 3] == '=' && t[k + 4..k + 4 + |d|] == d && t[k + 4 + |d|] == '#'
    ensures t[k] == key[0] && t[k + 1] == key[1] && t[k + 2] == key[2]
    ensures forall j :: k + 4 <= j < k + 4 + |d| ==> t[j] == d[j - k - 4]
  {
    var part := key + "=" + d + "#";
    var u := t[k..k + |part|];
    assert forall j :: 0 <= j < |part| ==> t[k + j] == u[j] == part[j];
    assert u[..3] == key && u[4..4 + |d|] == d;
    forall j | k + 4 <= j < k + 4 + |d|
      ensures t[j] == d[j - k - 4]
    {
      assert t[k + (j - k)] == part[j - k];
    }
  }

  /** "SRU=n#SRD=m#" yields (n, m). */
  lemma RatesOfText(n: nat, m: nat)
    ensures VendorRates(RateText(n, m)) == Rates(n, m)
  {
    var a, b := Keyed("SRU", n), Keyed("SRD", m);
    KeyedParts(a, b);
    LastChar("SRU", n);
    hide RateText, Keyed, FirstMatch, NumberOf, IsMatch, KeyEndsIn, OccursAt;
    hide VendorRates, Scan, Update, Dec;
    var t := a + b;
    var f := FoundAt(t, 0, "SRU", n);
    var g := FoundAt(t, |a|, "SRD", m);
    NoMatchAtHash(t, |a| - 1);
    assert f.end == |a| - 1;
    TwoNumbers(t, f, g);
    WholeText(n, m);
  }

  lemma FoundAt(t: string, k: nat, key: string, n: nat) returns (f: Match)
    requires (key == "SRU" || key == "SRD") && OccursAt(t, Keyed(key, n), k)
    ensures FirstMatch(t, k) == Some(f) && IsMatch(t, f) && NumberOf(t, f) == n && KeyEndsIn(t, f, key)
    ensures f.end == k + |Keyed(key, n)| - 1
  {
    assert forall j :: 0 <= j < 3 ==> IsUpper(key[j]);
    hide IsUpper, FirstMatch, NumberOf, IsMatch, KeyEndsIn, OccursAt, Keyed;
    MatchOfText(t, k, key, n);
    f := FirstMatch(t, k).value;
  }

  lemma TwoNumbers(t: string, f: Match, g: Match)
    requires FirstMatch(t, 0) == Some(f) && IsMatch(t, f) && FirstMatch(t, f.end) == Some(g) && IsMatch(t, g)
    requires KeyEndsIn(t, f, "SRU") && KeyEndsIn(t, g, "SRD")
    ensures VendorRates(t) == Rates(NumberOf(t, f), NumberOf(t, g))
  {
    hide FirstMatch, NumberOf, IsMatch, KeyEndsIn;
    ScanTwo(t, f, g);
    TwoUpdates(t, f, g);
  }

  lemma WholeText(n: nat, m: nat)
    ensures RateText(n, m) == Keyed("SRU", n) + Keyed("SRD", m)
  {
  }

  lemma KeyedParts(a: string, b: string)
    requires a != ""
    ensures OccursAt(a + b, a, 0) && OccursAt(a + b, b, |a|) && (a + b)[|a| - 1] == a[|a| - 1]
  {
    assert (a + b)[0..|a|] == a && (a + b)[|a|..|a| + |b|] == b;
  }

  lemma LastChar(key: string, n: nat)
    ensures |Keyed(key, n)| > 0 && Keyed(key, n)[|Keyed(key, n)| - 1] == '#'
  {
  }

  lemma TwoUpdates(t: string, f: Match, g: Match)
    requires IsMatch(t, f) && IsMatch(t, g) && KeyEndsIn(t, f, "SRU") && KeyEndsIn(t, g, "SRD")
    ensures Update(t, g, Update(t, f, Rates(0, 0))) == Rates(NumberOf(t, f), NumberOf(t, g))
  {
    KeysExclude(t, g);
  }

  lemma NoMatchAtHash(t: string, e: nat)
    requires e < |t| && t[e] == '#'
    ensures FirstMatch(t, e) == FirstMatch(t, e + 1)
  {
    assert MatchAt(t, e).None?;
  }
}
