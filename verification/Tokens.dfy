/** What tokenising a text means: its maximal nonempty stretches without the
    delimiter, in order (section 7.24.5.8 of ISO/IEC 9899:2011). */
module Tokens {

  /** First position holding something other than the delimiter. */
  function Skip(s: string, d: char): (a: nat)
    ensures a <= |s|
    ensures forall k :: 0 <= k < a ==> s[k] == d
    ensures a < |s| ==> s[a] != d
  {
    if s == [] || s[0] != d then 0 else 1 + Skip(s[1..], d)
  }

  /** First position holding the delimiter. */
  function RunEnd(s: string, d: char): (e: nat)
    ensures e <= |s|
    ensures forall k :: 0 <= k < e ==> s[k] != d
    ensures e < |s| ==> s[e] == d
  {
    if s == [] || s[0] == d then 0 else 1 + RunEnd(s[1..], d)
  }

  /** The text after the first token and its delimiter, if there is one. */
  function After(s: string, d: char): (rest: string)
    requires Skip(s, d) < |s|
    ensures |rest| < |s|
  {
    var e := FirstEnd(s, d);
    if e < |s| then s[e + 1..] else ""
  }

  /** Where the first token ends. */
  function FirstEnd(s: string, d: char): (e: nat)
    requires Skip(s, d) < |s|
    ensures Skip(s, d) < e <= |s|
    ensures forall k :: Skip(s, d) <= k < e ==> s[k] != d
    ensures e < |s| ==> s[e] == d
  {
    var a := Skip(s, d);
    a + RunEnd(s[a..], d)
  }

  function Toks(s: string, d: char): (ts: seq<string>)
    ensures forall k :: 0 <= k < |ts| ==> ts[k] != "" && d !in ts[k]
    decreases |s|
  {
    var a := Skip(s, d);
    if a == |s| then []
    else [s[a..FirstEnd(s, d)]] + Toks(After(s, d), d)
  }

  /** `s[a..b]` is a maximal nonempty stretch free of the delimiter. */
  ghost predicate IsRun(s: string, d: char, a: nat, b: nat) {
    && a < b <= |s|
    && (forall k :: a <= k < b ==> s[k] != d)
    && (a == 0 || s[a - 1] == d)
    && (b == |s| || s[b] == d)
  }

  datatype Span = Span(from: nat, to: nat)

  ghost predicate OnlyRuns(s: string, d: char, at: seq<Span>) {
    forall k :: 0 <= k < |at| ==> IsRun(s, d, at[k].from, at[k].to)
  }

  ghost predicate InOrder(at: seq<Span>) {
    forall k, l :: 0 <= k < l < |at| ==> at[k].to < at[l].from
  }

  ghost predicate EveryRun(s: string, d: char, at: seq<Span>) {
    forall a: nat, b: nat {:trigger IsRun(s, d, a, b)} :: IsRun(s, d, a, b) ==> Span(a, b) in at
  }

  /** `ts` are the texts of the spans `at` of `s`. */
  ghost predicate TextsOf(s: string, at: seq<Span>, ts: seq<string>) {
    && |ts| == |at|
    && forall k :: 0 <= k < |at| ==> at[k].from <= at[k].to <= |s| && ts[k] == s[at[k].from..at[k].to]
  }

  function Shift(at: seq<Span>, off: nat): (moved: seq<Span>)
    ensures |moved| == |at|
    ensures forall k :: 0 <= k < |at| ==> moved[k] == Span(at[k].from + off, at[k].to + off)
  {
    seq(|at|, k requires 0 <= k < |at| => Span(at[k].from + off, at[k].to + off))
  }

  /** The tokens are exactly the maximal runs of the text, in order. */
  lemma {:induction false} ToksAreTheRuns(s: string, d: char) returns (at: seq<Span>)
    ensures OnlyRuns(s, d, at) && InOrder(at) && EveryRun(s, d, at)
    ensures TextsOf(s, at, Toks(s, d))
    decreases |s|
  {
    if Skip(s, d) == |s| {
      at := [];
      assert forall a: nat, b: nat :: IsRun(s, d, a, b) ==> s[a] == d;
    } else {
      var later := ToksAreTheRuns(After(s, d), d);
      at := Prepend(s, d, later);
      PrependInOrder(s, d, later);
      PrependEveryRun(s, d, later);
      PrependTexts(s, d, later, Toks(After(s, d), d));
    }
  }

  /** The first run, then the runs of the rest moved to their place in `s`. */
  function Prepend(s: string, d: char, later: seq<Span>): (at: seq<Span>)
    requires Skip(s, d) < |s|
  {
    [Span(Skip(s, d), FirstEnd(s, d))] + Shift(later, |s| - |After(s, d)|)
  }

  lemma PrependAt(s: string, d: char, later: seq<Span>, k: nat)
    requires Skip(s, d) < |s| && OnlyRuns(After(s, d), d, later) && 0 < k <= |later|
    ensures var off := |s| - |After(s, d)|;
            Prepend(s, d, later)[k] == Span(later[k - 1].from + off, later[k - 1].to + off)
    ensures IsRun(s, d, Prepend(s, d, later)[k].from, Prepend(s, d, later)[k].to)
    ensures FirstEnd(s, d) < Prepend(s, d, later)[k].from
  {
    AfterIs(s, d);
    hide Skip, FirstEnd, After, IsRun;
    var off, m := |s| - |After(s, d)|, later[k - 1];
    assert IsRun(s[off..], d, m.from, m.to);
    RunNonempty(s[off..], d, m.from, m.to);
    RunMoves(s, d, off, m.from, m.to);
  }

  lemma RunNonempty(s: string, d: char, a: nat, b: nat)
    requires IsRun(s, d, a, b)
    ensures a < b <= |s|
  {
  }

  lemma PrependInOrder(s: string, d: char, later: seq<Span>)
    requires Skip(s, d) < |s| && OnlyRuns(After(s, d), d, later) && InOrder(later)
    ensures OnlyRuns(s, d, Prepend(s, d, later)) && InOrder(Prepend(s, d, later))
  {
    var at := Prepend(s, d, later);
    forall k | 0 <= k < |at|
      ensures IsRun(s, d, at[k].from, at[k].to)
    {
      if k > 0 {
        PrependAt(s, d, later, k);
      } else {
        FirstIsRun(s, d);
      }
    }
    forall k, l | 0 <= k < l < |at|
      ensures at[k].to < at[l].from
    {
      PrependAt(s, d, later, l);
      if k > 0 {
        PrependAt(s, d, later, k);
      }
    }
  }

  lemma FirstIsRun(s: string, d: char)
    requires Skip(s, d) < |s|
    ensures IsRun(s, d, Skip(s, d), FirstEnd(s, d))
  {
  }

  lemma PrependEveryRun(s: string, d: char, later: seq<Span>)
    requires Skip(s, d) < |s| && EveryRun(After(s, d), d, later)
    ensures EveryRun(s, d, Prepend(s, d, later))
  {
    AfterIs(s, d);
    hide Skip, FirstEnd, After;
    var at := Prepend(s, d, later);
    var off := |s| - |After(s, d)|;
    forall x: nat, y: nat | IsRun(s, d, x, y)
      ensures Span(x, y) in at
    {
      if x <= FirstEnd(s, d) {
        FirstRun(s, d, x, y);
        assert at[0] == Span(x, y);
      } else {
        assert s[x] != d && x >= off;
        RunMovesBack(s, d, off, x, y);
        assert Span(x - off, y - off) in later;
        var k :| 0 <= k < |later| && later[k] == Span(x - off, y - off);
        assert at[k + 1] == Span(x, y);
      }
    }
  }

  lemma PrependTexts(s: string, d: char, later: seq<Span>, ts: seq<string>)
    requires Skip(s, d) < |s| && TextsOf(After(s, d), later, ts)
    ensures TextsOf(s, Prepend(s, d, later), [s[Skip(s, d)..FirstEnd(s, d)]] + ts)
  {
    AfterIs(s, d);
    hide Skip, FirstEnd, After;
    var at := Prepend(s, d, later);
    var off := |s| - |After(s, d)|;
    forall k | 0 < k < |at|
      ensures at[k].from <= at[k].to <= |s| && ts[k - 1] == s[at[k].from..at[k].to]
    {
      var x, y := later[k - 1].from, later[k - 1].to;
      SliceMoves(s, off, x, y);
    }
  }

  lemma SliceMoves(s: string, off: nat, x: nat, y: nat)
    requires off <= |s| && x <= y <= |s| - off
    ensures s[off..][x..y] == s[x + off..y + off]
  {
    assert forall k :: 0 <= k < y - x ==> s[off..][x..y][k] == s[x + off..y + off][k];
  }

  lemma AfterIs(s: string, d: char)
    requires Skip(s, d) < |s|
    ensures var off := |s| - |After(s, d)|;
            && FirstEnd(s, d) <= off && After(s, d) == s[off..]
            && (off < |s| ==> FirstEnd(s, d) == off - 1 && s[off - 1] == d)
            && (off == |s| ==> After(s, d) == "")
  {
  }

  lemma RunMoves(s: string, d: char, off: nat, x: nat, y: nat)
    requires 0 < off <= |s| && (off == |s| || s[off - 1] == d) && IsRun(s[off..], d, x, y)
    ensures IsRun(s, d, x + off, y + off)
  {
    var rest := s[off..];
    assert forall k :: off <= k < |s| ==> s[k] == rest[k - off];
    assert x > 0 ==> s[x + off - 1] == rest[x - 1];
  }

  lemma RunMovesBack(s: string, d: char, off: nat, x: nat, y: nat)
    requires off <= x && IsRun(s, d, x, y)
    ensures IsRun(s[off..], d, x - off, y - off)
  {
    var rest := s[off..];
    assert forall k :: 0 <= k < |rest| ==> rest[k] == s[off + k];
  }

  lemma FirstRun(s: string, d: char, x: nat, y: nat)
    requires IsRun(s, d, x, y) && Skip(s, d) < |s| && x <= FirstEnd(s, d)
    ensures x == Skip(s, d) && y == FirstEnd(s, d)
  {
    var a, e := Skip(s, d), FirstEnd(s, d);
    assert s[x] != d && s[y - 1] != d && s[a] != d && s[e - 1] != d;
  }

  /** A piece without delimiters, then the delimiter, is the first token. */
  lemma ToksCons(x: string, d: char, rest: string)
    requires x != "" && d !in x
    ensures Toks(x + [d] + rest, d) == [x] + Toks(rest, d)
  {
    var s := x + [d] + rest;
    assert forall k :: 0 <= k < |x| ==> s[k] == x[k];
    assert s[0] == x[0] && s[|x|] == d;
    assert Skip(s, d) == 0;
    assert FirstEnd(s, d) == |x|;
    assert s[..|x|] == x && s[|x| + 1..] == rest;
  }

  lemma ToksSingle(x: string, d: char)
    requires x != "" && d !in x
    ensures Toks(x, d) == [x]
  {
    assert x[0] != d;
    assert FirstEnd(x, d) == |x|;
    assert x[..|x|] == x;
    assert Skip("", d) == 0;
  }
}
