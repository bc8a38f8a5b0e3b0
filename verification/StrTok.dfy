/** The C library tokenizer: a hidden save pointer shared by all callers, and a
    text that is cut in place by writing terminators over delimiters. */
module StrTok {
  import opened CText
  import opened Tokens

  /** Index of the terminator of the string starting at `p`. */
  function StrEnd(b: seq<char>, p: nat): (e: nat)
    requires p <= |b|
    ensures p <= e <= |b|
    ensures forall k :: p <= k < e ==> b[k] != NUL
    ensures e < |b| ==> b[e] == NUL
    decreases |b| - p
  {
    if p == |b| || b[p] == NUL then p else StrEnd(b, p + 1)
  }

  /** A terminated string starts at `p`. */
  predicate Terminated(b: seq<char>, p: nat) {
    p <= |b| && StrEnd(b, p) < |b|
  }

  /** The string starting at `p`. */
  function CStr(b: seq<char>, p: nat): (s: string)
    requires p <= |b|
    ensures NUL !in s
  {
    b[p..StrEnd(b, p)]
  }

  lemma {:induction false} StrEndIs(b: seq<char>, p: nat, e: nat)
    requires p <= e < |b| && b[e] == NUL && (forall k :: p <= k < e ==> b[k] != NUL)
    ensures StrEnd(b, p) == e
    decreases e - p
  {
    if p < e {
      StrEndIs(b, p + 1, e);
    }
  }

  lemma {:induction false} SkipIs(s: string, d: char, a: nat)
    requires a <= |s| && (forall k :: 0 <= k < a ==> s[k] == d) && (a < |s| ==> s[a] != d)
    ensures Skip(s, d) == a
  {
    if a > 0 {
      SkipIs(s[1..], d, a - 1);
    }
  }

  lemma {:induction false} RunEndIs(s: string, d: char, e: nat)
    requires e <= |s| && (forall k :: 0 <= k < e ==> s[k] != d) && (e < |s| ==> s[e] == d)
    ensures RunEnd(s, d) == e
  {
    if e > 0 {
      RunEndIs(s[1..], d, e - 1);
    }
  }

  /** One call at position `p` of `b`, for a text with tokens left: the first of
      them can be read at `tok` of `b'`, the others follow at `next`. */
  ghost predicate Takes(b: seq<char>, p: nat, d: char, b': seq<char>, tok: nat, next: nat) {
    && Terminated(b, p) && Terminated(b', tok) && Terminated(b', next)
    && Toks(CStr(b, p), d) == [CStr(b', tok)] + Toks(CStr(b', next), d)
  }

  /** Length of the stretch of delimiters that starts at `p`. */
  method StrSpn(buf: array<char>, p: nat, d: char) returns (n: nat)
    requires d != NUL && Terminated(buf[..], p)
    ensures n == Skip(CStr(buf[..], p), d)
  {
    ghost var s := CStr(buf[..], p);
    n := 0;
    while buf[p + n] == d
      invariant n <= |s| && forall k :: 0 <= k < n ==> s[k] == d
      decreases |s| - n
    {
      n := n + 1;
    }
    SkipIs(s, d, n);
  }

  /** Length of the stretch free of delimiters that starts at `p`. */
  method StrCspn(buf: array<char>, p: nat, d: char) returns (n: nat)
    requires d != NUL && Terminated(buf[..], p)
    ensures n == RunEnd(CStr(buf[..], p), d)
  {
    ghost var s := CStr(buf[..], p);
    n := 0;
    while buf[p + n] != d && buf[p + n] != NUL
      invariant n <= |s| && forall k :: 0 <= k < n ==> s[k] != d
      decreases |s| - n
    {
      n := n + 1;
    }
    RunEndIs(s, d, n);
  }

  class Tokenizer {
    var buf: array?<char>
    var save: nat

    constructor ()
      ensures buf == null
    {
      buf, save := null, 0;
    }

    /** A call with a text starts a new scan whatever the save pointer was; a
        call without one continues the scan the save pointer stands in. */
    method Next(text: array?<char>, d: char) returns (tok: Option<nat>)
      requires d != NUL
      requires text != null ==> Terminated(text[..], 0)
      requires text == null ==> buf != null && Terminated(buf[..], save)
      modifies this, if text != null then text else buf
      ensures buf == if text != null then text else old(buf)
      ensures Terminated(buf[..], save)
      ensures tok.None? ==>
        Toks(old(if text != null then CStr(text[..], 0) else CStr(buf[..], save)), d) == []
      ensures tok.Some? ==>
        Takes(old(if text != null then text[..] else buf[..]), if text != null then 0 else old(save), d, buf[..], tok.value, save)
    {
      hide Toks, Skip, RunEnd, FirstEnd, StrEnd;
      if text != null {
        buf, save := text, 0;
      }
      ghost var b, p := buf[..], save;
      var n := StrSpn(buf, save, d);
      var a := save + n;
      if buf[a] == NUL {
        NoToken(b, p, d);
        save := a;
        return None;
      }
      n := StrCspn(buf, a, d);
      var e := a + n;
      TokenEnds(b, p, d, a, e);
      if buf[e] == NUL {
        save := e;
      } else {
        buf[e] := NUL;
        save := e + 1;
      }
      assert buf[..] == b[e := NUL];
      CutHere(b, p, d, a, e, save);
      tok := Some(a);
    }
  }

  lemma NoToken(b: seq<char>, p: nat, d: char)
    requires d != NUL && Terminated(b, p) && b[p + Skip(CStr(b, p), d)] == NUL
    ensures Toks(CStr(b, p), d) == []
    ensures var a := p + Skip(CStr(b, p), d); Terminated(b, a) && CStr(b, a) == ""
  {
    var a := p + Skip(CStr(b, p), d);
    StrEndIs(b, p, a);
    StrEndIs(b, a, a);
  }

  lemma TokenEnds(b: seq<char>, p: nat, d: char, a: nat, e: nat)
    requires d != NUL && Terminated(b, p) && a == p + Skip(CStr(b, p), d) && b[a] != NUL
    requires e == a + RunEnd(CStr(b, a), d)
    ensures Skip(CStr(b, p), d) < |CStr(b, p)| && Terminated(b, a)
    ensures e == p + FirstEnd(CStr(b, p), d) && e < |b| && (b[e] == NUL || b[e] == d)
  {
    var s := CStr(b, p);
    StrEndIs(b, a, StrEnd(b, p));
    assert CStr(b, a) == s[a - p..];
  }

  lemma CStrIs(b: seq<char>, p: nat, e: nat)
    requires p <= e < |b| && b[e] == NUL && (forall k :: p <= k < e ==> b[k] != NUL)
    ensures Terminated(b, p) && CStr(b, p) == b[p..e]
  {
    StrEndIs(b, p, e);
  }

  lemma FirstToken(b: seq<char>, p: nat, d: char, a: nat, e: nat)
    requires d != NUL && Terminated(b, p) && Skip(CStr(b, p), d) < |CStr(b, p)|
    requires a == p + Skip(CStr(b, p), d) && e == p + FirstEnd(CStr(b, p), d)
    ensures a < e < |b| && Terminated(b[e := NUL], a)
    ensures CStr(b[e := NUL], a) == CStr(b, p)[a - p..e - p]
  {
    hide Skip, FirstEnd, StrEnd;
    var s, b' := CStr(b, p), b[e := NUL];
    assert forall k :: a <= k < e ==> b'[k] == b[k];
    CStrIs(b', a, e);
    assert b'[a..e] == b[a..e];
    SliceOfSlice(b, p, StrEnd(b, p), a - p, e - p);
  }

  lemma SliceOfSlice(b: seq<char>, p: nat, q: nat, x: nat, y: nat)
    requires p <= q <= |b| && x <= y <= q - p
    ensures b[p..q][x..y] == b[p + x..p + y]
  {
    assert forall k :: 0 <= k < y - x ==> b[p..q][x..y][k] == b[p + x..p + y][k];
  }

  lemma RestOfText(b: seq<char>, p: nat, d: char, e: nat, next: nat)
    requires d != NUL && Terminated(b, p) && Skip(CStr(b, p), d) < |CStr(b, p)|
    requires e == p + FirstEnd(CStr(b, p), d) && e < |b| && next == if b[e] == NUL then e else e + 1
    ensures Terminated(b[e := NUL], next) && CStr(b[e := NUL], next) == After(CStr(b, p), d)
  {
    var b', end := b[e := NUL], StrEnd(b, p);
    if b[e] == NUL {
      CStrIs(b', e, e);
      CStrIs(b, p, e);
    } else {
      CStrIs(b', next, end);
      assert b'[next..end] == b[next..end] == CStr(b, p)[next - p..];
    }
  }

  lemma CutHere(b: seq<char>, p: nat, d: char, a: nat, e: nat, next: nat)
    requires d != NUL && Terminated(b, p) && Skip(CStr(b, p), d) < |CStr(b, p)|
    requires a == p + Skip(CStr(b, p), d) && e == p + FirstEnd(CStr(b, p), d)
    requires e < |b| && next == if b[e] == NUL then e else e + 1
    ensures Takes(b, p, d, b[e := NUL], a, next)
  {
    FirstToken(b, p, d, a, e);
    RestOfText(b, p, d, e, next);
  }
}
