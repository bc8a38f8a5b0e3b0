/** The substring search over process command lines, which hold terminators: the
    scan does not go back after a mismatch, and skips the mismatching character. */
module ProcSearch {
  import opened CText

  ghost predicate Contains(b: string, p: string) {
    exists q: nat :: OccursAt(b, p, q)
  }

  /** How far the pattern agrees with the text from i on, the first j characters
      being known to. */
  function Agreeing(b: string, p: string, i: nat, j: nat): (k: nat)
    requires i + j <= |b| && j <= |p| && (forall x :: 0 <= x < j ==> b[i + x] == p[x])
    ensures j <= k <= |p| && i + k <= |b|
    ensures forall x :: 0 <= x < k ==> b[i + x] == p[x]
    ensures k < |p| && i + k < |b| ==> b[i + k] != p[k]
    decreases |p| - j
  {
    if j < |p| && i + j < |b| && b[i + j] == p[j] then Agreeing(b, p, i, j + 1) else j
  }

  /** The scan from i on: an attempt at each character that equals the first of
      the pattern; after a mismatch it goes on behind the mismatch. */
  function Scan(b: string, p: string, i: nat): bool
    decreases |b| - i
  {
    if p == "" || i >= |b| then false
    else if b[i] != p[0] then Scan(b, p, i + 1)
    else
      var k := Agreeing(b, p, i, 0);
      k == |p| || Scan(b, p, i + k + 1)
  }

  lemma OccursIff(b: string, p: string, q: nat)
    ensures OccursAt(b, p, q) <==> q + |p| <= |b| && forall x :: 0 <= x < |p| ==> b[q + x] == p[x]
  {
    if OccursAt(b, p, q) {
      forall x | 0 <= x < |p|
        ensures b[q + x] == p[x]
      {
        assert b[q..q + |p|][x] == b[q + x];
      }
    }
  }

  /** A success is always right: the pattern occurs. */
  lemma {:induction false} SuccessIsRight(b: string, p: string, i: nat)
    requires Scan(b, p, i)
    ensures exists q: nat :: i <= q && OccursAt(b, p, q)
    decreases |b| - i
  {
    if b[i] != p[0] {
      SuccessIsRight(b, p, i + 1);
    } else {
      var k := Agreeing(b, p, i, 0);
      if k == |p| {
        OccursIff(b, p, i);
      } else {
        SuccessIsRight(b, p, i + k + 1);
      }
    }
  }

  /** Every attempt from i on that starts before q ends before q. */
  ghost predicate EarlierAttemptsEnd(b: string, p: string, i: nat, q: nat)
    requires p != ""
  {
    forall a :: i <= a < q && a < |b| && b[a] == p[0] ==> a + Agreeing(b, p, a, 0) < q
  }

  /** An occurrence is found if every earlier attempt mismatches before it. */
  lemma {:induction false} FoundIfNotSkipped(b: string, p: string, i: nat, q: nat)
    requires p != "" && i <= q && OccursAt(b, p, q) && EarlierAttemptsEnd(b, p, i, q)
    ensures Scan(b, p, i)
    decreases q - i
  {
    OccursIff(b, p, q);
    if i < q {
      if b[i] != p[0] {
        FoundIfNotSkipped(b, p, i + 1, q);
      } else {
        var k := Agreeing(b, p, i, 0);
        if k < |p| {
          FoundIfNotSkipped(b, p, i + k + 1, q);
        }
      }
    }
  }

  // ------------------------------------------------------------- for which patterns it is right

  /** All characters are the same. */
  predicate Uniform(p: string) {
    forall x :: 0 <= x < |p| ==> p[x] == p[0]
  }

  /** What find_strstr answers: a text no longer than the pattern is rejected. */
  predicate Finds(b: string, p: string) {
    |b| > |p| && Scan(b, p, 0)
  }

  /** The search answers whether the text contains the pattern, for every text but
      the pattern itself. */
  ghost predicate RightButForItself(p: string) {
    forall b: string :: b != p ==> (Finds(b, p) <==> Contains(b, p))
  }

  /** On the pattern itself the search is always wrong. */
  lemma NotInItself(p: string)
    ensures Contains(p, p) && !Finds(p, p)
  {
    assert p[0..|p|] == p;
    assert OccursAt(p, p, 0);
  }

  lemma ContainedInShorter(b: string, p: string)
    requires Contains(b, p) && |b| <= |p|
    ensures b == p
  {
    var q: nat :| OccursAt(b, p, q);
    assert b[0..|b|] == b;
  }

  /** With one repeated character an attempt either succeeds or ends before the
      next occurrence: what stops it is another character. */
  lemma UniformAttempt(b: string, p: string, q: nat, a: nat)
    requires p != "" && Uniform(p) && OccursAt(b, p, q) && a < q && b[a] == p[0]
    ensures var k := Agreeing(b, p, a, 0); k == |p| || a + k < q
  {
    OccursIff(b, p, q);
    assert forall y :: q <= y < q + |p| ==> b[y] == p[y - q] == p[0];
  }

  lemma UniformEnds(b: string, p: string, q: nat)
    requires p != "" && Uniform(p) && OccursAt(b, p, q) && !Scan(b, p, 0)
    ensures exists a: nat :: a < q && a < |b| && b[a] == p[0] && Agreeing(b, p, a, 0) == |p|
  {
    if EarlierAttemptsEnd(b, p, 0, q) {
      FoundIfNotSkipped(b, p, 0, q);
    } else {
      var a :| 0 <= a < q && a < |b| && b[a] == p[0] && a + Agreeing(b, p, a, 0) >= q;
      UniformAttempt(b, p, q, a);
    }
  }

  /** An occurrence before which none starts. */
  lemma {:induction false} Earliest(b: string, p: string, q: nat) returns (f: nat)
    requires OccursAt(b, p, q)
    ensures f <= q && OccursAt(b, p, f) && forall a: nat :: a < f ==> !OccursAt(b, p, a)
    decreases q
  {
    if exists a: nat :: a < q && OccursAt(b, p, a) {
      var a: nat :| a < q && OccursAt(b, p, a);
      f := Earliest(b, p, a);
    } else {
      f := q;
    }
  }

  lemma UniformNeverMisses(b: string, p: string)
    requires p != "" && Uniform(p) && Contains(b, p)
    ensures Scan(b, p, 0)
  {
    var q: nat :| OccursAt(b, p, q);
    var f := Earliest(b, p, q);
    if !Scan(b, p, 0) {
      UniformEnds(b, p, f);
      var a: nat :| a < f && a < |b| && b[a] == p[0] && Agreeing(b, p, a, 0) == |p|;
      OccursIff(b, p, a);
      assert false;
    }
  }

  /** The pattern behind its own first character is missed: the first attempt runs
      into the occurrence. */
  lemma OtherwiseMissed(p: string)
    requires p != "" && !Uniform(p)
    ensures Contains([p[0]] + p, p) && !Scan([p[0]] + p, p, 0)
  {
    var b := [p[0]] + p;
    assert b[1..1 + |p|] == p;
    assert OccursAt(b, p, 1);
    var k := Agreeing(b, p, 0, 0);
    FirstAttempt(p, k);
    if Scan(b, p, k + 1) {
      NoneBehind(b, p, k + 1);
    }
  }

  lemma NoneBehind(b: string, p: string, i: nat)
    requires Scan(b, p, i)
    ensures i + |p| <= |b|
  {
    SuccessIsRight(b, p, i);
  }

  lemma FirstAttempt(p: string, k: nat)
    requires p != "" && !Uniform(p) && k == Agreeing([p[0]] + p, p, 0, 0)
    ensures 1 <= k < |p|
  {
    AgreeingOnOne(p, k);
  }

  lemma {:induction false} AgreeingOnOne(p: string, k: nat)
    requires p != "" && k <= |p| && forall x :: 0 <= x < k ==> ([p[0]] + p)[x] == p[x]
    ensures forall x :: 0 <= x < k ==> p[x] == p[0]
    decreases k
  {
    if k > 1 {
      AgreeingOnOne(p, k - 1);
      assert ([p[0]] + p)[k - 1] == p[k - 2];
    }
  }

  /** The search is right, but for the pattern itself, exactly for the patterns
      that repeat one character. */
  lemma RightIffUniform(p: string)
    ensures RightButForItself(p) <==> p != "" && Uniform(p)
  {
    if p == "" {
      assert OccursAt("a", "", 0);
      assert Contains("a", "") && !Finds("a", "");
    } else if Uniform(p) {
      forall b: string | b != p
        ensures Finds(b, p) <==> Contains(b, p)
      {
        if Contains(b, p) {
          UniformNeverMisses(b, p);
          if |b| <= |p| {
            ContainedInShorter(b, p);
          }
        }
        if Finds(b, p) {
          SuccessIsRight(b, p, 0);
        }
      }
    } else {
      OtherwiseMissed(p);
      assert |[p[0]] + p| != |p|;
    }
  }

  /** The smallest example. */
  lemma Witness()
    ensures Contains("aab", "ab") && !Finds("aab", "ab") && !RightButForItself("ab")
  {
    var p := "ab";
    assert p[1] != p[0];
    OtherwiseMissed(p);
    assert ["ab"[0]] + "ab" == "aab";
    assert "aab" != "ab";
  }

  // ------------------------------------------------------------- the code

  /** find_strstr. The pattern buffer holds a terminator behind the pattern. */
  method FindStrStr(basestr: array?<char>, baseLen: int, substr: array?<char>, subLen: int) returns (found: bool)
    requires basestr != null ==> baseLen <= basestr.Length
    requires substr != null ==> 0 <= subLen < substr.Length
    ensures found <==> basestr != null && substr != null && baseLen >= 0 && Finds(basestr[..baseLen], substr[..subLen])
  {
    if basestr == null || substr == null {
      return false;
    }
    if baseLen <= subLen {
      return false;
    }
    ghost var b, p := basestr[..baseLen], substr[..subLen];
    var i, j := 0, 0;
    while i < baseLen
      invariant 0 <= i <= baseLen + 1 && (j == 0 || i >= baseLen)
      invariant Scan(b, p, 0) == Scan(b, p, i)
    {
      if basestr[i] == substr[j] {
        ghost var start := i;
        while j < subLen && i < baseLen
          invariant 0 <= j <= subLen && i == start + j && i <= baseLen
          invariant forall x :: 0 <= x < j ==> b[start + x] == p[x]
          invariant p == "" || (b[start] == p[0] && j < subLen && Agreeing(b, p, start, 0) == Agreeing(b, p, start, j))
        {
          if basestr[i] != substr[j] {
            j := 0;
            break;
          }
          if j == subLen - 1 {
            return true;
          }
          j, i := j + 1, i + 1;
        }
      }
      i := i + 1;
    }
    return false;
  }
}
