/** Start-up numbers the interface table: rows that carry no number get the next
    one, and a preset number makes the numbering go on behind it. */
module Instances {

  /** What the numbering loop makes of the numbers the rows carry, from `next` on. */
  function Numbered(s: seq<nat>, next: nat): (r: seq<nat>)
    ensures |r| == |s|
  {
    if s == [] then []
    else if s[0] == 0 then [next] + Numbered(s[1..], next + 1)
    else [s[0]] + Numbered(s[1..], s[0] + 1)
  }

  /** Where the last preset number before row k stands; -1 if there is none. */
  function LastPreset(s: seq<nat>, k: nat): (j: int)
    requires k <= |s|
    ensures -1 <= j < k && (j >= 0 ==> s[j] != 0)
    ensures forall x :: j < x < k ==> s[x] == 0
  {
    if k == 0 then -1 else if s[k - 1] != 0 then k - 1 else LastPreset(s, k - 1)
  }

  /** In front of row 0 the numbering stands at 0. */
  function PresetAt(s: seq<nat>, j: int): nat
    requires -1 <= j < |s|
  {
    if j < 0 then 0 else s[j]
  }

  /** One turn of the loop. */
  lemma NumberedStep(s: seq<nat>, k: nat, done: seq<nat>, next: nat)
    requires k < |s| && Numbered(s, 1) == done + Numbered(s[k..], next)
    ensures var n := if s[k] == 0 then next else s[k];
            Numbered(s, 1) == done + [n] + Numbered(s[k + 1..], n + 1)
  {
    assert s[k..][1..] == s[k + 1..];
  }

  lemma {:induction false} NumberedAt(s: seq<nat>, next: nat, k: nat)
    requires k < |s|
    ensures s[k] != 0 ==> Numbered(s, next)[k] == s[k]
    ensures s[k] == 0 ==> Numbered(s, next)[k] == if k == 0 then next else Numbered(s, next)[k - 1] + 1
  {
    if k == 1 {
      assert s[1] == s[1..][0];
    } else if k > 1 {
      var later := if s[0] == 0 then next + 1 else s[0] + 1;
      NumberedAt(s[1..], later, k - 1);
      assert Numbered(s, next)[k] == Numbered(s[1..], later)[k - 1] && Numbered(s, next)[k - 1] == Numbered(s[1..], later)[k - 2];
    }
  }

  /** Row k's number counts on from the last preset up to row k. */
  lemma {:induction false} CountsOn(s: seq<nat>, k: nat)
    requires k < |s|
    ensures var j := LastPreset(s, k + 1); Numbered(s, 1)[k] == PresetAt(s, j) + (k - j)
  {
    NumberedAt(s, 1, k);
    if s[k] == 0 && k > 0 {
      CountsOn(s, k - 1);
    }
  }

  ghost predicate Increasing(r: seq<nat>) {
    forall i, j :: 0 <= i < j < |r| ==> r[i] < r[j]
  }

  /** Row k's preset, if it has one, exceeds the preset before it by at least
      their distance. */
  predicate RoomAt(s: seq<nat>, k: nat)
    requires k < |s|
  {
    s[k] == 0 || s[k] >= PresetAt(s, LastPreset(s, k)) + (k - LastPreset(s, k))
  }

  ghost predicate RoomBetweenPresets(s: seq<nat>) {
    forall k: nat :: k < |s| ==> RoomAt(s, k)
  }

  predicate StepUp(r: seq<nat>, k: nat)
    requires 0 < k < |r|
  {
    r[k - 1] < r[k]
  }

  lemma {:induction false} StepsUp(r: seq<nat>, i: nat, j: nat)
    requires i < j < |r| && forall k: nat :: 0 < k < |r| ==> StepUp(r, k)
    ensures r[i] < r[j]
    decreases j
  {
    assert StepUp(r, j);
    if i < j - 1 {
      StepsUp(r, i, j - 1);
    }
  }

  lemma RowStepsUp(s: seq<nat>, k: nat)
    requires 0 < k < |s|
    ensures StepUp(Numbered(s, 1), k) <==> RoomAt(s, k)
  {
    NumberedAt(s, 1, k);
    CountsOn(s, k - 1);
    hide Numbered, PresetAt;
  }

  lemma FirstHasRoom(s: seq<nat>)
    requires s != []
    ensures RoomAt(s, 0)
  {
  }

  /** Numbers that are given stay; the result is strictly increasing, and so without
      repetition, exactly if every preset leaves room for the rows before it. */
  lemma IncreasingIffRoom(s: seq<nat>)
    ensures forall k :: 0 <= k < |s| && s[k] != 0 ==> Numbered(s, 1)[k] == s[k]
    ensures Increasing(Numbered(s, 1)) <==> RoomBetweenPresets(s)
  {
    var r := Numbered(s, 1);
    forall k: nat | k < |s|
      ensures s[k] != 0 ==> r[k] == s[k]
    {
      NumberedAt(s, 1, k);
    }
    if RoomBetweenPresets(s) {
      forall i: nat, j: nat | i < j < |r|
        ensures r[i] < r[j]
      {
        forall k: nat | 0 < k < |r|
          ensures StepUp(r, k)
        {
          RowStepsUp(s, k);
        }
        StepsUp(r, i, j);
      }
    }
    if Increasing(r) {
      forall k: nat | k < |s|
        ensures RoomAt(s, k)
      {
        if k == 0 {
          FirstHasRoom(s);
        } else {
          RowStepsUp(s, k);
        }
      }
    }
  }

  /** A zeroed table gets the numbers 1, 2, 3, and so on. */
  lemma ZeroedTable(s: seq<nat>, k: nat)
    requires k < |s| && forall x :: 0 <= x < |s| ==> s[x] == 0
    ensures Numbered(s, 1)[k] == k + 1
  {
    CountsOn(s, k);
  }
}
