/** Which virtual interface of the WAN manager names a PPP interface: a nested
    search over the WAN manager's tables, each step of which is a query that may
    fail. The answers are fixed while the search runs. */
module WanLookup {
  import opened CText
  import opened Paths

  /** The WAN manager's answers: to the query for the number of interfaces, and to
      the queries by name. An absent answer is a failing query. */
  datatype WanTable = WanTable(total: Option<string>, answers: map<string, string>)

  datatype Outcome = Found(iface: int, virt: int) | Absent | Failed

  /** The search over the virtual interfaces `v..c` of interface `i`. */
  function FromVirt(t: WanTable, inst: nat, i: int, v: int, c: int): Outcome
    decreases c - v
  {
    if v > c then Absent
    else if SlotName(i, v) !in t.answers then Failed
    else if t.answers[SlotName(i, v)] == Path(inst) then Found(i, v)
    else FromVirt(t, inst, i, v + 1, c)
  }

  /** The search over the interfaces `i..n`. */
  function FromIface(t: WanTable, inst: nat, i: int, n: int): Outcome
    decreases n - i
  {
    if i > n then Absent
    else if CountName(i) !in t.answers then Failed
    else
      var r := FromVirt(t, inst, i, 1, Atoi(t.answers[CountName(i)]));
      if r == Absent then FromIface(t, inst, i + 1, n) else r
  }

  /** No interfaces at all counts as a failure, not as absence. */
  function Lookup(t: WanTable, inst: nat): Outcome {
    if inst == 0 || t.total.None? || Atoi(t.total.value) <= 0 then Failed
    else FromIface(t, inst, 1, Atoi(t.total.value))
  }

  // ------------------------------------------------------------ what it means

  /** Virtual interface (i, v) exists. */
  predicate InTable(t: WanTable, i: int, v: int) {
    && t.total.Some? && 1 <= i <= Atoi(t.total.value)
    && CountName(i) in t.answers && 1 <= v <= Atoi(t.answers[CountName(i)])
  }

  predicate Names(t: WanTable, inst: nat, i: int, v: int) {
    SlotName(i, v) in t.answers && t.answers[SlotName(i, v)] == Path(inst)
  }

  predicate Earlier(i: int, v: int, i': int, v': int) {
    i < i' || (i == i' && v < v')
  }

  /** The queries the search makes before it looks at (i, v) succeed. */
  ghost predicate Answered(t: WanTable, i: int, v: int) {
    && (forall x :: 1 <= x <= i ==> CountName(x) in t.answers)
    && (forall x, y :: InTable(t, x, y) && Earlier(x, y, i, v) ==> SlotName(x, y) in t.answers)
  }

  /** (i, v) names the PPP interface and no earlier virtual interface does. */
  ghost predicate IsFirst(t: WanTable, inst: nat, i: int, v: int) {
    && inst > 0 && InTable(t, i, v) && Answered(t, i, v) && Names(t, inst, i, v)
    && (forall x, y :: InTable(t, x, y) && Earlier(x, y, i, v) ==> !Names(t, inst, x, y))
  }

  ghost predicate AllAnswered(t: WanTable) {
    && t.total.Some? && Atoi(t.total.value) > 0
    && (forall x :: 1 <= x <= Atoi(t.total.value) ==> CountName(x) in t.answers)
    && (forall x, y :: InTable(t, x, y) ==> SlotName(x, y) in t.answers)
  }

  lemma {:induction false} FromVirtMeans(t: WanTable, inst: nat, i: int, v: int, c: int)
    ensures match FromVirt(t, inst, i, v, c)
            case Found(i', v') =>
              i' == i && v <= v' <= c && Names(t, inst, i, v') &&
              (forall y :: v <= y < v' ==> SlotName(i, y) in t.answers && !Names(t, inst, i, y))
            case Absent => forall y :: v <= y <= c ==> SlotName(i, y) in t.answers && !Names(t, inst, i, y)
            case Failed => exists y :: v <= y <= c && SlotName(i, y) !in t.answers &&
                                       (forall z :: v <= z < y ==> !Names(t, inst, i, z))
    decreases c - v
  {
    if v <= c && SlotName(i, v) in t.answers && t.answers[SlotName(i, v)] != Path(inst) {
      FromVirtMeans(t, inst, i, v + 1, c);
    } else if v <= c && SlotName(i, v) !in t.answers {
      assert v <= v <= c;
    }
  }

  /** What a search over `i..n` has established. */
  ghost predicate Established(t: WanTable, inst: nat, i: int, n: int, r: Outcome) {
    match r
    case Found(i', v') =>
      && i <= i' <= n && CountName(i') in t.answers && 1 <= v' <= Atoi(t.answers[CountName(i')]) && Names(t, inst, i', v')
      && (forall x :: i <= x <= i' ==> CountName(x) in t.answers)
      && (forall x, y :: InTable(t, x, y) && i <= x && Earlier(x, y, i', v') ==> SlotName(x, y) in t.answers && !Names(t, inst, x, y))
    case Absent =>
      && (forall x :: i <= x <= n ==> CountName(x) in t.answers)
      && (forall x, y :: InTable(t, x, y) && i <= x <= n ==> SlotName(x, y) in t.answers && !Names(t, inst, x, y))
    case Failed => true
  }

  lemma {:induction false} FromIfaceMeans(t: WanTable, inst: nat, i: int, n: int)
    ensures Established(t, inst, i, n, FromIface(t, inst, i, n))
    decreases n - i
  {
    hide Atoi, SlotName, CountName, Path, Names;
    if i <= n && CountName(i) in t.answers {
      FromVirtMeans(t, inst, i, 1, Atoi(t.answers[CountName(i)]));
      var r := FromVirt(t, inst, i, 1, Atoi(t.answers[CountName(i)]));
      if r == Absent {
        FromIfaceMeans(t, inst, i + 1, n);
        NextIfaceMeans(t, inst, i, n, FromIface(t, inst, i + 1, n));
      } else if r.Found? {
        assert FromIface(t, inst, i, n) == r;
      }
    }
  }

  /** Interface i named nothing: the search's result from i + 1 on is that from i. */
  lemma NextIfaceMeans(t: WanTable, inst: nat, i: int, n: int, r: Outcome)
    requires i <= n && CountName(i) in t.answers && Established(t, inst, i + 1, n, r)
    requires forall y :: 1 <= y <= Atoi(t.answers[CountName(i)]) ==> SlotName(i, y) in t.answers && !Names(t, inst, i, y)
    ensures Established(t, inst, i, n, r)
  {
    hide Atoi, Names;
  }

  /** A search that has an earliest answer finds it. */
  lemma {:induction false} FirstIsFound(t: WanTable, inst: nat, i: int, n: int, w: int, v: int)
    requires t.total.Some? && n == Atoi(t.total.value) && 1 <= i <= w && IsFirst(t, inst, w, v)
    ensures FromIface(t, inst, i, n) == Found(w, v)
    decreases n - i
  {
    FromVirtMeans(t, inst, i, 1, Atoi(t.answers[CountName(i)]));
    if i < w {
      assert forall y :: 1 <= y <= Atoi(t.answers[CountName(i)]) ==> InTable(t, i, y) && Earlier(i, y, w, v);
      FirstIsFound(t, inst, i + 1, n, w, v);
    } else {
      assert forall y :: 1 <= y < v ==> InTable(t, i, y) && Earlier(i, y, w, v);
    }
  }

  /** The search succeeds with (i, v) exactly when (i, v) is the earliest virtual
      interface naming the PPP interface, all queries before it succeeding. */
  lemma FoundIffFirst(t: WanTable, inst: nat, i: int, v: int)
    ensures Lookup(t, inst) == Found(i, v) <==> IsFirst(t, inst, i, v)
  {
    hide Atoi, SlotName, CountName, Path, Names, FromIface;
    if Lookup(t, inst) == Found(i, v) {
      FromIfaceMeans(t, inst, 1, Atoi(t.total.value));
      assert forall x, y :: InTable(t, x, y) ==> 1 <= x;
    }
    if IsFirst(t, inst, i, v) {
      FirstIsFound(t, inst, 1, Atoi(t.total.value), i, v);
    }
  }

  /** With all queries answered the search fails exactly when no virtual
      interface names the PPP interface. */
  lemma AbsentIffNone(t: WanTable, inst: nat)
    requires inst > 0 && AllAnswered(t)
    ensures Lookup(t, inst) == Absent <==> forall i, v :: InTable(t, i, v) ==> !Names(t, inst, i, v)
    ensures Lookup(t, inst) != Failed
  {
    var n := Atoi(t.total.value);
    FromIfaceMeans(t, inst, 1, n);
    NeverFails(t, inst, 1, n);
    if Lookup(t, inst).Found? {
      assert InTable(t, Lookup(t, inst).iface, Lookup(t, inst).virt);
    }
  }

  lemma {:induction false} NeverFails(t: WanTable, inst: nat, i: int, n: int)
    requires AllAnswered(t) && n == Atoi(t.total.value) && 1 <= i
    ensures FromIface(t, inst, i, n) != Failed
    decreases n - i
  {
    if i <= n {
      FromVirtMeans(t, inst, i, 1, Atoi(t.answers[CountName(i)]));
      assert forall y :: 1 <= y <= Atoi(t.answers[CountName(i)]) ==> InTable(t, i, y);
      NeverFails(t, inst, i + 1, n);
    }
  }

  lemma PathInjective(p: nat, q: nat)
    ensures Path(p) == Path(q) <==> p == q
  {
    hide Dec, Format;
    PathIs(p);
    PathIs(q);
    SameHead("Device.PPP.Interface.", Dec(p), Dec(q));
    ValueOfDec(p);
    ValueOfDec(q);
  }

  /** Under one table, different PPP interfaces get different slots. */
  lemma SlotsDistinct(t: WanTable, p: nat, q: nat)
    requires p != q && Lookup(t, p).Found? && Lookup(t, q).Found?
    ensures Lookup(t, p) != Lookup(t, q)
    ensures Lookup(t, p).iface >= 1 && Lookup(t, p).virt >= 1
  {
    FoundIffFirst(t, p, Lookup(t, p).iface, Lookup(t, p).virt);
    FoundIffFirst(t, q, Lookup(t, q).iface, Lookup(t, q).virt);
    PathInjective(p, q);
  }

  lemma SlotPositive(t: WanTable, p: nat)
    requires Lookup(t, p).Found?
    ensures Lookup(t, p).iface >= 1 && Lookup(t, p).virt >= 1
  {
    FoundIffFirst(t, p, Lookup(t, p).iface, Lookup(t, p).virt);
  }

  // ---------------------------------------------------------------- the code

  /** The search as the source runs it: both results are output pointers, which
      a failing query leaves as the caller set them. */
  method GetWanIfaceInstance(t: WanTable, inst: nat, w0: int, v0: int) returns (ok: bool, w: int, v: int)
    ensures match Lookup(t, inst)
            case Found(i, j) => ok && w == i && v == j
            case Absent => !ok && w == -1 && v == -1
            case Failed => !ok && w == w0 && v == v0
  {
    ok, w, v := false, w0, v0;
    if inst == 0 || t.total.None? {
      return;
    }
    var n := Atoi(t.total.value);
    if n <= 0 {
      return;
    }
    var path := Path(inst);
    var i := 1;
    while i <= n
      invariant Lookup(t, inst) == FromIface(t, inst, i, n)
    {
      if CountName(i) !in t.answers {
        return;
      }
      var c := Atoi(t.answers[CountName(i)]);
      var j := 1;
      while j <= c
        invariant j <= c + 1 || (c < 1 && j == 1)
        invariant FromVirt(t, inst, i, 1, c) == FromVirt(t, inst, i, j, c)
      {
        if SlotName(i, j) !in t.answers {
          return;
        }
        if t.answers[SlotName(i, j)] == path {
          ok, w, v := true, i, j;
          return;
        }
        j := j + 1;
      }
      i := i + 1;
    }
    w, v := -1, -1;
  }
}
