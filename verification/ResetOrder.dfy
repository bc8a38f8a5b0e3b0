/** Resetting an interface: in every interleaving the three Downs and the start
    event are offered in order with nothing else in between, and the WAN manager
    has been sent the Downs before the client is launched again. */
module ResetOrder {
  import opened CText
  import opened Ipcp
  import opened Paths
  import opened Program
  import opened Machine
  import opened Invariant
  import opened Discipline
  import opened Bounds
  import opened History
  import opened Sections
  import opened Outcomes

  // ------------------------------------------------------------- sections are atomic

  /** From taking the lock to releasing it, whatever else runs: the row and the
      row's history change as if the thread had been alone. */
  lemma Atomic(cfg: Config, s: State, ls: seq<Label>, t: Tid, e: Entry)
    requires Inv(cfg, s) && ValidTid(s, t) && 0 <= RowOf(e) < cfg.n
    requires Th(s, t) == Thread(Body(cfg, e), Holds(RowOf(e), 1))
    requires CanRun(cfg, s, ls) && Holding(cfg, s, ls, t)
    requires ValidTid(After(cfg, s, ls), t) && Th(After(cfg, s, ls), t).hold == NoHold
    ensures |s.rows| == |After(cfg, s, ls).rows| == cfg.n
    ensures var s', i := After(cfg, s, ls), RowOf(e);
            var o := Play(cfg, t, Body(cfg, e), i, 1, s.rows[i], Answers(cfg, s, ls, t), true);
            && s'.rows[i] == o.row && Under(s'.log, i) == Under(s.log, i) + o.items && Th(s', t).prog == o.next
  {
    hide Inv, Body, Play, Under, Holding, Answers, CanRun, After;
    var s', i, a := After(cfg, s, ls), RowOf(e), Answers(cfg, s, ls, t);
    var _ := SectionRuns(cfg, s, ls, t, i, [], true);
    assert a + [] == a;
    assert Under(s'.log, i) + [] == Under(s'.log, i);
  }

  /** The section uses up exactly the answers the thread got. */
  lemma AllAnswersUsed(cfg: Config, s: State, ls: seq<Label>, t: Tid, e: Entry)
    requires Inv(cfg, s) && ValidTid(s, t) && 0 <= RowOf(e) < cfg.n
    requires Th(s, t) == Thread(Body(cfg, e), Holds(RowOf(e), 1))
    requires CanRun(cfg, s, ls) && Holding(cfg, s, ls, t)
    requires ValidTid(After(cfg, s, ls), t) && Th(After(cfg, s, ls), t).hold == NoHold
    ensures |s.rows| == cfg.n
    ensures var i, x := RowOf(e), [Choice(false, 0)];
            Play(cfg, t, Body(cfg, e), i, 1, s.rows[i], Answers(cfg, s, ls, t) + x, true).left == x
  {
    hide Inv, Body, Play, Under, Holding, Answers, CanRun, After;
    var _ := SectionRuns(cfg, s, ls, t, RowOf(e), [Choice(false, 0)], true);
  }

  // ------------------------------------------------------------- the reset

  function DownFor(i: nat, param: Param): Event {
    BusSet(i + 1, param, VDown)
  }

  /** The history of a successful reset. */
  function ResetItems(a: Tid, i: nat): seq<Item> {
    [Noted(NCleared(i)),
     Offered(a, DownFor(i, LcpStatus), true, true), Offered(a, DownFor(i, IpcpStatus), true, true),
     Offered(a, DownFor(i, Ipv6cpStatus), true, true), Offered(a, Exec(i + 1), true, true)]
  }

  ghost predicate AllGood(cs: seq<Choice>) {
    forall k :: 0 <= k < |cs| ==> cs[k].b
  }

  /** API thread k has just locked row i to reset it, and the run `ls` takes it to
      the release of the lock with every send accepted. */
  ghost predicate ResetRun(cfg: Config, s: State, ls: seq<Label>, k: nat, i: nat) {
    && Inv(cfg, s) && k < |s.api| && i < cfg.n && i < |s.rows| && s.rows[i].enabled
    && s.api[k] == Thread(ApiBody(Reset(i, true)), Holds(i, 1))
    && CanRun(cfg, s, ls) && Holding(cfg, s, ls, Api(k)) && AllGood(Answers(cfg, s, ls, Api(k)))
    && ValidTid(After(cfg, s, ls), Api(k)) && Th(After(cfg, s, ls), Api(k)).hold == NoHold
  }

  lemma FourAnswers(a: seq<Choice>, x: seq<Choice>)
    requires |x| == 1 && Tail(StopRest(a + x)) == x
    ensures |a| == 4
  {
    assert |Tail(StopRest(a + x))| == if |a| >= 4 then |a| - 3 else 0;
  }

  lemma GoodReset(cfg: Config, a: Tid, i: nat, r: Row, cs: seq<Choice>)
    requires r.enabled && |cs| == 4 && AllGood(cs)
    ensures ApiOutcome(cfg, a, Reset(i, true), r, cs) == Outcome(ResetItems(a, i), StoppedRow(cfg, r).(enabled := true), Done, [])
  {
    assert Head(cs) == cs[0] && Head(Tail(cs)) == cs[1] && Head(Tail(Tail(cs))) == cs[2] && Head(StopRest(cs)) == cs[3];
    assert Tail(StopRest(cs)) == [];
    assert StopItems(a, i, cs) + [LaunchItem(a, i, cs[3])] == ResetItems(a, i);
  }

  /** A successful reset of an enabled interface, in any interleaving: under the
      lock exactly the clear, the three Downs and the start event are recorded, in
      this order, and the interface ends enabled, down and without addresses. */
  lemma ResetInOrder(cfg: Config, s: State, ls: seq<Label>, k: nat, i: nat)
    requires ResetRun(cfg, s, ls, k, i)
    ensures |After(cfg, s, ls).rows| == cfg.n
    ensures var s' := After(cfg, s, ls);
            && Under(s'.log, i) == Under(s.log, i) + ResetItems(Api(k), i)
            && s'.rows[i].enabled && s'.rows[i].status == Down && s'.rows[i].conn == Unconfigured
            && s'.rows[i].Addresses() == IpcpData(ZERO_ADDR, ZERO_ADDR, ZERO_ADDR, ZERO_ADDR)
            && Th(s', Api(k)).prog == Done
  {
    var t, e, op, a := Api(k), EApi(Reset(i, true)), Reset(i, true), Answers(cfg, s, ls, Api(k));
    assert Body(cfg, e) == ApiBody(op) && RowOf(e) == i;
    hide Inv, Body, ApiBody, Holding, Answers, CanRun, After, Play, Under, AllGood;
    Atomic(cfg, s, ls, t, e);
    AllAnswersUsed(cfg, s, ls, t, e);
    PlayApi(cfg, t, op, s.rows[i], a);
    PlayApi(cfg, t, op, s.rows[i], a + [Choice(false, 0)]);
    FourAnswers(a, [Choice(false, 0)]);
    GoodReset(cfg, t, i, s.rows[i], a);
  }

  // ------------------------------------------------------------- from the history to the queue

  lemma {:induction false} UnderPrefix(log: seq<Item>, n: nat, i: nat)
    requires n <= |log|
    ensures |Under(log[..n], i)| <= |Under(log, i)|
  {
    if n < |log| {
      UnderPrefix(log[..|log| - 1], n, i);
      assert log[..|log| - 1][..n] == log[..n];
    } else {
      assert log[..n] == log;
    }
  }

  /** Where the last item written under the lock stands in the whole history. */
  lemma {:induction false} LastUnder(log: seq<Item>, i: nat, base: seq<Item>, x: Item) returns (n: nat)
    requires Under(log, i) == base + [x]
    ensures n < |log| && log[n] == x && Under(log[..n], i) == base
  {
    var front, y := log[..|log| - 1], log[|log| - 1];
    if IsUnder(y, i) {
      n := |log| - 1;
      assert Under(log, i) == Under(front, i) + [y];
      assert (base + [x])[..|base|] == base && (Under(front, i) + [y])[..|base|] == Under(front, i);
    } else {
      n := LastUnder(front, i, base, x);
      assert front[..n] == log[..n];
    }
  }

  /** The accepted events up to an accepted one. */
  lemma {:induction false} AcceptedUpTo(log: seq<Item>, n: nat)
    requires n < |log| && log[n].Offered? && log[n].took
    ensures var q := |Accepted(log[..n])|;
            q < |Accepted(log)| && Accepted(log)[..q] == Accepted(log[..n]) && Accepted(log)[q] == log[n].ev
  {
    var front := log[..|log| - 1];
    if n < |log| - 1 {
      AcceptedUpTo(front, n);
      assert front[..n] == log[..n];
    }
  }

  /** An accepted item under the lock, and what was accepted before it. It was
      written after `past` if more stands under the lock before it than in `past`. */
  lemma QueuedAt(past: seq<Item>, log: seq<Item>, i: nat, base: seq<Item>, x: Item) returns (n: nat, q: nat)
    requires Under(log, i) == base + [x] && x.Offered? && x.took
    requires past <= log && |Under(past, i)| < |base|
    ensures |past| <= n < |log| && past <= log[..n] && Under(log[..n], i) == base
    ensures q == |Accepted(log[..n])| && |Accepted(past)| <= q < |Accepted(log)|
    ensures Accepted(log)[q] == x.ev && Accepted(log)[..q] == Accepted(log[..n])
  {
    n := LastUnder(log, i, base, x);
    AcceptedUpTo(log, n);
    q := |Accepted(log[..n])|;
    hide Under, Accepted;
    if n < |past| {
      assert past[..n] == log[..n];
      UnderPrefix(past, n, i);
      assert false;
    }
    AcceptedPrefix(past, log[..n]);
  }

  /** The three Downs and the start event, in order, among the accepted events. */
  predicate QueuedInOrder(es: seq<Event>, i: nat, q1: nat, q2: nat, q3: nat, q4: nat) {
    && q1 < q2 < q3 < q4 < |es|
    && es[q1] == DownFor(i, LcpStatus) && es[q2] == DownFor(i, IpcpStatus) && es[q3] == DownFor(i, Ipv6cpStatus)
    && es[q4] == Exec(i + 1)
  }

  /** The reset's own four events, all accepted after what `past` records. */
  lemma FourPositions(past: seq<Item>, log: seq<Item>, a: Tid, i: nat) returns (q1: nat, q2: nat, q3: nat, q4: nat)
    requires past <= log && Under(log, i) == Under(past, i) + ResetItems(a, i)
    ensures QueuedInOrder(Accepted(log), i, q1, q2, q3, q4) && |Accepted(past)| <= q1
  {
    var base, x := Under(past, i), ResetItems(a, i);
    FiveItems(a, i);
    hide Under, Accepted, ResetItems;
    assert base + x == base + x[..4] + [x[4]];
    var n4: nat;
    n4, q4 := QueuedAt(past, log, i, base + x[..4], x[4]);
    assert base + x[..4] == base + x[..3] + [x[3]];
    var n3: nat;
    n3, q3 := QueuedAt(past, log[..n4], i, base + x[..3], x[3]);
    assert base + x[..3] == base + x[..2] + [x[2]];
    var n2: nat;
    n2, q2 := QueuedAt(past, log[..n4][..n3], i, base + x[..2], x[2]);
    assert base + x[..2] == base + x[..1] + [x[1]];
    var n1: nat;
    n1, q1 := QueuedAt(past, log[..n4][..n3][..n2], i, base + x[..1], x[1]);
    var es := Accepted(log);
    assert es[q3] == es[..q4][q3] && es[q2] == es[..q4][..q3][q2] && es[q1] == es[..q4][..q3][..q2][q1];
  }

  lemma FiveItems(a: Tid, i: nat)
    ensures var x := ResetItems(a, i);
            && |x| == 5 && x[0] == Noted(NCleared(i))
            && x[1] == Offered(a, DownFor(i, LcpStatus), true, true) && x[2] == Offered(a, DownFor(i, IpcpStatus), true, true)
            && x[3] == Offered(a, DownFor(i, Ipv6cpStatus), true, true) && x[4] == Offered(a, Exec(i + 1), true, true)
  {
  }

  // ------------------------------------------------------------- from the queue to the WAN manager

  /** The parameter events up to one of them. */
  lemma {:induction false} SetsUpTo(es: seq<Event>, q: nat)
    requires q <= |es|
    ensures Sets(es[..q]) <= Sets(es)
    ensures q < |es| && es[q].BusSet? ==> Sets(es[..q]) + [es[q]] <= Sets(es)
  {
    if q < |es| {
      var front := es[..|es| - 1];
      if q < |front| {
        SetsUpTo(front, q);
        assert front[..q] == es[..q] && front[q] == es[q];
      } else {
        assert es[..q] == front;
      }
    } else {
      assert es[..q] == es;
    }
  }

  lemma {:induction false} SetsAreSets(es: seq<Event>)
    ensures forall k :: 0 <= k < |Sets(es)| ==> Sets(es)[k].BusSet?
  {
    if es != [] {
      SetsAreSets(es[..|es| - 1]);
    }
  }

  /** All but the last event of es have been told. */
  lemma SetsHeld(es: seq<Event>, told: seq<Event>, e: Event, q: nat)
    requires q < |es| && es[|es| - 1] == e && Sets(es) == told + [e]
    ensures Sets(es[..q]) <= told
  {
    hide Sets;
    var front := es[..|es| - 1];
    SetsAreSets(es);
    assert (told + [e])[|told|] == e;
    SetsGrows(front, e);
    assert es == front + [e];
    LastSame(Sets(front), told, e);
    SetsUpTo(front, q);
    assert front[..q] == es[..q];
  }

  lemma LastSame(a: seq<Event>, b: seq<Event>, e: Event)
    requires a + [e] == b + [e]
    ensures a == b
  {
    assert |a + [e]| == |a| + 1 && |b + [e]| == |b| + 1;
    assert a == (a + [e])[..|a|] && b == (b + [e])[..|b|];
  }

  /** By the time an event is taken from the queue, every parameter event accepted
      before it has been told to the WAN manager, in order. */
  lemma ToldBefore(cfg: Config, s: State, q: nat)
    requires Reachable(cfg, s) && q < |s.dequeued|
    ensures s.dequeued <= Accepted(s.log)
    ensures Sets(s.dequeued[..q]) <= s.told
  {
    hide Inv, Delivering, Ends, Accepted, Reachable, Occupancy, EvShape, ApiShape, Sets;
    HistReachable(cfg, s);
    var es, last := s.dequeued, |s.dequeued| - 1;
    assert Sets(es) == s.told + InHand(s.ev.prog);
    if InHand(s.ev.prog) == [] {
      SetsUpTo(es, q);
    } else {
      SetsHeld(es, s.told, es[last], q);
    }
  }

  /** The event at position q of the accepted events has been told: it stands where
      the parameter events accepted before it put it. */
  ghost predicate ToldAt(told: seq<Event>, es: seq<Event>, q: nat) {
    && q < |es| && |Sets(es[..q])| < |told|
    && Sets(es[..q]) <= told && told[|Sets(es[..q])|] == es[q]
  }

  lemma {:induction false} SetsMonotone(es: seq<Event>, p: nat, q: nat)
    requires p < q <= |es| && es[p].BusSet?
    ensures |Sets(es[..p])| < |Sets(es[..q])|
    decreases q
  {
    assert es[..q][..p] == es[..p] && es[..q][p] == es[p];
    SetsUpTo(es[..q], p);
  }

  lemma ToldBeforeStart(es: seq<Event>, told: seq<Event>, q: nat, q4: nat)
    requires q < q4 < |es| && es[q].BusSet? && Sets(es[..q4]) <= told
    ensures ToldAt(told, es, q)
  {
    var f, b := es[..q4], Sets(es[..q]) + [es[q]];
    assert f[..q] == es[..q] && f[q] == es[q];
    SetsUpTo(f, q);
    hide Sets;
    assert b <= Sets(f) <= told;
    assert told[|Sets(es[..q])|] == b[|Sets(es[..q])|];
  }

  lemma LogOnlyGrows(cfg: Config, s: State, l: Label)
    requires Enabled(cfg, s, l)
    ensures s.log <= Next(cfg, s, l).log
  {
    hide Dequeue, ProcessPppState;
    match l
    case Run(t, c) =>
      if Th(s, t).prog.Send? {
        var p := Th(s, t).prog;
        SendLogged(s, t, EventOf(s, p.to, p.what), c.b, if c.b then p.ok else p.fail);
        hide SendTo, EventOf;
      } else {
        LogStep(cfg, s, t, c);
        hide Execute, Ready;
      }
    case Poll(c) => assert Dequeue(cfg, s, c).log == s.log by { DequeueLog(cfg, s, c); }
    case BeginMsg(m) =>
    case BeginApi(k, op) =>
  }

  lemma DequeueLog(cfg: Config, s: State, c: Choice)
    requires s.queue != []
    ensures Dequeue(cfg, s, c).log == s.log
  {
  }

  lemma {:induction false} AcceptedPrefix(a: seq<Item>, b: seq<Item>)
    requires a <= b
    ensures Accepted(a) <= Accepted(b)
    decreases |b|
  {
    if a != b {
      AcceptedPrefix(a, b[..|b| - 1]);
    }
  }

  lemma {:induction false} LogGrowsInRuns(cfg: Config, s: State, ls: seq<Label>)
    requires CanRun(cfg, s, ls)
    ensures s.log <= After(cfg, s, ls).log
    decreases ls
  {
    hide Next, Enabled;
    if ls != [] {
      LogOnlyGrows(cfg, s, ls[0]);
      LogGrowsInRuns(cfg, Next(cfg, s, ls[0]), ls[1..]);
    }
  }

  lemma ReachableRuns(cfg: Config, s: State, ls: seq<Label>)
    requires Reachable(cfg, s) && CanRun(cfg, s, ls)
    ensures Reachable(cfg, After(cfg, s, ls))
  {
    hide Next, Enabled, Initial, CanRun, After;
    var s0: State, l0: seq<Label> :| Initial(cfg, s0) && CanRun(cfg, s0, l0) && s == After(cfg, s0, l0);
    RunsCompose(cfg, s0, l0, ls);
  }

  /** Reset, then anything. The reset's own four events (accepted after everything
      that had been accepted when it took the lock) are accepted in order; and once
      its start event has been taken from the queue, only then can a client be
      launched for it, those very Downs have been sent to the WAN manager, in order
      and after every parameter event accepted before the reset. */
  lemma DownsBeforeRelaunch(cfg: Config, s: State, ls: seq<Label>, k: nat, i: nat, later: seq<Label>)
      returns (q1: nat, q2: nat, q3: nat, q4: nat)
    requires Reachable(cfg, s) && ResetRun(cfg, s, ls, k, i) && CanRun(cfg, After(cfg, s, ls), later)
    ensures |Accepted(s.log)| <= q1
    ensures QueuedInOrder(Accepted(After(cfg, s, ls).log), i, q1, q2, q3, q4)
    ensures var s'' := After(cfg, After(cfg, s, ls), later);
            var es := Accepted(s''.log);
            && QueuedInOrder(es, i, q1, q2, q3, q4)
            && (q4 < |s''.dequeued| ==>
                  && ToldAt(s''.told, es, q1) && ToldAt(s''.told, es, q2) && ToldAt(s''.told, es, q3)
                  && |Sets(Accepted(s.log))| <= |Sets(es[..q1])| < |Sets(es[..q2])| < |Sets(es[..q3])|)
  {
    hide CanRun, After, Reachable, Under, Accepted, Sets, ResetItems, Holding, Answers;
    ResetInOrder(cfg, s, ls, k, i);
    var s' := After(cfg, s, ls);
    LogGrowsInRuns(cfg, s, ls);
    var s'' := After(cfg, s', later);
    q1, q2, q3, q4 := FourPositions(s.log, s'.log, Api(k), i);
    LogGrowsInRuns(cfg, s', later);
    AcceptedPrefix(s'.log, s''.log);
    AcceptedPrefix(s.log, s'.log);
    hide ResetRun;
    if q4 < |s''.dequeued| {
      ReachableTwice(cfg, s, ls, later);
      ToldBefore(cfg, s'', q4);
      AllTold(s''.dequeued, Accepted(s''.log), s''.told, i, q1, q2, q3, q4);
      SetsPrefix(Accepted(s.log), Accepted(s''.log)[..q1]);
    }
  }

  lemma SetsPrefix(a: seq<Event>, b: seq<Event>)
    requires a <= b
    ensures |Sets(a)| <= |Sets(b)|
  {
    SetsUpTo(b, |a|);
    assert b[..|a|] == a;
  }

  lemma AllTold(taken: seq<Event>, es: seq<Event>, told: seq<Event>, i: nat, q1: nat, q2: nat, q3: nat, q4: nat)
    requires taken <= es && QueuedInOrder(es, i, q1, q2, q3, q4) && q4 < |taken| && Sets(taken[..q4]) <= told
    ensures ToldAt(told, es, q1) && ToldAt(told, es, q2) && ToldAt(told, es, q3)
    ensures |Sets(es[..q1])| < |Sets(es[..q2])| < |Sets(es[..q3])|
  {
    assert taken[..q4] == es[..q4];
    ToldBeforeStart(es, told, q1, q4);
    ToldBeforeStart(es, told, q2, q4);
    ToldBeforeStart(es, told, q3, q4);
    SetsMonotone(es, q1, q2);
    SetsMonotone(es, q2, q3);
  }

  lemma ReachableTwice(cfg: Config, s: State, a: seq<Label>, b: seq<Label>)
    requires Reachable(cfg, s) && CanRun(cfg, s, a) && CanRun(cfg, After(cfg, s, a), b)
    ensures Reachable(cfg, After(cfg, After(cfg, s, a), b))
  {
    hide Reachable, CanRun, After;
    ReachableRuns(cfg, s, a);
    ReachableRuns(cfg, After(cfg, s, a), b);
  }

  // ------------------------------------------------------------- IPCP messages

  /** Every IPCP message that reaches its handler offers exactly one IPCP verdict
      under the lock, in any interleaving, and it is Up exactly for a message with
      all texts present, at most four parts in both addresses and a server named;
      then the row holds the message's addresses. */
  lemma OneVerdict(cfg: Config, s: State, ls: seq<Label>, inst: nat, m: Msg)
    requires Inv(cfg, s) && 1 <= inst <= cfg.n && AllPresent(m.ipcp)
    requires s.ev == Thread(Body(cfg, EIpcp(inst, m)), Holds(inst - 1, 1))
    requires CanRun(cfg, s, ls) && Holding(cfg, s, ls, Ev) && After(cfg, s, ls).ev.hold == NoHold
    ensures var s', i := After(cfg, s, ls), inst - 1;
            && |s'.rows| == cfg.n
            && exists took :: Under(s'.log, i) == Under(s.log, i)
                 + (if Acceptable(m.ipcp) then [Noted(NCompleted(i, m.ipcp)), Offered(Ev, BusSet(inst, IpcpStatus, VUp), true, took)]
                    else [Offered(Ev, BusSet(inst, IpcpStatus, VDown), true, took)])
    ensures Acceptable(m.ipcp) ==> After(cfg, s, ls).rows[inst - 1].Addresses() == Parse(m.ipcp)
    ensures After(cfg, s, ls).ev.prog == Receive
  {
    var i, e, cs := inst - 1, EIpcp(inst, m), Answers(cfg, s, ls, Ev);
    assert Body(cfg, e) == IpcpBody(i, m.ipcp) && RowOf(e) == i;
    hide Inv, Body, IpcpBody, Holding, Answers, CanRun, After, Play, Under, Acceptable, IpcpRow;
    Atomic(cfg, s, ls, Ev, e);
    PlayIpcp(cfg, i, m.ipcp, s.rows[i], cs, true);
    VerdictItems(i, m.ipcp, Head(cs));
    if Acceptable(m.ipcp) {
      AcceptedRow(s.rows[i], m.ipcp);
    }
  }

  lemma VerdictItems(i: nat, m: IpcpMsg, c: Choice)
    ensures IpcpItems(i, m, c) ==
            if Acceptable(m) then [Noted(NCompleted(i, m)), Offered(Ev, BusSet(i + 1, IpcpStatus, VUp), true, c.b)]
            else [Offered(Ev, BusSet(i + 1, IpcpStatus, VDown), true, c.b)]
  {
    hide Acceptable;
  }

  lemma AcceptedRow(r: Row, m: IpcpMsg)
    requires Acceptable(m)
    ensures IpcpRow(r, m).Addresses() == Parse(m)
  {
    hide ParseIp4, ParseDns;
  }
}
