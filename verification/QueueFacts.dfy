/** The event queue: order, occupancy, how many iterations empty it, and what
    happens when it is full. */
module QueueFacts {
  import opened CText
  import opened Paths
  import opened Program
  import opened Machine
  import opened Invariant
  import opened Discipline
  import opened Bounds
  import opened History
  import opened Sections
  import Agreement
  import Progress
  import ResetOrder

  /** First in, first out, nothing lost: the accepted events are, in order, those
      taken from the queue and those in it, and each names an interface. */
  lemma FirstInFirstOut(cfg: Config, s: State)
    requires Reachable(cfg, s)
    ensures Accepted(s.log) == s.dequeued + s.queue
    ensures forall k :: 0 <= k < |s.queue| ==> 1 <= s.queue[k].inst <= cfg.n
  {
    hide Reachable, Delivering, Ends, RowOk, ThreadOk;
    HistReachable(cfg, s);
  }

  // ------------------------------------------------------------- occupancy

  /** Accepted since the counters stood at k0 and t0. */
  predicate Explained(s: State, k0: nat, t0: nat) {
    && k0 <= s.apiSends && t0 <= s.doubles
    && |s.queue| <= (s.apiSends - k0) + (s.doubles - t0) + (if s.cur > 0 then 1 else 0)
  }

  lemma TellKeepsQueue(cfg: Config, s: State, c: Choice)
    requires Ready(s, Ev, c) && s.ev.prog.WanSet?
    ensures var s' := Execute(cfg, s, Ev, c);
            s'.queue == s.queue && s'.apiSends == s.apiSends && s'.doubles == s.doubles && s'.cur == s.cur
            && s'.dequeued == s.dequeued && s'.log == s.log
  {
    hide StatusName;
  }

  lemma DequeueCounts(cfg: Config, s: State, c: Choice)
    requires s.queue != []
    ensures var s' := Dequeue(cfg, s, c);
            s'.queue == s.queue[1..] && s'.dequeued == s.dequeued + [s.queue[0]]
            && s'.apiSends == s.apiSends && s'.doubles == s.doubles && s'.cur == 0
  {
  }

  lemma ExplainedNext(cfg: Config, s: State, l: Label, k0: nat, t0: nat)
    requires Inv(cfg, s) && Hist(s) && Enabled(cfg, s, l) && Explained(s, k0, t0)
    ensures Explained(Next(cfg, s, l), k0, t0)
  {
    var s' := Next(cfg, s, l);
    hide Inv, Dequeue, ProcessPppState, Delivering, Ends, Accepted, Sets;
    match l
    case Run(t, c) =>
      if Th(s, t).prog.Send? {
        SendEffect(cfg, s, t, c);
        OwedBySend(Th(s, t).prog);
        hide Execute, Ready, EventOf, Owed;
      } else if Th(s, t).prog.WanSet? {
        TellKeepsQueue(cfg, s, c);
        hide Execute;
      } else if Th(s, t).prog.Receive? {
        if s.queue != [] {
          DequeueCounts(cfg, s, c);
        }
      } else {
        PlainStep(cfg, s, t, c);
        hide Execute, Ready;
      }
    case Poll(c) => DequeueCounts(cfg, s, c);
    case BeginMsg(m) =>
    case BeginApi(k, op) =>
  }

  lemma {:induction false} ExplainedRun(cfg: Config, s: State, ls: seq<Label>, k0: nat, t0: nat)
    requires Inv(cfg, s) && Hist(s) && CanRun(cfg, s, ls) && Explained(s, k0, t0)
    ensures Explained(After(cfg, s, ls), k0, t0) && Inv(cfg, After(cfg, s, ls)) && Hist(After(cfg, s, ls))
    decreases ls
  {
    hide Inv, Hist, Next, Enabled, Explained;
    if ls != [] {
      InvNext(cfg, s, ls[0]);
      HistNext(cfg, s, ls[0]);
      ExplainedNext(cfg, s, ls[0], k0, t0);
      ExplainedRun(cfg, Next(cfg, s, ls[0]), ls[1..], k0, t0);
    }
  }

  // ------------------------------------------------------------- what the counters count

  /** The accepted sends of API threads in a history. */
  function ApiAccepted(log: seq<Item>): nat {
    if log == [] then 0
    else
      var x := log[|log| - 1];
      (if x.Offered? && x.took && x.from.Api? then 1 else 0) + ApiAccepted(log[..|log| - 1])
  }

  lemma ApiAcceptedGrows(log: seq<Item>, x: Item)
    ensures ApiAccepted(log + [x]) == (if x.Offered? && x.took && x.from.Api? then 1 else 0) + ApiAccepted(log)
  {
    assert (log + [x])[..|log|] == log;
  }

  lemma ApiCounterNext(cfg: Config, s: State, l: Label)
    requires Enabled(cfg, s, l) && s.apiSends == ApiAccepted(s.log)
    ensures Next(cfg, s, l).apiSends == ApiAccepted(Next(cfg, s, l).log)
  {
    hide Dequeue, ProcessPppState, ApiAccepted;
    match l
    case Run(t, c) =>
      var p := Th(s, t).prog;
      if p.Send? {
        var e, k := EventOf(s, p.to, p.what), if c.b then p.ok else p.fail;
        SendEffect(cfg, s, t, c);
        SendLogged(s, t, e, c.b, k);
        ApiAcceptedGrows(s.log, Offered(t, e, Th(s, t).hold.Holds? && Th(s, t).hold.row == e.inst - 1, c.b));
        assert Execute(cfg, s, t, c) == SendTo(s, t, e, c.b, k);
        hide Execute, Ready, SendTo, EventOf;
      } else {
        PlainCounter(cfg, s, t, c);
        LogStep(cfg, s, t, c);
        hide Execute, Ready;
        if p.Mark? {
          ApiAcceptedGrows(s.log, Noted(p.note));
        }
      }
    case Poll(c) => DequeueCounts(cfg, s, c); ResetOrder.DequeueLog(cfg, s, c);
    case BeginMsg(m) =>
    case BeginApi(k, op) =>
  }

  lemma PlainCounter(cfg: Config, s: State, t: Tid, c: Choice)
    requires Ready(s, t, c) && !Th(s, t).prog.Send?
    ensures Execute(cfg, s, t, c).apiSends == s.apiSends
  {
    if Th(s, t).prog.WanSet? {
      TellKeepsQueue(cfg, s, c);
      hide Execute, Ready;
    } else if Th(s, t).prog.Receive? {
      hide Deliver;
    } else {
      PlainStep(cfg, s, t, c);
      hide Execute, Ready;
    }
  }

  lemma {:induction false} ApiCounterRun(cfg: Config, s: State, ls: seq<Label>)
    requires CanRun(cfg, s, ls) && s.apiSends == ApiAccepted(s.log)
    ensures After(cfg, s, ls).apiSends == ApiAccepted(After(cfg, s, ls).log)
    decreases ls
  {
    hide Next, Enabled, ApiAccepted;
    if ls != [] {
      ApiCounterNext(cfg, s, ls[0]);
      ApiCounterRun(cfg, Next(cfg, s, ls[0]), ls[1..]);
    }
  }

  /** The counter k is what the history says: the accepted sends of API threads. */
  lemma ApiCounterMeans(cfg: Config, s: State)
    requires Reachable(cfg, s)
    ensures s.apiSends == ApiAccepted(s.log)
  {
    hide Next, Enabled, CanRun, After;
    var s0: State, ls: seq<Label> :| Initial(cfg, s0) && CanRun(cfg, s0, ls) && s == After(cfg, s0, ls);
    ApiCounterRun(cfg, s0, ls);
  }

  /** The event thread is between messages: delivering, launching, or waiting. */
  predicate Settled(s: State) {
    Owed(s.ev.prog) == 0 && (Ends(s.ev.prog, ToDone) || Delivering(s.ev.prog).Some?)
  }

  lemma SettledStep(cfg: Config, s: State, l: Label)
    requires Inv(cfg, s) && Hist(s) && Settled(s) && Enabled(cfg, s, l) && (l.Poll? || (l.Run? && l.t == Ev))
    ensures var s' := Next(cfg, s, l);
            && Settled(s')
            && (if l.Poll? then s.queue != [] && s'.queue == s.queue[1..] && s'.dequeued == s.dequeued + [s.queue[0]]
                else s'.queue == s.queue && s'.dequeued == s.dequeued)
  {
    if l.Poll? {
      assert s.queue[0].inst > 0;
      DeliverShape(cfg, s.queue[0], l.c.b, l.c.pid);
      DequeueCounts(cfg, s, l.c);
      hide Inv, Hist, Owed, Ends, Delivering, Deliver;
    } else {
      SettledRun(cfg, s, l.c);
    }
  }

  lemma SettledRun(cfg: Config, s: State, c: Choice)
    requires Inv(cfg, s) && Hist(s) && Settled(s) && Ready(s, Ev, c)
    ensures var s' := Execute(cfg, s, Ev, c); Settled(s') && s'.queue == s.queue && s'.dequeued == s.dequeued
  {
    OtherThreads(cfg, s, Ev, c);
    var p := s.ev.prog;
    if Delivering(p).Some? {
      DeliveryStep(cfg, s, c);
      hide Inv, Hist, Execute;
      assert Ends(Done, ToDone);
    } else {
      assert !p.Receive? && !p.Send? && !p.WanSet?;
      NextShape(cfg, s, Ev, c, ToDone);
      PlainStep(cfg, s, Ev, c);
      hide Inv, Hist, Execute, Ready, Owed, Ends, Delivering;
    }
  }

  /** The event thread's accepted sends up to the next message. */
  function EvAccepted(cfg: Config, s: State, ls: seq<Label>): nat
    requires CanRun(cfg, s, ls)
    decreases ls
  {
    if ls == [] || ls[0].BeginMsg? then 0
    else
      (if ls[0].Run? && ls[0].t == Ev && s.ev.prog.Send? && ls[0].c.b then 1 else 0)
      + EvAccepted(cfg, Next(cfg, s, ls[0]), ls[1..])
  }

  /** The messages of the run that had two or more events accepted. */
  function DoubleMsgs(cfg: Config, s: State, ls: seq<Label>): nat
    requires CanRun(cfg, s, ls)
    decreases ls
  {
    if ls == [] then 0
    else
      var s1 := Next(cfg, s, ls[0]);
      (if ls[0].BeginMsg? && EvAccepted(cfg, s1, ls[1..]) >= 2 then 1 else 0) + DoubleMsgs(cfg, s1, ls[1..])
  }

  /** The messages that got their second event accepted in the run; one in progress
      had `had` of them before. */
  function Doubled(cfg: Config, s: State, ls: seq<Label>, had: nat): nat
    requires CanRun(cfg, s, ls)
  {
    (if had < 2 <= had + EvAccepted(cfg, s, ls) then 1 else 0) + DoubleMsgs(cfg, s, ls)
  }

  lemma OtherStep(cfg: Config, s: State, l: Label)
    requires Inv(cfg, s) && Enabled(cfg, s, l) && (l.BeginApi? || (l.Run? && l.t.Api?))
    ensures Next(cfg, s, l).ev == s.ev && Next(cfg, s, l).doubles == s.doubles && Next(cfg, s, l).cur == s.cur
  {
    if l.Run? {
      OtherThreads(cfg, s, l.t, l.c);
      if Th(s, l.t).prog.Send? {
        SendEffect(cfg, s, l.t, l.c);
      } else {
        PlainStep(cfg, s, l.t, l.c);
      }
      hide Inv, Execute, Accepted, EventOf;
    }
  }

  /** Between messages the event thread offers nothing. */
  lemma {:induction false} SettledAccepts(cfg: Config, s: State, ls: seq<Label>)
    requires Inv(cfg, s) && Hist(s) && Settled(s) && CanRun(cfg, s, ls)
    ensures EvAccepted(cfg, s, ls) == 0
    decreases ls
  {
    hide Inv, Hist, Next, Enabled, Ends, Delivering;
    if ls != [] && !ls[0].BeginMsg? {
      if ls[0].Poll? || (ls[0].Run? && ls[0].t == Ev) {
        SettledStep(cfg, s, ls[0]);
      } else {
        OtherStep(cfg, s, ls[0]);
      }
      InvNext(cfg, s, ls[0]);
      HistNext(cfg, s, ls[0]);
      SettledAccepts(cfg, Next(cfg, s, ls[0]), ls[1..]);
    }
  }

  /** A step of the event thread that is no send: the count of the message stands,
      or the message is over. */
  lemma QuietStep(cfg: Config, s: State, l: Label)
    requires Inv(cfg, s) && Hist(s) && Enabled(cfg, s, l)
    requires l.Poll? || l.BeginMsg? || (l.Run? && l.t == Ev && !s.ev.prog.Send?)
    ensures var s' := Next(cfg, s, l);
            && s'.doubles == s.doubles && (l.BeginMsg? ==> s.cur == 0)
            && (s'.cur == s.cur || (s'.cur == 0 && Settled(s')))
  {
    assert Ends(Done, ToDone) && Owed(Done) == 0;
    if l.Poll? {
      SettledStep(cfg, s, l);
    } else if l.Run? {
      if s.ev.prog.Receive? {
        OverAtReceive(cfg, s, l.c);
      } else if s.ev.prog.WanSet? {
        TellKeepsQueue(cfg, s, l.c);
      } else {
        PlainStep(cfg, s, Ev, l.c);
      }
    }
    hide Inv, Owed, Delivering, ProcessPppState, Execute, Ready, Dequeue, Accepted, Sets;
  }

  lemma OverAtReceive(cfg: Config, s: State, c: Choice)
    requires Inv(cfg, s) && s.ev.prog.Receive? && Ready(s, Ev, c)
    ensures var s' := Execute(cfg, s, Ev, c); s'.doubles == s.doubles && s'.cur == 0 && Settled(s')
  {
    assert Ends(Done, ToDone) && Owed(Done) == 0;
    if s.queue != [] {
      assert s.queue[0].inst > 0;
      DeliverShape(cfg, s.queue[0], c.b, c.pid);
      DequeueCounts(cfg, s, c);
    }
    hide Inv, Ends, Owed, Delivering, Deliver;
  }

  /** The counter t: the messages of the run that got their second event accepted. */
  lemma {:induction false} MessageCounterRun(cfg: Config, s: State, ls: seq<Label>)
    requires Inv(cfg, s) && Hist(s) && CanRun(cfg, s, ls)
    ensures After(cfg, s, ls).doubles == s.doubles + Doubled(cfg, s, ls, s.cur)
    decreases ls
  {
    hide Inv, Hist, Next, Enabled, Settled;
    if ls != [] {
      var l, s1 := ls[0], Next(cfg, s, ls[0]);
      InvNext(cfg, s, l);
      HistNext(cfg, s, l);
      MessageCounterRun(cfg, s1, ls[1..]);
      if l.BeginApi? || (l.Run? && l.t.Api?) {
        OtherStep(cfg, s, l);
      } else if l.Run? && s.ev.prog.Send? {
        EvSendCounts(cfg, s, l.c);
      } else {
        QuietStep(cfg, s, l);
        if Settled(s1) {
          SettledAccepts(cfg, s1, ls[1..]);
        }
      }
    }
  }

  lemma EvSendCounts(cfg: Config, s: State, c: Choice)
    requires Enabled(cfg, s, Run(Ev, c)) && s.ev.prog.Send?
    ensures var s' := Next(cfg, s, Run(Ev, c));
            && s'.cur == s.cur + (if c.b then 1 else 0)
            && s'.doubles == s.doubles + (if c.b && s.cur == 1 then 1 else 0)
  {
    SendEffect(cfg, s, Ev, c);
    hide Execute, Accepted, EventOf;
  }

  /** The counter t is what the run shows: the messages whose handling got two
      events accepted. */
  lemma MessageCounterMeans(cfg: Config, s: State, ls: seq<Label>)
    requires Reachable(cfg, s) && CanRun(cfg, s, ls)
    ensures After(cfg, s, ls).doubles == s.doubles + Doubled(cfg, s, ls, s.cur)
    ensures s.ev.prog == Done ==> After(cfg, s, ls).doubles == s.doubles + DoubleMsgs(cfg, s, ls)
  {
    HistReachable(cfg, s);
    MessageCounterRun(cfg, s, ls);
    if s.ev.prog == Done {
      assert Owed(Done) == 0;
      assert s.cur == 0;
      hide Inv, Owed;
      SettledAccepts(cfg, s, ls);
    }
    hide Reachable, Inv, Hist, CanRun, After;
  }

  // ------------------------------------------------------------- occupancy of a run

  /** k and t of a run: the API sends accepted in it, and the messages that got
      their second event accepted in it. */
  function Explaining(cfg: Config, s0: State, ls: seq<Label>): int
    requires CanRun(cfg, s0, ls)
  {
    ApiAccepted(After(cfg, s0, ls).log) - ApiAccepted(s0.log) + Doubled(cfg, s0, ls, s0.cur)
  }

  lemma RunExplained(cfg: Config, s0: State, ls: seq<Label>)
    requires Reachable(cfg, s0) && s0.queue == [] && CanRun(cfg, s0, ls)
    ensures var s := After(cfg, s0, ls);
            && Inv(cfg, s) && Hist(s) && Explained(s, s0.apiSends, s0.doubles)
            && (s.apiSends - s0.apiSends) + (s.doubles - s0.doubles) == Explaining(cfg, s0, ls)
  {
    hide Reachable, Inv, Hist, CanRun, After, Doubled, ApiAccepted;
    HistReachable(cfg, s0);
    ExplainedRun(cfg, s0, ls, s0.apiSends, s0.doubles);
    MessageCounterMeans(cfg, s0, ls);
    ApiCounterMeans(cfg, s0);
    ResetOrder.ReachableRuns(cfg, s0, ls);
    ApiCounterMeans(cfg, After(cfg, s0, ls));
  }

  /** Over a run from an empty queue the occupancy never exceeds k + t + 1. */
  lemma OccupancyBound(cfg: Config, s0: State, ls: seq<Label>)
    requires Reachable(cfg, s0) && s0.queue == [] && CanRun(cfg, s0, ls)
    ensures |After(cfg, s0, ls).queue| <= Explaining(cfg, s0, ls) + 1
  {
    hide Reachable, Inv, Hist, CanRun, After, Explaining;
    RunExplained(cfg, s0, ls);
  }

  /** As long as k + t, this send counted in, is at most 99, no send blocks,
      whatever its outcome. */
  lemma NoSendBlocks(cfg: Config, s0: State, ls: seq<Label>, t: Tid, c: Choice)
    requires Reachable(cfg, s0) && s0.queue == [] && CanRun(cfg, s0, ls)
    requires ValidTid(After(cfg, s0, ls), t) && Th(After(cfg, s0, ls), t).prog.Send?
    requires Explaining(cfg, s0, ls) + (if t.Api? || After(cfg, s0, ls).cur == 1 then 1 else 0) <= 99
    ensures Ready(After(cfg, s0, ls), t, c)
  {
    hide Reachable, Inv, CanRun, After, Delivering, Ends, Accepted, Sets, Explaining;
    RunExplained(cfg, s0, ls);
    OwedBySend(Th(After(cfg, s0, ls), t).prog);
    hide Owed;
  }

  // ------------------------------------------------------------- n events, n iterations

  /** Only the event thread runs, and no message arrives. */
  predicate NoInput(ls: seq<Label>) {
    forall k :: 0 <= k < |ls| ==> ls[k].Poll? || (ls[k].Run? && ls[k].t == Ev)
  }

  function Iterations(ls: seq<Label>): nat {
    if ls == [] then 0 else (if ls[0].Poll? then 1 else 0) + Iterations(ls[1..])
  }

  lemma {:induction false} IterationsDeliver(cfg: Config, s: State, ls: seq<Label>)
    requires Inv(cfg, s) && Hist(s) && Settled(s) && CanRun(cfg, s, ls) && NoInput(ls)
    ensures var s', n := After(cfg, s, ls), Iterations(ls);
            && n <= |s.queue| && s'.queue == s.queue[n..] && s'.dequeued == s.dequeued + s.queue[..n]
    decreases ls
  {
    hide Inv, Hist, Settled, Next, Enabled;
    if ls != [] {
      var s1 := Next(cfg, s, ls[0]);
      SettledStep(cfg, s, ls[0]);
      InvNext(cfg, s, ls[0]);
      HistNext(cfg, s, ls[0]);
      IterationsDeliver(cfg, s1, ls[1..]);
      var m := Iterations(ls[1..]);
      if ls[0].Poll? {
        assert s.queue[..m + 1] == [s.queue[0]] + s.queue[1..][..m];
      }
    } else {
      assert s.queue[..0] == [];
    }
  }

  /** With no further input, n queued events take exactly n iterations and leave
      in order; the parameter events among them have then been told, in order. */
  lemma NEventsNIterations(cfg: Config, s: State, ls: seq<Label>)
    requires Reachable(cfg, s) && s.ev.prog == Done && CanRun(cfg, s, ls) && NoInput(ls)
    ensures Iterations(ls) <= |s.queue|
    ensures var s' := After(cfg, s, ls);
            && (s'.queue == [] <==> Iterations(ls) == |s.queue|)
            && s'.dequeued == s.dequeued + s.queue[..Iterations(ls)]
            && (s'.queue == [] && s'.ev.prog == Done ==> s'.told == Sets(s.dequeued + s.queue))
  {
    assert Ends(Done, ToDone) && InHand(Done) == [];
    hide Reachable, Inv, Next, Enabled, CanRun, After, Accepted, Sets, Ends, Delivering;
    HistReachable(cfg, s);
    assert Settled(s);
    IterationsDeliver(cfg, s, ls);
    ResetOrder.ReachableRuns(cfg, s, ls);
    var s' := After(cfg, s, ls);
    HistReachable(cfg, s');
    if s'.queue == [] && s'.ev.prog == Done {
      assert s'.told + [] == s'.told;
      assert s.queue[..|s.queue|] == s.queue;
    }
  }

  // ------------------------------------------------------------- a full queue

  /** The only thread that empties the queue waits for room in it. */
  predicate Jammed(s: State) {
    |s.queue| == MAX_QUEUE_LENGTH && s.ev.prog.Send?
  }

  /** The event thread's send does not fail. */
  predicate EvSendsSucceed(ls: seq<Label>) {
    forall k :: 0 <= k < |ls| && ls[k].Run? && ls[k].t == Ev ==> ls[k].c.b
  }

  lemma JamStep(cfg: Config, s: State, l: Label)
    requires Inv(cfg, s) && Jammed(s) && Enabled(cfg, s, l) && (l.Run? && l.t == Ev ==> l.c.b)
    ensures Jammed(Next(cfg, s, l)) && Next(cfg, s, l).queue == s.queue && Next(cfg, s, l).ev == s.ev
    ensures Next(cfg, s, l).told == s.told
  {
    match l
    case Run(t, c) =>
      OtherThreads(cfg, s, t, c);
      assert t.Api?;
      if Th(s, t).prog.Send? {
        SendEffect(cfg, s, t, c);
      } else {
        PlainStep(cfg, s, t, c);
      }
      hide Inv, Execute, Accepted, Owed, EventOf;
    case BeginApi(k, op) =>
      hide Inv;
  }

  /** Once jammed, always jammed, as long as the event thread's own send does not
      fail: nothing is delivered any more and no API send gets through. */
  lemma {:induction false} JamForEver(cfg: Config, s: State, ls: seq<Label>)
    requires Inv(cfg, s) && Jammed(s) && CanRun(cfg, s, ls) && EvSendsSucceed(ls)
    ensures Jammed(After(cfg, s, ls)) && After(cfg, s, ls).queue == s.queue && After(cfg, s, ls).told == s.told
    decreases ls
  {
    hide Inv, Jammed, Next, Enabled;
    if ls != [] {
      JamStep(cfg, s, ls[0]);
      InvNext(cfg, s, ls[0]);
      JamForEver(cfg, Next(cfg, s, ls[0]), ls[1..]);
    }
  }
}
