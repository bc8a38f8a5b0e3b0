/** No deadlock, and an end to every operation: as long as the queued events and
    the events still owed by started operations fit the queue together, some
    thread can step until all operations are finished and the queue is empty. */
module Progress {
  import opened CText
  import opened Paths
  import opened Program
  import opened Machine
  import opened Invariant
  import opened Discipline
  import opened Bounds

  function OwedByAll(ths: seq<Thread>): nat {
    if ths == [] then 0 else Owed(ths[0].prog) + OwedByAll(ths[1..])
  }

  function WorkOfAll(cfg: Config, ths: seq<Thread>): nat {
    if ths == [] then 0 else Work(cfg, ths[0].prog) + WorkOfAll(cfg, ths[1..])
  }

  /** Queued events, and events started operations may still send. */
  function Load(s: State): nat {
    |s.queue| + Owed(s.ev.prog) + OwedByAll(s.api)
  }

  /** The measure that falls with every step. */
  function TotalWork(cfg: Config, s: State): nat {
    DELIVERY * |s.queue| + Work(cfg, s.ev.prog) + WorkOfAll(cfg, s.api)
  }

  predicate Idle(s: State) {
    && s.queue == [] && s.ev.prog == Done
    && (forall k :: 0 <= k < |s.api| ==> s.api[k].prog == Done)
  }

  lemma {:induction false} SumsUpdate(cfg: Config, ths: seq<Thread>, k: nat, th: Thread)
    requires k < |ths|
    ensures OwedByAll(ths[k := th]) == OwedByAll(ths) - Owed(ths[k].prog) + Owed(th.prog)
    ensures WorkOfAll(cfg, ths[k := th]) == WorkOfAll(cfg, ths) - Work(cfg, ths[k].prog) + Work(cfg, th.prog)
    ensures Owed(ths[k].prog) <= OwedByAll(ths)
  {
    if k == 0 {
      assert ths[0 := th][1..] == ths[1..];
    } else {
      SumsUpdate(cfg, ths[1..], k - 1, th);
      assert ths[k := th][1..] == ths[1..][k - 1 := th];
    }
  }

  /** How a step of thread t changes the sums. */
  lemma SumsStep(cfg: Config, s: State, s': State, t: Tid)
    requires ValidTid(s, t) && |s'.api| == |s.api|
    requires if t == Ev then s'.api == s.api else s'.ev == s.ev && s'.api == s.api[t.k := s'.api[t.k]]
    ensures Load(s') - Load(s) == |s'.queue| - |s.queue| + Owed(Th(s', t).prog) - Owed(Th(s, t).prog)
    ensures TotalWork(cfg, s') - TotalWork(cfg, s)
         == DELIVERY * (|s'.queue| - |s.queue|) + Work(cfg, Th(s', t).prog) - Work(cfg, Th(s, t).prog)
    ensures Owed(Th(s, t).prog) <= Load(s)
  {
    if t.Api? {
      SumsUpdate(cfg, s.api, t.k, s'.api[t.k]);
    }
  }

  // ------------------------------------------------------------- every step costs

  /** Thread t's new program with what it put into the queue. */
  ghost predicate Cheaper(cfg: Config, s: State, s': State, t: Tid)
    requires ValidTid(s, t)
  {
    && ValidTid(s', t)
    && |s'.queue| + Owed(Th(s', t).prog) <= |s.queue| + Owed(Th(s, t).prog)
    && DELIVERY * |s'.queue| + Work(cfg, Th(s', t).prog) < DELIVERY * |s.queue| + Work(cfg, Th(s, t).prog)
    && |s'.api| == |s.api|
    && (if t == Ev then s'.api == s.api else s'.ev == s.ev && s'.api == s.api[t.k := s'.api[t.k]])
  }

  lemma UnlockCost(cfg: Config, i: nat, k: Prog)
    ensures Work(cfg, Unlock(i, k)) == 1 + Work(cfg, k) && Owed(Unlock(i, k)) == Owed(k)
  {
  }

  lemma SlotCost(cfg: Config, e: Entry)
    requires e.ESlot? && RowOf(e) >= 0
    ensures Work(cfg, Body(cfg, e)) == 3 && Owed(Body(cfg, e)) == 0
  {
    var k := WanSet(e.ev, Done);
    assert Work(cfg, Done) == 0;
    assert Work(cfg, k) == 1 && Owed(k) == 0;
    UnlockCost(cfg, RowOf(e), k);
  }

  lemma EnterCost(cfg: Config, s: State, t: Tid, e: Entry)
    requires ValidTid(s, t) && Th(s, t).prog == Enter(e) && InTable(s, RowOf(e))
    ensures Cheaper(cfg, s, Acquire(s, t, RowOf(e), Body(cfg, e)), t)
  {
    if e.ESlot? {
      SlotCost(cfg, e);
    } else {
      BodyWithin(cfg, e);
    }
    hide Body, EntrySteps, EntryOwed;
  }

  lemma JumpCost(cfg: Config, s: State, t: Tid, i: nat, c: Code)
    requires Inv(cfg, s) && ValidTid(s, t) && Th(s, t).prog == Jump(i, c)
    ensures i < |s.rows| && Cheaper(cfg, s, Goto(s, t, CodeBody(cfg, c, s.rows[i].inst)), t)
  {
    assert ThreadOk(cfg, s, t);
    hide Agrees, ViewOf;
    assert RowOk(cfg, s, i);
    assert c.i == i;
    CodeBodyWithin(cfg, c, i);
    hide CodeBody, CodeSteps, CodeOwed;
  }

  lemma DeliverCost(cfg: Config, e: Event, queries: bool, pid: nat)
    ensures Owed(Deliver(cfg, e, queries, pid)) == 0 && Work(cfg, Deliver(cfg, e, queries, pid)) < DELIVERY
  {
  }

  lemma ReceiveCost(cfg: Config, s: State, c: Choice)
    requires s.ev.prog == Receive && Ready(s, Ev, c)
    ensures Cheaper(cfg, s, Execute(cfg, s, Ev, c), Ev)
  {
    if s.queue != [] {
      DeliverCost(cfg, s.queue[0], c.b, c.pid);
    }
    hide Deliver;
  }

  lemma SendCost(cfg: Config, s: State, t: Tid, c: Choice)
    requires Ready(s, t, c) && Th(s, t).prog.Send?
    ensures Cheaper(cfg, s, Execute(cfg, s, t, c), t)
  {
  }

  /** Instructions that neither enter, jump, send nor receive. */
  lemma PlainCost(cfg: Config, s: State, t: Tid, c: Choice)
    requires Ready(s, t, c)
    requires !Th(s, t).prog.Enter? && !Th(s, t).prog.Jump? && !Th(s, t).prog.Send? && !Th(s, t).prog.Receive?
    ensures Cheaper(cfg, s, Execute(cfg, s, t, c), t)
  {
    hide Apply, EntrySteps, EntryOwed, CodeSteps, CodeOwed, StatusName, Take, Body, NoRow, Deliver;
  }

  lemma RunCost(cfg: Config, s: State, t: Tid, c: Choice)
    requires Inv(cfg, s) && Ready(s, t, c)
    ensures Cheaper(cfg, s, Execute(cfg, s, t, c), t)
  {
    match Th(s, t).prog
    case Enter(e) =>
      EntryInTable(cfg, s, t, e);
      EnterCost(cfg, s, t, e);
      hide Cheaper, Inv;
    case Jump(i, code) =>
      JumpCost(cfg, s, t, i, code);
      hide Cheaper, Inv;
    case Receive => ReceiveCost(cfg, s, c);
    case Send(_, _, _, _) => SendCost(cfg, s, t, c);
    case _ => PlainCost(cfg, s, t, c);
  }

  lemma EntryInTable(cfg: Config, s: State, t: Tid, e: Entry)
    requires Inv(cfg, s) && ValidTid(s, t) && Th(s, t).prog == Enter(e)
    ensures InTable(s, RowOf(e)) && Th(s, t).hold == NoHold
  {
    hide Agrees, ViewOf;
    assert ThreadOk(cfg, s, t);
  }

  /** Every step except the start of a new operation lowers the measure, and none
      of them raises the load. */
  lemma StepCost(cfg: Config, s: State, l: Label)
    requires Inv(cfg, s) && Enabled(cfg, s, l) && !Starts(l)
    ensures TotalWork(cfg, Next(cfg, s, l)) < TotalWork(cfg, s)
    ensures Load(Next(cfg, s, l)) <= Load(s)
  {
    var s' := Next(cfg, s, l);
    match l
    case Run(t, c) =>
      RunCost(cfg, s, t, c);
      hide Execute, Inv, Ready;
      SumsStep(cfg, s, s', t);
    case Poll(c) =>
      DeliverCost(cfg, s.queue[0], c.b, c.pid);
      hide Inv, Deliver;
      SumsStep(cfg, s, s', Ev);
  }

  // ------------------------------------------------------------- somebody can step

  /** A thread holding a lock is never in need of another. */
  lemma HolderReady(cfg: Config, s: State, u: Tid) returns (c: Choice)
    requires Inv(cfg, s) && ValidTid(s, u) && Th(s, u).hold.Holds?
    requires Owed(Th(s, u).prog) > 0 ==> |s.queue| < MAX_QUEUE_LENGTH
    ensures Ready(s, u, c)
  {
    hide Agrees, ViewOf;
    assert ThreadOk(cfg, s, u);
    var p := Th(s, u).prog;
    c := Choice(!(p.TestAlive? && s.rows[p.i].pid == 0), 0);
  }

  lemma SomebodyReady(cfg: Config, s: State, t: Tid) returns (u: Tid, c: Choice)
    requires Inv(cfg, s) && Load(s) <= MAX_QUEUE_LENGTH && ValidTid(s, t) && Th(s, t).prog != Done
    ensures Ready(s, u, c)
  {
    OwedFits(cfg, s, t);
    if Th(s, t).hold.Holds? {
      u := t;
      c := HolderReady(cfg, s, t);
      return;
    }
    assert ThreadOk(cfg, s, t);
    hide Inside, Agrees, ViewOf;
    var p := Th(s, t).prog;
    if p.Enter? && s.locks[RowOf(p.e)].Held? {
      assert RowOk(cfg, s, RowOf(p.e));
      u := s.locks[RowOf(p.e)].owner;
      OwedFits(cfg, s, u);
      c := HolderReady(cfg, s, u);
    } else {
      u, c := t, Choice(true, 0);
    }
  }

  lemma OwedFits(cfg: Config, s: State, t: Tid)
    requires ValidTid(s, t) && Load(s) <= MAX_QUEUE_LENGTH
    ensures Owed(Th(s, t).prog) > 0 ==> |s.queue| < MAX_QUEUE_LENGTH
  {
    hide Owed;
    if t.Api? {
      SumsUpdate(cfg, s.api, t.k, s.api[t.k]);
    }
  }

  /** No deadlock: unless everything is finished, a step is possible that is not
      the start of something new. */
  lemma NoDeadlock(cfg: Config, s: State) returns (l: Label)
    requires Inv(cfg, s) && Load(s) <= MAX_QUEUE_LENGTH && !Idle(s)
    ensures Enabled(cfg, s, l) && !Starts(l)
  {
    hide Inv, Load, Ready;
    if s.ev.prog != Done {
      var u, c := SomebodyReady(cfg, s, Ev);
      l := Run(u, c);
    } else if s.queue != [] {
      l := Poll(Choice(true, 0));
    } else {
      var k :| 0 <= k < |s.api| && s.api[k].prog != Done;
      var u, c := SomebodyReady(cfg, s, Api(k));
      l := Run(u, c);
    }
  }

  predicate NothingNew(ls: seq<Label>) {
    forall k :: 0 <= k < |ls| ==> !Starts(ls[k])
  }

  /** Everything that is started ends: a run without new operations is no longer
      than the work there is, and it keeps the load within bounds. */
  lemma {:induction false} RunsEnd(cfg: Config, s: State, ls: seq<Label>)
    requires Inv(cfg, s) && CanRun(cfg, s, ls) && NothingNew(ls)
    ensures |ls| + TotalWork(cfg, After(cfg, s, ls)) <= TotalWork(cfg, s)
    ensures Load(After(cfg, s, ls)) <= Load(s)
    decreases ls
  {
    hide Inv, Load, TotalWork, Next, Enabled;
    if ls != [] {
      StepCost(cfg, s, ls[0]);
      InvNext(cfg, s, ls[0]);
      RunsEnd(cfg, Next(cfg, s, ls[0]), ls[1..]);
    }
  }

  /** From every state within the bound the started operations can be carried to
      their end, and then nothing is queued. */
  lemma {:induction false} Drain(cfg: Config, s: State) returns (ls: seq<Label>)
    requires Inv(cfg, s) && Load(s) <= MAX_QUEUE_LENGTH
    ensures CanRun(cfg, s, ls) && NothingNew(ls) && Idle(After(cfg, s, ls))
    decreases TotalWork(cfg, s)
  {
    hide Inv, Load, Next, Enabled, Idle;
    if Idle(s) {
      return [];
    }
    var l := NoDeadlock(cfg, s);
    StepCost(cfg, s, l);
    InvNext(cfg, s, l);
    var rest := Drain(cfg, Next(cfg, s, l));
    ls := [l] + rest;
    assert ls[1..] == rest;
  }

  /** The three facts about every reachable state within the bound. */
  lemma ReachableProgress(cfg: Config, s: State)
    requires Reachable(cfg, s) && Load(s) <= MAX_QUEUE_LENGTH
    ensures !Idle(s) ==> exists l :: Enabled(cfg, s, l) && !Starts(l)
    ensures forall ls :: CanRun(cfg, s, ls) && NothingNew(ls) ==>
              |ls| <= TotalWork(cfg, s) && Load(After(cfg, s, ls)) <= Load(s)
    ensures exists ls :: CanRun(cfg, s, ls) && NothingNew(ls) && Idle(After(cfg, s, ls))
  {
    hide Inv, Load, Next, Enabled, Idle, TotalWork, CanRun, After;
    InvReachable(cfg, s);
    if !Idle(s) {
      var l := NoDeadlock(cfg, s);
    }
    forall ls | CanRun(cfg, s, ls) && NothingNew(ls)
      ensures |ls| <= TotalWork(cfg, s) && Load(After(cfg, s, ls)) <= Load(s)
    {
      RunsEnd(cfg, s, ls);
    }
    var ls := Drain(cfg, s);
  }
}
