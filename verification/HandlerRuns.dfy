/** Each handler, run by itself, is a run of the event machine: the shared state
    ends as the handler's own specification says. */
module HandlerRuns {
  import opened CText
  import opened Ipcp
  import opened Paths
  import opened Program
  import opened Machine
  import opened Invariant
  import opened Discipline
  import opened Bounds
  import opened Sections
  import opened Alone
  import opened Outcomes
  import opened Manager
  import Progress
  import WanLookup

  ghost predicate AllFree(s: State) {
    forall i :: 0 <= i < |s.locks| ==> s.locks[i] == Free
  }

  /** The event thread went from s to s' by itself and stands at p. */
  ghost predicate EvRan(cfg: Config, s: State, s': State, p: Prog) {
    && Inv(cfg, s') && s'.ev == Thread(p, NoHold) && s'.api == s.api
    && s'.told == s.told && s'.dequeued == s.dequeued && s'.wan == s.wan
    && |s.log| <= |s'.log| && s'.clean == (s.clean && AllTook(s'.log[|s.log|..]))
  }

  lemma EvAlone(s: State, s': State)
    requires OthersSame(s, s', Ev)
    ensures s'.api == s.api
  {
    forall k: nat | k < |s.api|
      ensures s'.api[k] == s.api[k]
    {
      assert ValidTid(s, Api(k)) && Th(s', Api(k)) == Th(s, Api(k));
    }
  }

  /** Entering one section. */
  lemma OneSection(cfg: Config, s: State, e: Entry, cs: seq<Choice>) returns (ls: seq<Label>)
    requires Inv(cfg, s) && AllFree(s) && s.ev.prog == Enter(e) && |s.queue| + EntryOwed(e) <= MAX_QUEUE_LENGTH
    ensures 0 <= RowOf(e) < cfg.n == |s.rows| && CanRun(cfg, s, ls)
    ensures var s', o := After(cfg, s, ls), Entered(cfg, Ev, e, SharedOf(s), cs);
            EvRan(cfg, s, s', o.next) && SharedOf(s') == Played(SharedOf(s), RowOf(e), o)
  {
    Sizes(cfg, s);
    hide Inv, Play, Body, AllTook, Taken;
    ls := EntryRuns(cfg, s, Ev, e, cs);
    var s' := After(cfg, s, ls);
    EvAlone(s, s');
    assert Th(s', Ev) == s'.ev;
    var items := Entered(cfg, Ev, e, SharedOf(s), cs).items;
    assert s'.log == s.log + items && (s.log + items)[|s.log|..] == items;
  }

  // ------------------------------------------------------------- messages

  /** A rejection sent without the lock. */
  lemma RejectRuns(cfg: Config, s: State, inst: int, cs: seq<Choice>) returns (ls: seq<Label>)
    requires Inv(cfg, s) && s.ev == Thread(IpcpDownUnlocked(inst), NoHold) && |s.queue| < MAX_QUEUE_LENGTH
    ensures CanRun(cfg, s, ls)
    ensures EvRan(cfg, s, After(cfg, s, ls), Receive) && SharedOf(After(cfg, s, ls)) == Rejected(SharedOf(s), inst, cs).sh
  {
    var l := Run(Ev, Head(cs));
    InvNext(cfg, s, l);
    hide Inv;
    ls := [l];
    var s' := Next(cfg, s, l);
    assert ls[1..] == [] && CanRun(cfg, s', []) && After(cfg, s, ls) == s';
    var item := Offered(Ev, BusSet(inst, IpcpStatus, VDown), false, l.c.b);
    TakenOne(item);
    hide Taken;
    assert s'.log == s.log + [item];
    assert s'.log[|s.log|..] == [item];
    assert s.queue + [] == s.queue;
  }

  lemma DispatchRuns(cfg: Config, s: State, i: nat, m: Msg, cs: seq<Choice>) returns (ls: seq<Label>)
    requires Inv(cfg, s) && AllFree(s) && i < cfg.n == |s.rows| && s.ev == Thread(Dispatch(i + 1, m), NoHold)
    requires |s.queue| + 2 <= MAX_QUEUE_LENGTH
    ensures CanRun(cfg, s, ls)
    ensures EvRan(cfg, s, After(cfg, s, ls), Receive) && SharedOf(After(cfg, s, ls)) == HandleRouted(SharedOf(s), i, m, cs).sh
  {
    var p, r := Dispatch(i + 1, m), s.rows[i];
    if p.Send? {
      ls := RejectRuns(cfg, s, i + 1, cs);
      hide Inv, Rejected, CanRun, After, Played;
    } else if p.Receive? {
      ls := [];
      assert CanRun(cfg, s, []) && s.log[|s.log|..] == [];
    } else {
      EnteredOutcome(cfg, i, m, r, cs);
      hide Inv, CanRun, After, Played, Body, Play, IpcpOutcome, StateOutcome, Ipv6cpOutcome, EvRan;
      ls := OneSection(cfg, s, p.e, cs);
    }
  }

  /** The section a routed message enters. */
  lemma EnteredOutcome(cfg: Config, i: nat, m: Msg, r: Row, cs: seq<Choice>)
    requires Dispatch(i + 1, m).Enter?
    ensures var e := Dispatch(i + 1, m).e;
            && RowOf(e) == i && EntryOwed(e) <= 2
            && Play(cfg, Ev, Body(cfg, e), i, 1, r, cs, true) ==
               if m.state == IpcpCompleted then IpcpOutcome(i, m.ipcp, r, cs)
               else if m.state in {Ipv6cpCompleted, Ipv6cpFailed} then Ipv6cpOutcome(i, m, r, cs)
               else StateOutcome(i, m, r, cs)
    ensures m.state == IpcpCompleted ==> AllPresent(m.ipcp)
    ensures m.state != IpcpFailed && m.state != OtherState
  {
    hide Play, IpcpOutcome, StateOutcome, Ipv6cpOutcome, StateBody, IpcpBody, Ipv6cpBody;
    if m.state == IpcpCompleted {
      PlayIpcp(cfg, i, m.ipcp, r, cs, true);
    } else {
      PlayIpv6cp(cfg, i, m, r, cs, true);
      PlayState(cfg, i, m, r, cs, true);
    }
  }

  /** What is left to do from row i on. */
  function FromRow(sh: Shared, i: nat, m: Msg, cs: seq<Choice>): Handled {
    var f := FirstWithPid(sh.rows, m.pid, i);
    FirstInRange(sh.rows, m.pid, i);
    if f.None? then Handled(sh, cs) else HandleRouted(sh, f.value, m, cs)
  }

  lemma {:induction false} ScanRuns(cfg: Config, s: State, i: nat, m: Msg, cs: seq<Choice>) returns (ls: seq<Label>)
    requires Inv(cfg, s) && AllFree(s) && i <= cfg.n == |s.rows| && s.ev == Thread(ScanFrom(cfg, i, m), NoHold)
    requires |s.queue| + 2 <= MAX_QUEUE_LENGTH
    ensures CanRun(cfg, s, ls)
    ensures EvRan(cfg, s, After(cfg, s, ls), Receive) && SharedOf(After(cfg, s, ls)) == FromRow(SharedOf(s), i, m, cs).sh
    decreases cfg.n - i
  {
    if i == cfg.n {
      ls := [];
      assert CanRun(cfg, s, []) && s.log[|s.log|..] == [];
    } else {
      var e, r, sh := EScan(i, m), s.rows[i], SharedOf(s);
      PlayScan(cfg, i, m, r, cs);
      NothingPlayed(sh, i, cs);
      hide Inv, CanRun, After, HandleRouted, Play, Body, Dispatch;
      var first := OneSection(cfg, s, e, cs);
      var s1 := After(cfg, s, first);
      assert SharedOf(s1) == sh by { SameRow(sh, i, Entered(cfg, Ev, e, sh, cs)); }
      assert s1.log[|s.log|..] == [];
      var rest: seq<Label>;
      if r.pid == m.pid {
        rest := DispatchRuns(cfg, s1, i, m, cs);
      } else {
        rest := ScanRuns(cfg, s1, i + 1, m, cs);
      }
      RunsCompose(cfg, s, first, rest);
      ls := first + rest;
    }
  }

  lemma SameRow(sh: Shared, i: nat, o: Outcome)
    requires i < |sh.rows| && o.items == [] && o.row == sh.rows[i]
    ensures Played(sh, i, o) == sh
  {
    NothingPlayed(sh, i, o.left);
  }

  /** PppMgr_ProcessPppState is a run of the event thread's steps. */
  lemma MessageRuns(cfg: Config, s: State, m: Msg, cs: seq<Choice>) returns (ls: seq<Label>)
    requires Inv(cfg, s) && AllFree(s) && s.ev.prog == Done && m.pid != 0 && |s.queue| + 2 <= MAX_QUEUE_LENGTH
    ensures CanRun(cfg, s, ls)
    ensures EvRan(cfg, s, After(cfg, s, ls), Receive) && SharedOf(After(cfg, s, ls)) == HandleMessage(SharedOf(s), m, cs).sh
  {
    hide Inv, HandleRouted, FirstWithPid;
    Sizes(cfg, s);
    DoneHoldsNothing(cfg, s, Ev);
    var l := BeginMsg(m);
    InvNext(cfg, s, l);
    var s1 := Next(cfg, s, l);
    assert s1 == s.(ev := Thread(ProcessPppState(cfg, m), NoHold));
    var rest: seq<Label> := [];
    if m.stateChange {
      rest := ScanRuns(cfg, s1, 0, m, cs);
    } else {
      assert CanRun(cfg, s1, []) && s1.log[|s1.log|..] == [];
    }
    ls := [l] + rest;
    assert ls[1..] == rest;
  }

  // ------------------------------------------------------------- the API

  /** Interface_SetParamBoolValue and Interface_GetEntry are runs of an API
      thread's steps. */
  lemma ApiRuns(cfg: Config, s: State, k: nat, op: ApiOp, cs: seq<Choice>) returns (ls: seq<Label>)
    requires Inv(cfg, s) && AllFree(s) && k < |s.api| && s.api[k].prog == Done && op.i < cfg.n
    requires |s.queue| + ApiOwed(op) <= MAX_QUEUE_LENGTH
    ensures CanRun(cfg, s, ls) && |s.rows| == cfg.n
    ensures var s' := After(cfg, s, ls);
            var o := ApiOutcome(cfg, Api(k), op, s.rows[op.i], cs);
            && Inv(cfg, s') && ValidTid(s', Api(k)) && Th(s', Api(k)) == Thread(Done, NoHold)
            && SharedOf(s') == Played(SharedOf(s), op.i, o)
            && |s'.api| == |s.api| && s'.ev == s.ev && s'.wan == s.wan && s'.clean == (s.clean && AllTook(o.items))
  {
    hide Inv, Play, Played, ApiOutcome, AllTook;
    Sizes(cfg, s);
    DoneHoldsNothing(cfg, s, Api(k));
    var l, e := BeginApi(k, op), EApi(op);
    InvNext(cfg, s, l);
    var s1 := Next(cfg, s, l);
    PlayApi(cfg, Api(k), op, s.rows[op.i], cs);
    ApiEnds(cfg, Api(k), op, s.rows[op.i], cs);
    var rest := EntryRuns(cfg, s1, Api(k), e, cs);
    ls := [l] + rest;
    assert ls[1..] == rest;
    assert Th(After(cfg, s1, rest), Ev) == Th(s1, Ev);
  }

  lemma ApiEnds(cfg: Config, a: Tid, op: ApiOp, r: Row, cs: seq<Choice>)
    ensures ApiOutcome(cfg, a, op, r, cs).next == Done
  {
  }

  // ------------------------------------------------------------- deliveries

  /** Reading a slot: lock, load, release. */
  lemma SlotRuns(cfg: Config, s: State, ev: Event) returns (ls: seq<Label>)
    requires Inv(cfg, s) && AllFree(s) && s.ev == Thread(Enter(ESlot(ev)), NoHold) && 1 <= ev.inst <= cfg.n == |s.rows|
    ensures CanRun(cfg, s, ls) && Inv(cfg, After(cfg, s, ls))
    ensures var r := s.rows[ev.inst - 1];
            After(cfg, s, ls) == s.(ev := Thread(WanSet(ev, Done), NoHold), wanReg := r.wan, virtReg := r.virt)
  {
    Sizes(cfg, s);
    var i, l := ev.inst - 1, Run(Ev, Choice(false, 0));
    var s1 := Next(cfg, s, l);
    InvNext(cfg, s, l);
    InvNext(cfg, s1, l);
    var s2 := Next(cfg, s1, l);
    InvNext(cfg, s2, l);
    hide Inv;
    var s3 := Next(cfg, s2, l);
    assert s3.locks == s.locks;
    ls := [l, l, l];
    assert ls[1..] == [l, l] && [l, l][1..] == [l] && [l][1..] == [];
    assert CanRun(cfg, s3, []) && After(cfg, s3, []) == s3;
    assert CanRun(cfg, s2, [l]) && After(cfg, s2, [l]) == s3;
    assert CanRun(cfg, s1, [l, l]) && After(cfg, s1, [l, l]) == s3;
  }

  /** A queued parameter event: received, and told to the WAN manager. */
  lemma TellFirst(cfg: Config, ev: Event, c: Choice)
    requires ev.BusSet? && ev.inst > 0
    ensures Deliver(cfg, ev, c.b, c.pid) == Enter(ESlot(ev))
  {
  }

  lemma TellRuns(cfg: Config, s: State, cs: seq<Choice>) returns (ls: seq<Label>)
    requires Inv(cfg, s) && AllFree(s) && s.ev.hold == NoHold && s.ev.prog in {Receive, Done} && |s.rows| == cfg.n
    requires s.queue != [] && s.queue[0].BusSet?
    ensures CanRun(cfg, s, ls) && 1 <= s.queue[0].inst <= cfg.n
    ensures var s', ev := After(cfg, s, ls), s.queue[0];
            var r := s.rows[ev.inst - 1];
            && Inv(cfg, s') && s'.ev == Thread(Done, NoHold) && SharedOf(s') == SharedOf(s).(queue := s.queue[1..])
            && s'.told == s.told + [ev] && s'.dequeued == s.dequeued + [ev] && s'.api == s.api
            && s'.clean == (s.clean && Head(cs).b)
            && s'.wan == if Head(cs).b then s.wan[StatusName(cfg.unified, ev.param, r.wan, r.virt) := ev.val] else s.wan
  {
    hide Inv, StatusName, Next, Enabled, Deliver;
    var ev, c := s.queue[0], Choice(false, 0);
    var l := Taking(s, c);
    Received(cfg, s, c);
    var s1 := Next(cfg, s, l);
    TellFirst(cfg, ev, c);
    var mid := SlotRuns(cfg, s1, ev);
    var s2 := After(cfg, s1, mid);
    var last := ToldRuns(cfg, s2, ev, Head(cs));
    RunsCompose(cfg, s1, mid, last);
    ls := [l] + (mid + last);
    assert ls[1..] == mid + last;
  }

  /** The step that takes an event: after a message, or at the next turn. */
  function Taking(s: State, c: Choice): Label {
    if s.ev.prog == Receive then Run(Ev, c) else Poll(c)
  }

  /** mq_receive of a non-empty queue. */
  lemma Received(cfg: Config, s: State, c: Choice)
    requires Inv(cfg, s) && s.ev.hold == NoHold && s.ev.prog in {Receive, Done} && s.queue != []
    ensures 1 <= s.queue[0].inst <= cfg.n && Enabled(cfg, s, Taking(s, c)) && Inv(cfg, Next(cfg, s, Taking(s, c)))
    ensures var s', e := Next(cfg, s, Taking(s, c)), s.queue[0];
            s' == s.(queue := s.queue[1..], dequeued := s.dequeued + [e], cur := 0, wanReg := -1, virtReg := -1,
                     ev := Thread(Deliver(cfg, e, c.b, c.pid), NoHold))
  {
    InvNext(cfg, s, Taking(s, c));
    hide Deliver, RowOk, ThreadOk;
  }

  /** The set itself. */
  lemma ToldRuns(cfg: Config, s: State, ev: Event, c: Choice) returns (ls: seq<Label>)
    requires Inv(cfg, s) && s.ev == Thread(WanSet(ev, Done), NoHold) && ev.BusSet?
    ensures CanRun(cfg, s, ls)
    ensures var s' := After(cfg, s, ls);
            && Inv(cfg, s') && s'.ev == Thread(Done, NoHold) && SharedOf(s') == SharedOf(s)
            && s'.told == s.told + [ev] && s'.dequeued == s.dequeued && s'.api == s.api && s'.clean == (s.clean && c.b)
            && s'.wan == if c.b then s.wan[StatusName(cfg.unified, ev.param, s.wanReg, s.virtReg) := ev.val] else s.wan
  {
    var l := Run(Ev, c);
    InvNext(cfg, s, l);
    hide Inv, StatusName;
    ls := [l];
    assert ls[1..] == [] && CanRun(cfg, Next(cfg, s, l), []) && After(cfg, s, ls) == Next(cfg, s, l);
  }

  /** A queued start event: received, and the client launched if it can be. The
      tables are fixed, but a query may fail. */
  lemma FirstThen(cfg: Config, s: State, l: Label, rest: seq<Label>)
    requires Enabled(cfg, s, l) && CanRun(cfg, Next(cfg, s, l), rest)
    ensures CanRun(cfg, s, [l] + rest) && After(cfg, s, [l] + rest) == After(cfg, Next(cfg, s, l), rest)
  {
    hide Enabled, Next;
    assert ([l] + rest)[1..] == rest;
  }

  lemma NoSteps(cfg: Config, s: State)
    ensures CanRun(cfg, s, []) && After(cfg, s, []) == s
  {
  }

  lemma NothingQueued(sh: Shared, i: nat, o: Outcome)
    requires i < |sh.rows| && o.items == []
    ensures Played(sh, i, o) == sh.(rows := sh.rows[i := o.row])
  {
    assert sh.queue + [] == sh.queue && sh.log + [] == sh.log;
  }

  /** The launch itself, from the lock on. */
  lemma StartRuns(cfg: Config, s: State, slot: WanLookup.Outcome, pid: nat, inst: int, cs: seq<Choice>) returns (ls: seq<Label>)
    requires Inv(cfg, s) && AllFree(s) && s.ev == Thread(Enter(EStart(inst, slot, pid)), NoHold)
    requires 1 <= inst <= cfg.n == |s.rows| && slot.Found? && |s.queue| <= MAX_QUEUE_LENGTH
    ensures CanRun(cfg, s, ls) && Inv(cfg, After(cfg, s, ls))
    ensures var s', o := After(cfg, s, ls), StartOutcome(slot, pid, s.rows[inst - 1], cs);
            && s'.ev == Thread(Done, NoHold) && SharedOf(s') == SharedOf(s).(rows := s.rows[inst - 1 := o.row])
            && s'.wan == s.wan && s'.told == s.told && s'.dequeued == s.dequeued && s'.api == s.api && s'.clean == s.clean
  {
    var i, e := inst - 1, EStart(inst, slot, pid);
    PlayStart(cfg, i, slot, pid, s.rows[i], cs, true);
    StartEnds(slot, pid, s.rows[i], cs);
    hide Inv, Play, Played, StartBody, StartOutcome;
    ls := OneSection(cfg, s, e, cs);
    NothingLogged(s, After(cfg, s, ls), i, Entered(cfg, Ev, e, SharedOf(s), cs));
    NothingQueued(SharedOf(s), i, StartOutcome(slot, pid, s.rows[i], cs));
  }

  lemma LaunchFirst(cfg: Config, inst: int, slot: WanLookup.Outcome, c: Choice)
    requires 1 <= inst <= |cfg.slot| && slot in {cfg.slot[inst - 1], WanLookup.Failed} && c.b == slot.Found?
    ensures Deliver(cfg, Exec(inst), c.b, c.pid) == if c.b then Enter(EStart(inst, slot, c.pid)) else Done
  {
  }

  /** A start event that has been taken: launched if the lookup succeeded. */
  lemma TakenRuns(cfg: Config, s: State, slot: WanLookup.Outcome, pid: nat, inst: int, cs: seq<Choice>) returns (ls: seq<Label>)
    requires Inv(cfg, s) && AllFree(s) && 1 <= inst <= cfg.n == |s.rows| && |s.queue| <= MAX_QUEUE_LENGTH
    requires s.ev == Thread(if slot.Found? then Enter(EStart(inst, slot, pid)) else Done, NoHold)
    ensures CanRun(cfg, s, ls) && Inv(cfg, After(cfg, s, ls))
    ensures var s', r := After(cfg, s, ls), s.rows[inst - 1];
            && s'.ev == Thread(Done, NoHold)
            && SharedOf(s') == SharedOf(s).(rows := s.rows[inst - 1 := if slot.Found? then StartOutcome(slot, pid, r, cs).row else r])
            && s'.wan == s.wan && s'.told == s.told && s'.dequeued == s.dequeued && s'.api == s.api && s'.clean == s.clean
  {
    hide Inv, StartOutcome, CanRun, After;
    if slot.Found? {
      ls := StartRuns(cfg, s, slot, pid, inst, cs);
    } else {
      ls := [];
      NoSteps(cfg, s);
      SameRows(SharedOf(s), inst - 1);
    }
  }

  lemma LaunchRuns(cfg: Config, s: State, t: WanLookup.WanTable, newPid: nat, cs: seq<Choice>) returns (ls: seq<Label>)
    requires Inv(cfg, s) && AllFree(s) && s.ev.hold == NoHold && s.ev.prog in {Receive, Done} && |s.rows| == cfg.n
    requires s.queue != [] && |s.queue| <= MAX_QUEUE_LENGTH && s.queue[0].Exec? && 1 <= s.queue[0].inst <= cfg.n == |cfg.slot|
    requires WanLookup.Lookup(t, s.queue[0].inst) in {cfg.slot[s.queue[0].inst - 1], WanLookup.Failed}
    ensures CanRun(cfg, s, ls)
    ensures var s' := After(cfg, s, ls);
            && Inv(cfg, s') && s'.ev == Thread(Done, NoHold) && s'.dequeued == s.dequeued + [s.queue[0]]
            && SharedOf(s') == HandleTurn(Handled(SharedOf(s), cs), t, newPid).sh
            && s'.wan == s.wan && s'.told == s.told && s'.api == s.api && s'.clean == s.clean
  {
    hide WanLookup.Lookup, Inv, Next, Enabled, Deliver, StartOutcome, HandleTurn, TurnWan, StatusName, CanRun, After, StartBody;
    var ev := s.queue[0];
    var slot := WanLookup.Lookup(t, ev.inst);
    var c := Choice(slot.Found?, newPid);
    var l := Taking(s, c);
    Received(cfg, s, c);
    LaunchFirst(cfg, ev.inst, slot, c);
    var rest := TakenRuns(cfg, Next(cfg, s, l), slot, newPid, ev.inst, cs);
    ls := [l] + rest;
    FirstThen(cfg, s, l, rest);
    TurnIs(cfg, Handled(SharedOf(s), cs), s.wan, t, newPid);
  }

  lemma NothingLogged(s: State, s': State, i: nat, o: Outcome)
    requires i < |s.rows| && SharedOf(s') == Played(SharedOf(s), i, o) && o.items == []
    ensures s'.log == s.log && s.log[|s.log|..] == []
  {
  }

  lemma StartEnds(slot: WanLookup.Outcome, pid: nat, r: Row, cs: seq<Choice>)
    requires slot.Found?
    ensures StartOutcome(slot, pid, r, cs).next == Done && StartOutcome(slot, pid, r, cs).items == []
  {
  }
}
