/** Where events go: what is accepted is dequeued in order, what is dequeued is
    told to the WAN manager in order, and how full the queue can get. */
module History {
  import opened CText
  import opened Paths
  import opened Program
  import opened Machine
  import opened Invariant
  import opened Discipline
  import opened Bounds
  import Progress

  function Sets(es: seq<Event>): seq<Event> {
    if es == [] then []
    else
      var e := es[|es| - 1];
      if e.BusSet? then Sets(es[..|es| - 1]) + [e] else Sets(es[..|es| - 1])
  }

  /** The event a delivery is about to tell the WAN manager. */
  function Delivering(p: Prog): Option<Event> {
    match p
    case Enter(ESlot(ev)) => Some(ev)
    case LoadSlot(i, Unlock(j, WanSet(ev, Done))) => if i == j == ev.inst - 1 then Some(ev) else None
    case Unlock(j, WanSet(ev, Done)) => if j == ev.inst - 1 then Some(ev) else None
    case WanSet(ev, Done) => Some(ev)
    case _ => None
  }

  function InHand(p: Prog): seq<Event> {
    if Delivering(p).Some? then [Delivering(p).value] else []
  }

  /** The event thread handles a message, or launches a client, or delivers. */
  predicate EvShape(s: State) {
    var p := s.ev.prog;
    || Ends(p, ToReceive)
    || (s.cur == 0 && Owed(p) == 0 && (Ends(p, ToDone) || Delivering(p).Some?))
  }

  predicate ApiShape(s: State) {
    forall k :: 0 <= k < |s.api| ==> Ends(s.api[k].prog, ToDone)
  }

  predicate Conserved(s: State) {
    && Accepted(s.log) == s.dequeued + s.queue
    && Sets(s.dequeued) == s.told + InHand(s.ev.prog)
    && (InHand(s.ev.prog) != [] ==> s.dequeued != [] && s.dequeued[|s.dequeued| - 1] == InHand(s.ev.prog)[0])
  }

  /** k API sends and t messages with two events explain the occupancy, except
      for one event of the message being handled. */
  predicate Occupancy(s: State) {
    && s.cur + Owed(s.ev.prog) <= 2
    && |s.queue| <= s.apiSends + s.doubles + (if s.cur > 0 then 1 else 0)
  }

  predicate Hist(s: State) {
    EvShape(s) && ApiShape(s) && Conserved(s) && Occupancy(s)
  }

  // ------------------------------------------------------------- shapes

  lemma EndsExclusive(p: Prog)
    ensures Ends(p, ToReceive) || Ends(p, ToDone) ==> Delivering(p).None?
  {
    match p
    case Unlock(_, k) => assert k.WanSet? ==> !Ends(k, ToReceive) && !Ends(k, ToDone);
    case _ =>
  }

  lemma DeliverShape(cfg: Config, e: Event, queries: bool, pid: nat)
    requires e.inst > 0
    ensures var p := Deliver(cfg, e, queries, pid);
            && Owed(p) == 0
            && InHand(p) == (if e.BusSet? then [e] else [])
            && (Ends(p, ToDone) || Delivering(p).Some?)
  {
  }

  lemma EnterShape(cfg: Config, s: State, t: Tid, c: Choice)
    requires Inv(cfg, s) && Ready(s, t, c) && Th(s, t).prog.Enter? && !Th(s, t).prog.e.ESlot?
    ensures Ends(Th(Execute(cfg, s, t, c), t).prog, EntryEnd(Th(s, t).prog.e))
  {
    var x := Th(s, t).prog.e;
    Progress.EntryInTable(cfg, s, t, x);
    BodyWithin(cfg, x);
    hide Inv, Ends, Body, EntryEnd, Work, Owed;
  }

  lemma SendShape(cfg: Config, s: State, t: Tid, c: Choice, e: End)
    requires Ready(s, t, c) && Ends(Th(s, t).prog, e) && Th(s, t).prog.Send?
    ensures EndsAfter(cfg, s, t, c, e)
  {
    SendIs(cfg, s, t, c);
    hide Execute, EventOf;
  }

  lemma JumpShape(cfg: Config, s: State, t: Tid, c: Choice)
    requires Inv(cfg, s) && Ready(s, t, c) && Th(s, t).prog.Jump?
    ensures Ends(Th(Execute(cfg, s, t, c), t).prog, CodeEnd(Th(s, t).prog.c))
  {
    var i, code := Th(s, t).prog.i, Th(s, t).prog.c;
    hide Agrees, ViewOf;
    assert ThreadOk(cfg, s, t) && RowOk(cfg, s, i);
    CodeBodyWithin(cfg, code, i);
    hide Inv, Ends, CodeBody, CodeEnd, Work, Owed;
  }

  /** The next program of a thread ends where its program ends. */
  ghost predicate EndsAfter(cfg: Config, s: State, t: Tid, c: Choice, e: End)
    requires Ready(s, t, c)
  {
    ValidTid(Execute(cfg, s, t, c), t) && Ends(Th(Execute(cfg, s, t, c), t).prog, e)
  }

  lemma NextShape(cfg: Config, s: State, t: Tid, c: Choice, e: End)
    requires Inv(cfg, s) && Ready(s, t, c) && Ends(Th(s, t).prog, e)
    requires !Th(s, t).prog.Receive?
    ensures EndsAfter(cfg, s, t, c, e)
  {
    hide Inv, Apply, Body, CodeBody, EntryEnd, CodeEnd, StatusName, EventOf, Take, NoRow;
    match Th(s, t).prog
    case Enter(_) => EnterShape(cfg, s, t, c);
    case Jump(_, _) => JumpShape(cfg, s, t, c);
    case Send(_, _, _, _) => SendShape(cfg, s, t, c, e);
    case _ =>
  }

  // ------------------------------------------------------------- what a step changes

  /** The shared history after a step that neither sends, receives nor sets. */
  predicate Unmoved(s: State, s': State) {
    && s'.queue == s.queue && s'.dequeued == s.dequeued && s'.told == s.told
    && s'.apiSends == s.apiSends && s'.doubles == s.doubles && s'.cur == s.cur
    && (s'.log == s.log || (|s'.log| == |s.log| + 1 && s'.log[..|s.log|] == s.log && s'.log[|s.log|].Noted?))
  }

  lemma PlainStep(cfg: Config, s: State, t: Tid, c: Choice)
    requires Ready(s, t, c) && !Th(s, t).prog.Send? && !Th(s, t).prog.Receive? && !Th(s, t).prog.WanSet?
    ensures Unmoved(s, Execute(cfg, s, t, c))
  {
    hide Execute, Unmoved;
    if Th(s, t).prog.Enter? || Th(s, t).prog.Lock? || Th(s, t).prog.Unlock? {
      LockStep(cfg, s, t, c);
    } else if Th(s, t).prog.Upd? || Th(s, t).prog.LoadSlot? {
      StoreStep(cfg, s, t, c);
    } else if Th(s, t).prog.Mark? {
      NoteStep(cfg, s, t, c);
    } else {
      GotoStep(cfg, s, t, c);
    }
  }

  lemma LockStep(cfg: Config, s: State, t: Tid, c: Choice)
    requires Ready(s, t, c) && (Th(s, t).prog.Enter? || Th(s, t).prog.Lock? || Th(s, t).prog.Unlock?)
    ensures Unmoved(s, Execute(cfg, s, t, c))
  {
    hide Body, NoRow, Take;
  }

  lemma NoteStep(cfg: Config, s: State, t: Tid, c: Choice)
    requires Ready(s, t, c) && Th(s, t).prog.Mark?
    ensures Unmoved(s, Execute(cfg, s, t, c))
  {
    assert (s.log + [Noted(Th(s, t).prog.note)])[..|s.log|] == s.log;
  }

  lemma GotoStep(cfg: Config, s: State, t: Tid, c: Choice)
    requires Ready(s, t, c) && !Th(s, t).prog.Send? && !Th(s, t).prog.Receive? && !Th(s, t).prog.WanSet?
    requires !Th(s, t).prog.Enter? && !Th(s, t).prog.Lock? && !Th(s, t).prog.Unlock? && !Th(s, t).prog.Mark?
    requires !Th(s, t).prog.Upd? && !Th(s, t).prog.LoadSlot?
    ensures Unmoved(s, Execute(cfg, s, t, c))
  {
    hide CodeBody;
  }

  lemma StoreStep(cfg: Config, s: State, t: Tid, c: Choice)
    requires Ready(s, t, c) && (Th(s, t).prog.Upd? || Th(s, t).prog.LoadSlot?)
    ensures Unmoved(s, Execute(cfg, s, t, c))
  {
    hide Apply;
  }

  lemma OtherThreads(cfg: Config, s: State, t: Tid, c: Choice)
    requires Inv(cfg, s) && Ready(s, t, c)
    ensures var s' := Execute(cfg, s, t, c);
            |s'.api| == |s.api| && ValidTid(s', t) && if t == Ev then s'.api == s.api else s'.ev == s.ev && s'.api == s.api[t.k := s'.api[t.k]]
    ensures var s' := Execute(cfg, s, t, c);
            |s'.queue| + Owed(Th(s', t).prog) <= |s.queue| + Owed(Th(s, t).prog)
  {
    Progress.RunCost(cfg, s, t, c);
    hide Execute, Inv, Ready;
  }

  lemma AcceptedGrows(log: seq<Item>, x: Item)
    ensures Accepted(log + [x]) == if x.Offered? && x.took then Accepted(log) + [x.ev] else Accepted(log)
  {
    assert (log + [x])[..|log|] == log;
  }

  lemma AcceptedUnmoved(s: State, s': State)
    requires Unmoved(s, s')
    ensures Accepted(s'.log) == Accepted(s.log)
  {
    if s'.log != s.log {
      assert s'.log == s.log + [s'.log[|s.log|]];
      AcceptedGrows(s.log, s'.log[|s.log|]);
    }
  }

  // ------------------------------------------------------------- steps of the event thread

  /** Instructions of a message handler or a launch. */
  lemma HandlerStep(cfg: Config, s: State, c: Choice)
    requires Inv(cfg, s) && Ready(s, Ev, c) && Hist(s) && Delivering(s.ev.prog).None?
    requires !s.ev.prog.Send? && !s.ev.prog.Receive?
    ensures Hist(Execute(cfg, s, Ev, c))
  {
    var s' := Execute(cfg, s, Ev, c);
    var e := if Ends(s.ev.prog, ToReceive) then ToReceive else ToDone;
    OtherThreads(cfg, s, Ev, c);
    NextShape(cfg, s, Ev, c, e);
    PlainStep(cfg, s, Ev, c);
    AcceptedUnmoved(s, s');
    EndsExclusive(s'.ev.prog);
    hide Execute, Inv, Ends, Delivering, Accepted, Sets;
  }

  /** A delivery reads the slot, lets the lock go, and tells the WAN manager. */
  lemma DeliveryStep(cfg: Config, s: State, c: Choice)
    requires Inv(cfg, s) && Ready(s, Ev, c) && Delivering(s.ev.prog).Some?
    ensures var s', ev := Execute(cfg, s, Ev, c), Delivering(s.ev.prog).value;
            if s.ev.prog.WanSet? then s'.ev.prog == Done && s'.told == s.told + [ev] && s'.queue == s.queue && s'.dequeued == s.dequeued
                 && s'.log == s.log && s'.cur == s.cur && s'.apiSends == s.apiSends && s'.doubles == s.doubles
            else Delivering(s'.ev.prog) == Some(ev) && Unmoved(s, s')
  {
    hide Inside, Agrees, ViewOf, Apply;
    if s.ev.prog.Enter? {
      Progress.EntryInTable(cfg, s, Ev, s.ev.prog.e);
    }
    hide Inv;
  }

  lemma TellStep(cfg: Config, s: State, c: Choice)
    requires Inv(cfg, s) && Ready(s, Ev, c) && Hist(s) && Delivering(s.ev.prog).Some?
    ensures Hist(Execute(cfg, s, Ev, c))
  {
    var s' := Execute(cfg, s, Ev, c);
    OtherThreads(cfg, s, Ev, c);
    DeliveryStep(cfg, s, c);
    EndsExclusive(s.ev.prog);
    if s.ev.prog.WanSet? {
      assert Delivering(s'.ev.prog).None? && Ends(s'.ev.prog, ToDone) && Owed(s'.ev.prog) == 0;
    } else {
      AcceptedUnmoved(s, s');
    }
    hide Execute, Inv, Ends, Delivering, Accepted, Sets, Owed, Unmoved;
  }

  lemma SetsGrows(es: seq<Event>, e: Event)
    ensures Sets(es + [e]) == if e.BusSet? then Sets(es) + [e] else Sets(es)
  {
    assert (es + [e])[..|es|] == es;
  }

  lemma DequeueHist(cfg: Config, s: State, c: Choice)
    requires Inv(cfg, s) && Hist(s) && s.queue != [] && s.ev.prog in {Done, Receive}
    ensures Hist(Dequeue(cfg, s, c))
  {
    hide Ends, Accepted, Sets, Deliver, Owed, RowOk, ThreadOk;
    var s', e := Dequeue(cfg, s, c), s.queue[0];
    DeliverShape(cfg, e, c.b, c.pid);
    EndsExclusive(s'.ev.prog);
    SetsGrows(s.dequeued, e);
    assert s.dequeued + s.queue == (s.dequeued + [e]) + s.queue[1..];
    assert InHand(s.ev.prog) == [];
  }

  lemma ReceiveHist(cfg: Config, s: State, c: Choice)
    requires Inv(cfg, s) && Hist(s) && Ready(s, Ev, c) && s.ev.prog == Receive
    ensures Hist(Execute(cfg, s, Ev, c))
  {
    if s.queue == [] {
      hide Inv;
      var s' := Execute(cfg, s, Ev, c);
      assert s' == s.(cur := 0, ev := s'.ev) && s'.ev.prog == Done;
      assert Delivering(Done).None? && Ends(Done, ToDone) && InHand(Receive) == [];
    } else {
      DequeueHist(cfg, s, c);
      hide Hist, Inv, Dequeue;
    }
  }

  // ------------------------------------------------------------- sends

  lemma SendEffect(cfg: Config, s: State, t: Tid, c: Choice)
    requires Ready(s, t, c) && Th(s, t).prog.Send?
    ensures var s', e := Execute(cfg, s, t, c), EventOf(s, Th(s, t).prog.to, Th(s, t).prog.what);
            && Accepted(s'.log) == (if c.b then Accepted(s.log) + [e] else Accepted(s.log))
            && s'.dequeued == s.dequeued && s'.told == s.told && s'.queue == (if c.b then s.queue + [e] else s.queue)
            && (c.b && t.Api? ==> s'.apiSends == s.apiSends + 1 && s'.doubles == s.doubles && s'.cur == s.cur)
            && (c.b && t == Ev ==>
                  s'.apiSends == s.apiSends && s'.cur == s.cur + 1
                  && s'.doubles == s.doubles + (if s.cur == 1 then 1 else 0))
            && (!c.b ==> s'.apiSends == s.apiSends && s'.doubles == s.doubles && s'.cur == s.cur)
  {
    var e := EventOf(s, Th(s, t).prog.to, Th(s, t).prog.what);
    var held := Th(s, t).hold.Holds? && Th(s, t).hold.row == e.inst - 1;
    AcceptedGrows(s.log, Offered(t, e, held, c.b));
    SendIs(cfg, s, t, c);
    hide Accepted, EventOf, Execute, Ready;
  }

  lemma OwedBySend(p: Prog)
    requires p.Send?
    ensures Owed(p) >= 1
  {
  }

  lemma SendShapes(cfg: Config, s: State, t: Tid, c: Choice)
    requires Inv(cfg, s) && Hist(s) && Ready(s, t, c) && Th(s, t).prog.Send?
    ensures var s' := Execute(cfg, s, t, c);
            && EvShape(s') && ApiShape(s') && InHand(s'.ev.prog) == InHand(s.ev.prog)
            && |s'.queue| + Owed(Th(s', t).prog) <= |s.queue| + Owed(Th(s, t).prog)
            && (t == Ev ==> Ends(s'.ev.prog, ToReceive)) && (t.Api? ==> s'.ev == s.ev && s'.cur == s.cur)
  {
    var s' := Execute(cfg, s, t, c);
    OtherThreads(cfg, s, t, c);
    SendEffect(cfg, s, t, c);
    OwedBySend(Th(s, t).prog);
    NextShape(cfg, s, t, c, if t == Ev then ToReceive else ToDone);
    EndsExclusive(s.ev.prog);
    EndsExclusive(s'.ev.prog);
    hide Execute, Inv, Ready, Ends, Delivering, Accepted, Sets, Owed, EventOf;
  }

  lemma SendConserves(cfg: Config, s: State, t: Tid, c: Choice)
    requires Inv(cfg, s) && Hist(s) && Ready(s, t, c) && Th(s, t).prog.Send?
    ensures Conserved(Execute(cfg, s, t, c))
  {
    SendShapes(cfg, s, t, c);
    SendEffect(cfg, s, t, c);
    hide Execute, Inv, Ready, EvShape, ApiShape, Occupancy, InHand, Accepted, Sets, Owed, EventOf, Ends;
  }

  lemma SendOccupies(cfg: Config, s: State, t: Tid, c: Choice)
    requires Inv(cfg, s) && Hist(s) && Ready(s, t, c) && Th(s, t).prog.Send?
    ensures Occupancy(Execute(cfg, s, t, c))
  {
    SendShapes(cfg, s, t, c);
    SendEffect(cfg, s, t, c);
    OwedBySend(Th(s, t).prog);
    hide Execute, Inv, Ready, EvShape, ApiShape, Conserved, InHand, Accepted, Sets, Owed, EventOf, Ends;
  }

  lemma SendHist(cfg: Config, s: State, t: Tid, c: Choice)
    requires Inv(cfg, s) && Hist(s) && Ready(s, t, c) && Th(s, t).prog.Send?
    ensures Hist(Execute(cfg, s, t, c))
  {
    SendShapes(cfg, s, t, c);
    SendConserves(cfg, s, t, c);
    SendOccupies(cfg, s, t, c);
    hide Execute, Inv, Ready, EvShape, ApiShape, Conserved, Occupancy;
  }

  // ------------------------------------------------------------- API threads and labels

  lemma ApiStep(cfg: Config, s: State, t: Tid, c: Choice)
    requires Inv(cfg, s) && Hist(s) && Ready(s, t, c) && t.Api? && !Th(s, t).prog.Send?
    ensures Hist(Execute(cfg, s, t, c))
  {
    var s' := Execute(cfg, s, t, c);
    OtherThreads(cfg, s, t, c);
    NextShape(cfg, s, t, c, ToDone);
    PlainStep(cfg, s, t, c);
    AcceptedUnmoved(s, s');
    hide Execute, Inv, Ends, Delivering, Accepted, Sets, Owed, Unmoved;
    assert s'.ev == s.ev;
  }

  lemma BeginHist(cfg: Config, s: State, l: Label)
    requires Inv(cfg, s) && Hist(s) && Enabled(cfg, s, l) && Starts(l)
    ensures Hist(Next(cfg, s, l))
  {
    hide Inv, Accepted, Sets;
    var s' := Next(cfg, s, l);
    match l
    case BeginMsg(m) =>
      assert Ends(s'.ev.prog, ToReceive) && Owed(s'.ev.prog) <= 2;
      EndsExclusive(s'.ev.prog);
      assert Delivering(Done).None?;
    case BeginApi(k, op) =>
      assert Ends(Enter(EApi(op)), ToDone);
  }

  lemma HistNext(cfg: Config, s: State, l: Label)
    requires Inv(cfg, s) && Hist(s) && Enabled(cfg, s, l)
    ensures Hist(Next(cfg, s, l))
  {
    hide Inv, Execute, Dequeue;
    if Starts(l) {
      BeginHist(cfg, s, l);
    } else if l.Poll? {
      DequeueHist(cfg, s, l.c);
    } else {
      hide Hist;
      var t, c := l.t, l.c;
      var p := Th(s, t).prog;
      if p.Send? {
        SendHist(cfg, s, t, c);
      } else if t.Api? {
        ApiStep(cfg, s, t, c);
      } else if p.Receive? {
        ReceiveHist(cfg, s, c);
      } else if Delivering(p).Some? {
        TellStep(cfg, s, c);
      } else {
        HandlerStep(cfg, s, c);
      }
    }
  }

  lemma HistInitial(cfg: Config, s: State)
    requires Initial(cfg, s)
    ensures Hist(s)
  {
    assert Ends(Done, ToDone) && Delivering(Done).None?;
  }

  lemma {:induction false} HistRun(cfg: Config, s: State, ls: seq<Label>)
    requires Inv(cfg, s) && Hist(s) && CanRun(cfg, s, ls)
    ensures Hist(After(cfg, s, ls))
    decreases ls
  {
    hide Inv, Hist, Next, Enabled;
    if ls != [] {
      InvNext(cfg, s, ls[0]);
      HistNext(cfg, s, ls[0]);
      HistRun(cfg, Next(cfg, s, ls[0]), ls[1..]);
    }
  }

  lemma HistReachable(cfg: Config, s: State)
    requires Reachable(cfg, s)
    ensures Inv(cfg, s) && Hist(s)
  {
    hide Inv, Hist, Next, Enabled, CanRun, After, Initial;
    InvReachable(cfg, s);
    var s0: State, ls: seq<Label> :| Initial(cfg, s0) && CanRun(cfg, s0, ls) && s == After(cfg, s0, ls);
    InvInitial(cfg, s0);
    HistInitial(cfg, s0);
    HistRun(cfg, s0, ls);
  }
}
