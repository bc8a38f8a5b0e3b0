/** End to end: when everything has been delivered, what the WAN manager was told
    about an interface agrees with the data model. */
module Agreement {
  import opened CText
  import opened Ipcp
  import opened Paths
  import opened Program
  import opened Machine
  import opened Invariant
  import opened Discipline
  import opened Bounds
  import opened History
  import Progress
  import WanLookup

  /** Events under way: the one being told, then the queued ones. */
  function Pipe(s: State): seq<Event> {
    InHand(s.ev.prog) + s.queue
  }

  function SlotKey(cfg: Config, i: nat, param: Param): string
    requires ValidConfig(cfg) && i < cfg.n && cfg.slot[i].Found?
  {
    StatusName(cfg.unified, param, cfg.slot[i].iface, cfg.slot[i].virt)
  }

  /** No two interfaces share a parameter of the WAN manager. */
  predicate KeysDistinct(cfg: Config)
    requires ValidConfig(cfg)
  {
    forall i, j :: 0 <= i < j < cfg.n && cfg.slot[i].Found? && cfg.slot[j].Found? ==>
      SlotKey(cfg, i, LcpStatus) != SlotKey(cfg, j, LcpStatus)
  }

  /** One parameter of one interface: what was last offered (a) is what is last
      under way (q), or, with nothing under way, what the WAN manager stores. */
  predicate Chan(cfg: Config, i: nat, param: Param, mapped: bool, a: Option<Verdict>, q: Option<Verdict>, wan: map<string, Verdict>)
    requires ValidConfig(cfg) && i < cfg.n
  {
    && (q.Some? ==> a == q)
    && (!mapped ==> a != Some(VUp))
    && (cfg.slot[i].Found? ==>
          var key := SlotKey(cfg, i, param);
          && (!mapped ==> key !in wan)
          && (q.None? ==> (key in wan ==> a == Some(wan[key])) && (a == Some(VUp) ==> key in wan)))
  }

  predicate ChanOk(cfg: Config, s: State, i: nat, param: Param)
    requires ValidConfig(cfg) && |s.rows| == cfg.n && i < cfg.n
  {
    Chan(cfg, i, param, Mapped(cfg, i, s.rows[i]),
         LastOffered(cfg, s.log, i + 1, param), LastIn(cfg, Pipe(s), i + 1, param), s.wan)
  }

  /** The slot a delivery has read is still the row's. */
  predicate SlotRead(cfg: Config, s: State)
    requires ValidConfig(cfg) && |s.rows| == cfg.n
  {
    var p := s.ev.prog;
    Delivering(p).Some? && (p.Unlock? || p.WanSet?) ==>
      var r := Delivering(p).value.inst - 1;
      0 <= r < cfg.n && s.wanReg == s.rows[r].wan && s.virtReg == s.rows[r].virt
      && ((s.wanReg == 0 && s.virtReg == 0) || Mapped(cfg, r, s.rows[r]))
  }

  ghost predicate Told(cfg: Config, s: State) {
    && ValidConfig(cfg) && |s.rows| == cfg.n
    && SlotRead(cfg, s)
    && (s.clean ==> forall i: nat, param :: i < cfg.n ==> ChanOk(cfg, s, i, param))
  }

  // ------------------------------------------------------------- sequences of events

  lemma LastInAppend(cfg: Config, es: seq<Event>, e: Event, inst: int, param: Param)
    ensures LastIn(cfg, es + [e], inst, param) == if Concerns(cfg, e, inst, param) then Some(e.val) else LastIn(cfg, es, inst, param)
  {
    assert (es + [e])[..|es|] == es;
  }

  lemma {:induction false} LastInPrepend(cfg: Config, e: Event, es: seq<Event>, inst: int, param: Param)
    ensures LastIn(cfg, [e] + es, inst, param) ==
            if LastIn(cfg, es, inst, param).Some? then LastIn(cfg, es, inst, param)
            else if Concerns(cfg, e, inst, param) then Some(e.val) else None
  {
    if es == [] {
      assert [e] + es == [] + [e];
      LastInAppend(cfg, [], e, inst, param);
    } else {
      var front, last := es[..|es| - 1], es[|es| - 1];
      assert [e] + es == ([e] + front) + [last] && es == front + [last];
      LastInPrepend(cfg, e, front, inst, param);
      LastInAppend(cfg, [e] + front, last, inst, param);
      LastInAppend(cfg, front, last, inst, param);
    }
  }

  lemma OfferedAppend(cfg: Config, log: seq<Item>, x: Item, inst: int, param: Param)
    ensures LastOffered(cfg, log + [x], inst, param) ==
            if x.Offered? && Concerns(cfg, x.ev, inst, param) then Some(x.ev.val) else LastOffered(cfg, log, inst, param)
  {
    assert (log + [x])[..|log|] == log;
  }

  // ------------------------------------------------------------- rows

  /** No step unmaps a row, and API threads leave slots alone. */
  lemma SlotsStep(cfg: Config, s: State, t: Tid, c: Choice, j: nat)
    requires Inv(cfg, s) && Ready(s, t, c) && j < cfg.n
    ensures var s' := Execute(cfg, s, t, c);
            && |s'.rows| == cfg.n
            && (Mapped(cfg, j, s.rows[j]) ==> Mapped(cfg, j, s'.rows[j]))
            && (t.Api? ==> s'.rows[j].wan == s.rows[j].wan && s'.rows[j].virt == s.rows[j].virt)
            && (!Th(s, t).prog.Upd? ==> s'.rows == s.rows)
  {
    assert |s.rows| == cfg.n;
    RowsStep(cfg, s, t, c);
    if Th(s, t).prog.Upd? {
      SlotsUpdate(cfg, s, t, j);
    }
    hide Inv, Apply, Execute, Ready, Mapped;
  }

  lemma SlotsUpdate(cfg: Config, s: State, t: Tid, j: nat)
    requires Inv(cfg, s) && ValidTid(s, t) && Th(s, t).prog.Upd? && j < cfg.n
    ensures var i := Th(s, t).prog.i;
            && i < cfg.n
            && (j == i ==>
                  var r' := Apply(s.rows[i], Th(s, t).prog.u);
                  && (Mapped(cfg, i, s.rows[i]) ==> Mapped(cfg, i, r'))
                  && (t.Api? ==> r'.wan == s.rows[i].wan && r'.virt == s.rows[i].virt))
  {
    hide Agrees, LastOffered, LastNote;
    assert ThreadOk(cfg, s, t);
  }

  // ------------------------------------------------------------- steps that do not touch the parameter

  lemma ChanKept(cfg: Config, s: State, s': State, i: nat, param: Param)
    requires ValidConfig(cfg) && |s.rows| == |s'.rows| == cfg.n && i < cfg.n && ChanOk(cfg, s, i, param)
    requires Mapped(cfg, i, s.rows[i]) ==> Mapped(cfg, i, s'.rows[i])
    requires LastOffered(cfg, s'.log, i + 1, param) == LastOffered(cfg, s.log, i + 1, param)
    requires LastIn(cfg, Pipe(s'), i + 1, param) == LastIn(cfg, Pipe(s), i + 1, param)
    requires s'.wan == s.wan
    ensures ChanOk(cfg, s', i, param)
  {
  }

  lemma LogUnmoved(cfg: Config, s: State, s': State, inst: int, param: Param)
    requires Unmoved(s, s')
    ensures LastOffered(cfg, s'.log, inst, param) == LastOffered(cfg, s.log, inst, param)
  {
    if s'.log != s.log {
      assert s'.log == s.log + [s'.log[|s.log|]];
      OfferedAppend(cfg, s.log, s'.log[|s.log|], inst, param);
    }
  }

  lemma WanKept(cfg: Config, s: State, t: Tid, c: Choice)
    requires Ready(s, t, c) && !Th(s, t).prog.WanSet?
    ensures Execute(cfg, s, t, c).wan == s.wan
    ensures !Th(s, t).prog.Send? ==> Execute(cfg, s, t, c).clean == s.clean
  {
    hide Apply, Body, CodeBody, NoRow, Deliver, EventOf;
  }

  /** Handlers, launches, API threads, and deliveries up to the set itself. */
  lemma QuietTold(cfg: Config, s: State, t: Tid, c: Choice)
    requires Inv(cfg, s) && Hist(s) && Told(cfg, s) && Ready(s, t, c)
    requires !Th(s, t).prog.Send? && !Th(s, t).prog.Receive? && !Th(s, t).prog.WanSet?
    ensures Told(cfg, Execute(cfg, s, t, c))
  {
    var s' := Execute(cfg, s, t, c);
    PlainStep(cfg, s, t, c);
    WanKept(cfg, s, t, c);
    HandKept(cfg, s, t, c);
    SlotReadStep(cfg, s, t, c);
    forall j: nat | j < cfg.n
      ensures Mapped(cfg, j, s.rows[j]) ==> Mapped(cfg, j, s'.rows[j])
    {
      SlotsStep(cfg, s, t, c, j);
    }
    hide Inv, Hist, Execute, Ready, SlotRead, ChanOk, LastOffered, LastIn, InHand, Mapped;
    if s'.clean {
      forall i: nat, param | i < cfg.n
        ensures ChanOk(cfg, s', i, param)
      {
        LogUnmoved(cfg, s, s', i + 1, param);
        assert Pipe(s') == Pipe(s);
        ChanKept(cfg, s, s', i, param);
      }
    }
  }

  lemma HandKept(cfg: Config, s: State, t: Tid, c: Choice)
    requires Inv(cfg, s) && Hist(s) && Ready(s, t, c)
    requires !Th(s, t).prog.Receive? && !Th(s, t).prog.WanSet?
    ensures InHand(Execute(cfg, s, t, c).ev.prog) == InHand(s.ev.prog)
    ensures |Execute(cfg, s, t, c).rows| == cfg.n
  {
    OtherThreads(cfg, s, t, c);
    if t == Ev {
      if Delivering(s.ev.prog).Some? {
        DeliveryStep(cfg, s, c);
      } else {
        NextShape(cfg, s, t, c, if Ends(s.ev.prog, ToReceive) then ToReceive else ToDone);
        EndsExclusive(Execute(cfg, s, t, c).ev.prog);
      }
    }
    if cfg.n > 0 {
      SlotsStep(cfg, s, t, c, 0);
    }
    InvNext(cfg, s, Run(t, c));
    hide Execute, Ready, Hist, Delivering, Ends, RowOk, ThreadOk;
  }

  lemma SlotReadStep(cfg: Config, s: State, t: Tid, c: Choice)
    requires Inv(cfg, s) && Hist(s) && SlotRead(cfg, s) && Ready(s, t, c) && !Th(s, t).prog.Receive?
    ensures |Execute(cfg, s, t, c).rows| == cfg.n && SlotRead(cfg, Execute(cfg, s, t, c))
  {
    InvNext(cfg, s, Run(t, c));
    if t.Api? {
      SlotReadApi(cfg, s, t, c);
    } else if Delivering(s.ev.prog).Some? {
      SlotReadDelivery(cfg, s, c);
    } else {
      NextShape(cfg, s, t, c, if Ends(s.ev.prog, ToReceive) then ToReceive else ToDone);
      EndsExclusive(Execute(cfg, s, t, c).ev.prog);
      hide Execute, Ready, Hist, Delivering, Ends, RowOk, ThreadOk;
    }
  }

  lemma SlotReadApi(cfg: Config, s: State, t: Tid, c: Choice)
    requires Inv(cfg, s) && SlotRead(cfg, s) && Ready(s, t, c) && t.Api?
    ensures |Execute(cfg, s, t, c).rows| == cfg.n && SlotRead(cfg, Execute(cfg, s, t, c))
  {
    var s' := Execute(cfg, s, t, c);
    OtherThreads(cfg, s, t, c);
    RegsKept(cfg, s, t, c);
    InvNext(cfg, s, Run(t, c));
    forall j: nat | j < cfg.n
      ensures s'.rows[j].wan == s.rows[j].wan && s'.rows[j].virt == s.rows[j].virt
    {
      SlotsStep(cfg, s, t, c, j);
    }
    hide Execute, Ready, Delivering, RowOk, ThreadOk, ChanOk;
  }

  lemma RegsKept(cfg: Config, s: State, t: Tid, c: Choice)
    requires Ready(s, t, c) && t.Api?
    ensures Execute(cfg, s, t, c).wanReg == s.wanReg && Execute(cfg, s, t, c).virtReg == s.virtReg
  {
    hide Apply, Body, CodeBody, NoRow, EventOf;
  }

  lemma LeavesAgreeing(cfg: Config, p: Prog, i: nat, d: nat, v: View)
    requires ValidConfig(cfg) && i < cfg.n && Inside(cfg, Ev, p, i, d, v) && p.Unlock? && p.k.WanSet?
    ensures Agrees(cfg, i, v)
  {
  }

  lemma SlotReadDelivery(cfg: Config, s: State, c: Choice)
    requires Inv(cfg, s) && SlotRead(cfg, s) && Ready(s, Ev, c) && Delivering(s.ev.prog).Some?
    ensures |Execute(cfg, s, Ev, c).rows| == cfg.n && SlotRead(cfg, Execute(cfg, s, Ev, c))
  {
    hide LastOffered, LastNote, ChanOk, Parse, Hist;
    assert ThreadOk(cfg, s, Ev);
    var p := s.ev.prog;
    if p.LoadSlot? {
      var i := p.i;
      assert Inside(cfg, Ev, p.k, i, s.ev.hold.depth, ViewOf(cfg, s, i));
      LeavesAgreeing(cfg, p.k, i, s.ev.hold.depth, ViewOf(cfg, s, i));
      assert ViewOf(cfg, s, i).row == s.rows[i];
    } else if p.Enter? {
      Progress.EntryInTable(cfg, s, Ev, p.e);
    }
    hide Inv, Agrees, Inside;
  }

  // ------------------------------------------------------------- receiving

  /** Taking an event from the queue leaves the same events under way, or one
      fewer that is no parameter's. */
  lemma DequeuePipe(cfg: Config, s: State, c: Choice, inst: int, param: Param)
    requires Inv(cfg, s) && s.queue != [] && s.ev.prog in {Done, Receive}
    ensures LastIn(cfg, Pipe(Dequeue(cfg, s, c)), inst, param) == LastIn(cfg, Pipe(s), inst, param)
  {
    var s', e := Dequeue(cfg, s, c), s.queue[0];
    DeliverShape(cfg, e, c.b, c.pid);
    assert InHand(s.ev.prog) == [];
    hide Inv, InHand, Deliver, Owed, LastIn, Ends, Delivering;
    assert s.queue == [e] + s'.queue;
    assert Pipe(s) == s.queue;
    if e.BusSet? {
      assert Pipe(s') == [e] + s'.queue;
    } else {
      assert Pipe(s') == s'.queue;
      LastInPrepend(cfg, e, Pipe(s'), inst, param);
    }
  }

  lemma DequeueFields(cfg: Config, s: State, c: Choice)
    requires ValidConfig(cfg) && |s.rows| == cfg.n && s.queue != []
    ensures var s' := Dequeue(cfg, s, c); s'.rows == s.rows && s'.wan == s.wan && s'.log == s.log && s'.clean == s.clean
    ensures SlotRead(cfg, Dequeue(cfg, s, c))
  {
  }

  lemma DequeueTold(cfg: Config, s: State, c: Choice)
    requires Inv(cfg, s) && Hist(s) && Told(cfg, s) && s.queue != [] && s.ev.prog in {Done, Receive}
    ensures Told(cfg, Dequeue(cfg, s, c))
  {
    var s' := Dequeue(cfg, s, c);
    DequeueFields(cfg, s, c);
    hide Hist, SlotRead, ChanOk, LastOffered, LastIn, Pipe, Mapped, Dequeue, RowOk, ThreadOk, QueueOk;
    if s'.clean {
      forall i: nat, param | i < cfg.n
        ensures ChanOk(cfg, s', i, param)
      {
        DequeuePipe(cfg, s, c, i + 1, param);
        ChanKept(cfg, s, s', i, param);
      }
    }
  }

  /** A step after which the same events are under way and nothing else moved. */
  lemma SamePipeTold(cfg: Config, s: State, s': State)
    requires Told(cfg, s)
    requires s'.rows == s.rows && s'.wan == s.wan && s'.log == s.log && s'.clean == s.clean
    requires Pipe(s') == Pipe(s) && Delivering(s'.ev.prog).None?
    ensures Told(cfg, s')
  {
    hide LastOffered, LastIn, Pipe, Mapped, Delivering;
    forall i: nat, param | s'.clean && i < cfg.n
      ensures ChanOk(cfg, s', i, param)
    {
      ChanKept(cfg, s, s', i, param);
    }
  }

  lemma ReceiveTold(cfg: Config, s: State, c: Choice)
    requires Inv(cfg, s) && Hist(s) && Told(cfg, s) && Ready(s, Ev, c) && s.ev.prog == Receive
    ensures Told(cfg, Execute(cfg, s, Ev, c))
  {
    if s.queue != [] {
      DequeueTold(cfg, s, c);
      hide Told, Dequeue, Inv, Hist;
    } else {
      hide Inv, Hist, Told;
      var s' := Execute(cfg, s, Ev, c);
      assert Delivering(Done).None? && Pipe(s') == Pipe(s);
      SamePipeTold(cfg, s, s');
    }
  }

  // ------------------------------------------------------------- sending

  lemma ChanSend(cfg: Config, s: State, s': State, i: nat, param: Param, e: Event, x: Item)
    requires ValidConfig(cfg) && |s.rows| == cfg.n && i < cfg.n && ChanOk(cfg, s, i, param)
    requires s'.rows == s.rows && s'.wan == s.wan && s'.log == s.log + [x] && x.Offered? && x.ev == e
    requires Pipe(s') == Pipe(s) + [e]
    requires e.BusSet? && e.inst == i + 1 && e.val == VUp ==> Mapped(cfg, i, s.rows[i])
    ensures ChanOk(cfg, s', i, param)
  {
    LastInAppend(cfg, Pipe(s), e, i + 1, param);
    OfferedAppend(cfg, s.log, x, i + 1, param);
  }

  lemma ToldFrom(cfg: Config, s: State)
    requires ValidConfig(cfg) && |s.rows| == cfg.n && SlotRead(cfg, s)
    requires s.clean ==> forall i: nat, param :: i < cfg.n ==> ChanOk(cfg, s, i, param)
    ensures Told(cfg, s)
  {
  }

  lemma ChansSend(cfg: Config, s: State, s': State, e: Event, x: Item)
    requires Told(cfg, s) && s.clean && s'.rows == s.rows && s'.wan == s.wan
    requires s'.log == s.log + [x] && x.Offered? && x.ev == e && Pipe(s') == Pipe(s) + [e]
    requires e.BusSet? && 1 <= e.inst <= cfg.n && e.val == VUp ==> Mapped(cfg, e.inst - 1, s.rows[e.inst - 1])
    ensures forall i: nat, param :: i < cfg.n ==> ChanOk(cfg, s', i, param)
  {
    hide ChanOk, Pipe, Mapped, SlotRead;
    forall i: nat, param | i < cfg.n
      ensures ChanOk(cfg, s', i, param)
    {
      ChanSend(cfg, s, s', i, param, e, x);
    }
  }

  lemma SendShows(s: State, t: Tid, e: Event, took: bool, k: Prog)
    requires ValidTid(s, t)
    ensures var s' := SendTo(s, t, e, took, k);
            && s'.log == s.log + [Offered(t, e, Th(s, t).hold.Holds? && Th(s, t).hold.row == e.inst - 1, took)]
            && s'.rows == s.rows && s'.wan == s.wan && s'.clean == (s.clean && took)
            && s'.queue == if took then s.queue + [e] else s.queue
  {
  }

  lemma SendTold(cfg: Config, s: State, t: Tid, c: Choice)
    requires Inv(cfg, s) && Hist(s) && Told(cfg, s) && Ready(s, t, c) && Th(s, t).prog.Send?
    ensures Told(cfg, Execute(cfg, s, t, c))
  {
    var s' := Execute(cfg, s, t, c);
    var e := EventOf(s, Th(s, t).prog.to, Th(s, t).prog.what);
    var x := SendPipe(cfg, s, t, c);
    UpNeedsMapped(cfg, s, t);
    SlotReadStep(cfg, s, t, c);
    assert s.clean || !s'.clean;
    hide Inv, Hist, Execute, Ready, Pipe, SlotRead, ChanOk, Mapped, EventOf;
    if s'.clean {
      ChansSend(cfg, s, s', e, x);
    }
    ToldFrom(cfg, s');
    hide Told;
  }

  /** A send that is accepted adds its event to those under way. */
  lemma SendPipe(cfg: Config, s: State, t: Tid, c: Choice) returns (x: Item)
    requires Inv(cfg, s) && Hist(s) && Ready(s, t, c) && Th(s, t).prog.Send?
    ensures var s', e := Execute(cfg, s, t, c), EventOf(s, Th(s, t).prog.to, Th(s, t).prog.what);
            && s'.rows == s.rows && s'.wan == s.wan && s'.log == s.log + [x] && x.Offered? && x.ev == e
            && s'.clean == (s.clean && c.b) && (c.b ==> Pipe(s') == Pipe(s) + [e])
  {
    var p := Th(s, t).prog;
    var e := EventOf(s, p.to, p.what);
    x := Offered(t, e, Th(s, t).hold.Holds? && Th(s, t).hold.row == e.inst - 1, c.b);
    SendIs(cfg, s, t, c);
    SendShows(s, t, e, c.b, if c.b then p.ok else p.fail);
    HandKept(cfg, s, t, c);
    hide Inv, Hist, Execute, Ready, SendTo, InHand, EventOf;
  }

  /** Only for mapped interfaces is an Up ever sent. */
  lemma UpNeedsMapped(cfg: Config, s: State, t: Tid)
    requires Inv(cfg, s) && ValidTid(s, t) && Th(s, t).prog.Send?
    ensures var e := EventOf(s, Th(s, t).prog.to, Th(s, t).prog.what);
            && 1 <= e.inst <= cfg.n
            && (e.BusSet? && e.val == VUp ==> Mapped(cfg, e.inst - 1, s.rows[e.inst - 1]))
  {
    hide Agrees, LastOffered, LastNote;
    assert ThreadOk(cfg, s, t);
    var th := Th(s, t);
    if th.hold.Holds? {
      assert RowOk(cfg, s, th.hold.row);
    }
  }

  // ------------------------------------------------------------- telling the WAN manager

  lemma KeysApart(cfg: Config, i: nat, param: Param, ev: Event, wan: int, virt: int)
    requires ValidConfig(cfg) && KeysDistinct(cfg) && i < cfg.n && cfg.slot[i].Found?
    requires ev.BusSet? && 1 <= ev.inst <= cfg.n
    requires (wan == 0 && virt == 0) || cfg.slot[ev.inst - 1] == WanLookup.Found(wan, virt)
    ensures StatusName(cfg.unified, ev.param, wan, virt) == SlotKey(cfg, i, param) <==>
            Concerns(cfg, ev, i + 1, param) && !(wan == 0 && virt == 0)
  {
    hide StatusName;
    var j, x := ev.inst - 1, cfg.slot[i];
    StatusNamesApart(cfg.unified, ev.param, wan, virt, param, x.iface, x.virt);
    if j != i && !(wan == 0 && virt == 0) {
      SlotsApart(cfg, i, j);
      assert SlotKey(cfg, if i < j then i else j, LcpStatus) != SlotKey(cfg, if i < j then j else i, LcpStatus);
    }
  }

  /** Two interfaces share a parameter if and only if they share the WAN interface
      and, in the unified build, the virtual interface. */
  lemma SlotsApart(cfg: Config, i: nat, j: nat)
    requires ValidConfig(cfg) && i < cfg.n && j < cfg.n && cfg.slot[i].Found? && cfg.slot[j].Found?
    ensures SlotKey(cfg, i, LcpStatus) == SlotKey(cfg, j, LcpStatus) <==>
            cfg.slot[i].iface == cfg.slot[j].iface && (cfg.unified ==> cfg.slot[i].virt == cfg.slot[j].virt)
  {
    hide StatusName;
    var x, y := cfg.slot[i], cfg.slot[j];
    StatusNamesApart(cfg.unified, LcpStatus, x.iface, x.virt, LcpStatus, y.iface, y.virt);
  }

  lemma ChanTell(cfg: Config, s: State, s': State, i: nat, param: Param, ev: Event)
    requires ValidConfig(cfg) && KeysDistinct(cfg) && |s.rows| == cfg.n && i < cfg.n && ChanOk(cfg, s, i, param)
    requires ev.BusSet? && 1 <= ev.inst <= cfg.n
    requires Pipe(s) == [ev] + Pipe(s') && s'.log == s.log && s'.rows == s.rows
    requires s.wanReg == s.rows[ev.inst - 1].wan && s.virtReg == s.rows[ev.inst - 1].virt
    requires (s.wanReg == 0 && s.virtReg == 0) || Mapped(cfg, ev.inst - 1, s.rows[ev.inst - 1])
    requires s'.wan == s.wan[StatusName(cfg.unified, ev.param, s.wanReg, s.virtReg) := ev.val]
    ensures ChanOk(cfg, s', i, param)
  {
    LastInPrepend(cfg, ev, Pipe(s'), i + 1, param);
    hide LastIn, LastOffered, Pipe;
    if cfg.slot[i].Found? {
      KeysApart(cfg, i, param, ev, s.wanReg, s.virtReg);
      hide StatusName, SameName;
    }
  }

  lemma SetTold(cfg: Config, s: State, c: Choice)
    requires Inv(cfg, s) && Hist(s) && Told(cfg, s) && KeysDistinct(cfg) && Ready(s, Ev, c) && s.ev.prog.WanSet?
    ensures Told(cfg, Execute(cfg, s, Ev, c))
  {
    hide ThreadOk, RowOk, StatusName, LastOffered, LastIn, Mapped;
    var s' := Execute(cfg, s, Ev, c);
    var ev := s.ev.prog.ev;
    NoSetInside(cfg, s);
    assert Delivering(s.ev.prog) == Some(ev) && InHand(s'.ev.prog) == [];
    assert Pipe(s) == [ev] + Pipe(s');
    hide Delivering, InHand, Hist, ChanOk, LastOffered, LastIn, Mapped;
    if s'.clean {
      forall i: nat, param | i < cfg.n
        ensures ChanOk(cfg, s', i, param)
      {
        ChanTell(cfg, s, s', i, param, ev);
      }
    }
  }

  /** The WAN manager is only told with no lock held. */
  lemma NoSetInside(cfg: Config, s: State)
    requires Inv(cfg, s) && s.ev.prog.WanSet?
    ensures s.ev.hold == NoHold && s.ev.prog.k == Done && 1 <= s.ev.prog.ev.inst <= cfg.n
  {
    hide Agrees, LastOffered, LastNote;
    assert ThreadOk(cfg, s, Ev);
  }

  // ------------------------------------------------------------- all runs

  lemma BeginTold(cfg: Config, s: State, l: Label)
    requires Inv(cfg, s) && Hist(s) && Told(cfg, s) && Enabled(cfg, s, l) && Starts(l)
    ensures Told(cfg, Next(cfg, s, l))
  {
    var s' := Next(cfg, s, l);
    BeginHist(cfg, s, l);
    if l.BeginMsg? {
      assert Ends(s'.ev.prog, ToReceive);
      EndsExclusive(s'.ev.prog);
      assert InHand(s'.ev.prog) == InHand(Done) == [];
      hide Inv, Hist, Told, Ends, Delivering, ProcessPppState;
      SamePipeTold(cfg, s, s');
    } else {
      hide Inv, Hist, LastOffered, LastIn, Delivering, Ends, Mapped;
      forall i: nat, param | s'.clean && i < cfg.n
        ensures ChanOk(cfg, s', i, param)
      {
        ChanKept(cfg, s, s', i, param);
      }
    }
  }

  lemma ToldNext(cfg: Config, s: State, l: Label)
    requires Inv(cfg, s) && Hist(s) && Told(cfg, s) && KeysDistinct(cfg) && Enabled(cfg, s, l)
    ensures Told(cfg, Next(cfg, s, l))
  {
    hide Inv, Hist, Told, Execute, Dequeue, KeysDistinct;
    if Starts(l) {
      BeginTold(cfg, s, l);
    } else if l.Poll? {
      DequeueTold(cfg, s, l.c);
    } else {
      var p := Th(s, l.t).prog;
      if p.Send? {
        SendTold(cfg, s, l.t, l.c);
      } else if p.Receive? {
        ReceiveTold(cfg, s, l.c);
      } else if p.WanSet? {
        SetTold(cfg, s, l.c);
      } else {
        QuietTold(cfg, s, l.t, l.c);
      }
    }
  }

  lemma ToldInitial(cfg: Config, s: State)
    requires Initial(cfg, s)
    ensures Told(cfg, s)
  {
    assert Delivering(Done).None? && Pipe(s) == [];
    forall i: nat, param | i < cfg.n
      ensures ChanOk(cfg, s, i, param)
    {
    }
  }

  lemma {:induction false} ToldRun(cfg: Config, s: State, ls: seq<Label>)
    requires Inv(cfg, s) && Hist(s) && Told(cfg, s) && KeysDistinct(cfg) && CanRun(cfg, s, ls)
    ensures Told(cfg, After(cfg, s, ls))
    decreases ls
  {
    hide Inv, Hist, Told, Next, Enabled, KeysDistinct;
    if ls != [] {
      InvNext(cfg, s, ls[0]);
      HistNext(cfg, s, ls[0]);
      ToldNext(cfg, s, ls[0]);
      ToldRun(cfg, Next(cfg, s, ls[0]), ls[1..]);
    }
  }

  lemma ToldReachable(cfg: Config, s: State)
    requires ValidConfig(cfg) && KeysDistinct(cfg) && Reachable(cfg, s)
    ensures Told(cfg, s)
  {
    hide Inv, Hist, Told, Next, Enabled, CanRun, After, Initial, KeysDistinct;
    var s0: State, ls: seq<Label> :| Initial(cfg, s0) && CanRun(cfg, s0, ls) && s == After(cfg, s0, ls);
    InvInitial(cfg, s0);
    HistInitial(cfg, s0);
    ToldInitial(cfg, s0);
    ToldRun(cfg, s0, ls);
  }

  /** With every send and set successful: once nothing is queued and nothing in
      progress, the WAN manager stores for each parameter of an interface what was
      last offered for it, if anything. So it believes a link up if its Status is Up,
      and down if the connection was lost or never configured; and if it believes
      IPCP up, the row holds the addresses of the last IPCP message that was stored,
      with no stop since. */
  lemma EndToEnd(cfg: Config, s: State, i: nat)
    requires ValidConfig(cfg) && KeysDistinct(cfg) && Reachable(cfg, s)
    requires s.clean && Progress.Idle(s) && i < cfg.n
    ensures |s.rows| == cfg.n
    ensures cfg.slot[i].Found? ==> forall param :: SlotKey(cfg, i, param) in s.wan ==>
              LastOffered(cfg, s.log, i + 1, param) == Some(s.wan[SlotKey(cfg, i, param)])
    ensures cfg.slot[i].Found? && SlotKey(cfg, i, LcpStatus) in s.wan
            && s.rows[i].conn in {Unconfigured, Disconnected, AuthenticationFailed} ==>
              s.wan[SlotKey(cfg, i, LcpStatus)] == VDown
    ensures s.rows[i].status == Up ==>
              && Mapped(cfg, i, s.rows[i])
              && SlotKey(cfg, i, LcpStatus) in s.wan && s.wan[SlotKey(cfg, i, LcpStatus)] == VUp
    ensures cfg.slot[i].Found? && SlotKey(cfg, i, IpcpStatus) in s.wan && s.wan[SlotKey(cfg, i, IpcpStatus)] == VUp ==>
              && LastNote(s.log, i).Some? && LastNote(s.log, i).value.NCompleted?
              && s.rows[i].Addresses() == Parse(LastNote(s.log, i).value.msg)
  {
    hide StatusName, Parse, LastOffered, LastNote, ThreadOk, Reachable, SlotRead;
    ToldReachable(cfg, s);
    InvReachable(cfg, s);
    IdleFree(cfg, s, i);
    assert RowOk(cfg, s, i);
    assert Delivering(Done).None? && Pipe(s) == [];
    ChanIdle(cfg, s, i, LcpStatus);
    ChanIdle(cfg, s, i, IpcpStatus);
    forall param | cfg.slot[i].Found? && SlotKey(cfg, i, param) in s.wan
      ensures LastOffered(cfg, s.log, i + 1, param) == Some(s.wan[SlotKey(cfg, i, param)])
    {
      ChanIdle(cfg, s, i, param);
    }
  }

  /** With nothing under way the WAN manager stores what was last offered. */
  lemma ChanIdle(cfg: Config, s: State, i: nat, param: Param)
    requires ValidConfig(cfg) && |s.rows| == cfg.n && i < cfg.n && Pipe(s) == []
    requires Told(cfg, s) && s.clean
    ensures var a := LastOffered(cfg, s.log, i + 1, param);
            && (a == Some(VUp) ==> Mapped(cfg, i, s.rows[i]))
            && (cfg.slot[i].Found? ==>
                  var key := SlotKey(cfg, i, param);
                  (key in s.wan ==> a == Some(s.wan[key])) && (a == Some(VUp) ==> key in s.wan))
  {
    hide StatusName, LastOffered, SlotRead;
    assert ChanOk(cfg, s, i, param);
  }

  lemma IdleFree(cfg: Config, s: State, i: nat)
    requires Inv(cfg, s) && Progress.Idle(s) && i < cfg.n
    ensures s.locks[i] == Free
  {
    hide Agrees, ViewOf, ThreadOk;
    assert RowOk(cfg, s, i);
    forall t: Tid | ValidTid(s, t)
      ensures Th(s, t).hold == NoHold
    {
      DoneHoldsNothing(cfg, s, t);
    }
  }

  // ------------------------------------------------------------- when keys are distinct

  /** The configuration the WAN manager's tables give. */
  function ConfigOf(n: nat, daemon: bool, unified: bool, t: WanLookup.WanTable): (cfg: Config)
    requires n <= MAX_INTERFACES
    ensures ValidConfig(cfg)
  {
    var slot := seq(n, i requires 0 <= i < n => WanLookup.Lookup(t, i + 1));
    assert forall i :: 0 <= i < n && slot[i].Found? ==> slot[i].iface >= 1 && slot[i].virt >= 1 by {
      forall i | 0 <= i < n && slot[i].Found?
        ensures slot[i].iface >= 1 && slot[i].virt >= 1
      {
        WanLookup.SlotPositive(t, i + 1);
      }
    }
    Config(n, daemon, unified, slot)
  }

  /** In the unified build no two interfaces share a key; in the other build
      exactly when no two of them are on the same WAN interface, for the virtual
      interface is not part of that build's names. */
  lemma WhenDistinct(n: nat, daemon: bool, unified: bool, t: WanLookup.WanTable)
    requires n <= MAX_INTERFACES
    ensures var cfg := ConfigOf(n, daemon, unified, t);
            KeysDistinct(cfg) <==>
            unified || forall i, j :: 0 <= i < j < n && cfg.slot[i].Found? && cfg.slot[j].Found? ==> cfg.slot[i].iface != cfg.slot[j].iface
  {
    hide StatusName, WanLookup.Lookup;
    var cfg := ConfigOf(n, daemon, unified, t);
    forall i, j | 0 <= i < j < n && cfg.slot[i].Found? && cfg.slot[j].Found?
      ensures SlotKey(cfg, i, LcpStatus) != SlotKey(cfg, j, LcpStatus) <==> unified || cfg.slot[i].iface != cfg.slot[j].iface
    {
      SlotsApart(cfg, i, j);
      WanLookup.SlotsDistinct(t, i + 1, j + 1);
    }
  }
}
