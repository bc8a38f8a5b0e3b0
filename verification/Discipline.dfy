/** The invariant holds initially and every step of every thread keeps it. */
module Discipline {
  import opened CText
  import opened Ipcp
  import opened Paths
  import opened Program
  import opened Machine
  import opened Invariant
  import opened Handlers

  ghost predicate OthersSame(s: State, s': State, t: Tid)
  {
    && |s'.api| == |s.api|
    && (forall u: Tid :: ValidTid(s, u) && u != t ==> Th(s', u) == Th(s, u))
  }

  ghost predicate Elsewhere(cfg: Config, s: State, s': State, r: int)
    requires |s.rows| == |s.locks| == |s'.rows| == |s'.locks| == cfg.n
  {
    forall j: nat :: j < cfg.n && j != r ==>
      s'.rows[j] == s.rows[j] && s'.locks[j] == s.locks[j] && Falls(ViewOf(cfg, s', j), ViewOf(cfg, s, j))
  }

  lemma OtherRow(cfg: Config, s: State, s': State, t: Tid, r: int, j: nat)
    requires Inv(cfg, s) && |s'.rows| == |s'.locks| == cfg.n && ValidTid(s, t) && OthersSame(s, s', t)
    requires Elsewhere(cfg, s, s', r) && j < cfg.n && j != r
    requires Th(s', t).hold == Th(s, t).hold || (Th(s, t).hold.Holds? ==> Th(s, t).hold.row == r)
    ensures RowOk(cfg, s', j)
  {
    hide Parse;
    assert RowOk(cfg, s, j);
  }

  lemma OtherThread(cfg: Config, s: State, s': State, t: Tid, r: int, u: Tid)
    requires Inv(cfg, s) && |s'.rows| == |s'.locks| == cfg.n && ValidTid(s, t) && OthersSame(s, s', t)
    requires Elsewhere(cfg, s, s', r) && ValidTid(s, u) && u != t
    requires 0 <= r < cfg.n ==>
      (s.locks[r] == Free || s.locks[r].owner == t) && (Mapped(cfg, r, s.rows[r]) ==> Mapped(cfg, r, s'.rows[r]))
    ensures ThreadOk(cfg, s', u)
  {
    hide Inside, Agrees;
    assert ThreadOk(cfg, s, u);
    var th := Th(s, u);
    if th.hold.Holds? {
      var i := th.hold.row;
      InsideFalls(cfg, u, th.prog, i, th.hold.depth, ViewOf(cfg, s, i), ViewOf(cfg, s', i));
    }
  }

  /** A step of t that touches at most row r, which no other thread holds. */
  lemma Frame(cfg: Config, s: State, s': State, t: Tid, r: int)
    requires Inv(cfg, s) && |s'.rows| == |s'.locks| == cfg.n && ValidTid(s, t) && OthersSame(s, s', t)
    requires Elsewhere(cfg, s, s', r)
    requires 0 <= r < cfg.n ==>
      && (s.locks[r] == Free || s.locks[r].owner == t)
      && RowOk(cfg, s', r) && (Mapped(cfg, r, s.rows[r]) ==> Mapped(cfg, r, s'.rows[r]))
    requires ThreadOk(cfg, s', t) && QueueOk(cfg, s')
    requires Th(s', t).hold == Th(s, t).hold || (Th(s, t).hold.Holds? ==> Th(s, t).hold.row == r)
    ensures Inv(cfg, s')
  {
    forall j: nat | j < cfg.n
      ensures RowOk(cfg, s', j)
    {
      if j != r {
        OtherRow(cfg, s, s', t, r, j);
      }
    }
    forall u: Tid | ValidTid(s', u)
      ensures ThreadOk(cfg, s', u)
    {
      if u != t {
        OtherThread(cfg, s, s', t, r, u);
      }
    }
  }

  lemma ThreadSet(s: State, t: Tid, th: Thread)
    requires ValidTid(s, t)
    ensures OthersSame(s, SetTh(s, t, th), t) && Th(SetTh(s, t, th), t) == th
    ensures SetTh(s, t, th).rows == s.rows && SetTh(s, t, th).locks == s.locks && SetTh(s, t, th).log == s.log
    ensures SetTh(s, t, th).queue == s.queue
  {
  }

  /** A step that only moves thread t on. */
  lemma OnlyControl(cfg: Config, s: State, s': State, t: Tid)
    requires Inv(cfg, s) && ValidTid(s, t) && OthersSame(s, s', t)
    requires s'.rows == s.rows && s'.locks == s.locks && s'.log == s.log
    requires Th(s', t).hold == Th(s, t).hold && ThreadOk(cfg, s', t) && QueueOk(cfg, s')
    ensures Inv(cfg, s')
  {
    hide ThreadOk, RowOk, Agrees;
    Frame(cfg, s, s', t, -1);
  }

  // ------------------------------------------------------------- locks

  lemma TakeFirst(cfg: Config, s: State, t: Tid, e: Entry)
    requires Inv(cfg, s) && ValidTid(s, t) && Th(s, t) == Thread(Enter(e), NoHold)
    requires InTable(s, RowOf(e)) ==> CanTake(s.locks[RowOf(e)], t)
    ensures InTable(s, RowOf(e)) && Inv(cfg, Acquire(s, t, RowOf(e), Body(cfg, e)))
  {
    assert ThreadOk(cfg, s, t);
    var r := RowOf(e);
    assert RowOk(cfg, s, r);
    assert s.locks[r] == Free;
    hide Inside, Agrees;
    var s' := Acquire(s, t, r, Body(cfg, e));
    ThreadSet(s.(locks := s.locks[r := Held(t, 1)]), t, Thread(Body(cfg, e), Holds(r, 1)));
    BodyOk(cfg, t, e, ViewOf(cfg, s, r));
    assert ViewOf(cfg, s', r) == ViewOf(cfg, s, r);
    Frame(cfg, s, s', t, r);
  }

  lemma TakeAgain(cfg: Config, s: State, t: Tid, i: nat, d: nat, k: Prog, bad: Prog)
    requires Inv(cfg, s) && ValidTid(s, t) && Th(s, t) == Thread(Lock(i, k, bad), Holds(i, d))
    ensures InTable(s, i) && Inv(cfg, Acquire(s, t, i, k))
  {
    assert ThreadOk(cfg, s, t) && RowOk(cfg, s, i);
    var s' := Acquire(s, t, i, k);
    ThreadSet(s.(locks := s.locks[i := Held(t, d + 1)]), t, Thread(k, Holds(i, d + 1)));
    assert ViewOf(cfg, s', i) == ViewOf(cfg, s, i);
    hide Agrees;
    assert ThreadOk(cfg, s', t);
    hide Inside;
    Frame(cfg, s, s', t, i);
  }

  lemma DropOk(cfg: Config, s: State, t: Tid, i: nat, d: nat, k: Prog)
    requires Inv(cfg, s) && ValidTid(s, t) && Th(s, t) == Thread(Unlock(i, k), Holds(i, d))
    ensures CanDrop(s, t, i) && i < cfg.n == |s.rows| == |s.locks| && s.locks[i] == Held(t, d)
    ensures var s' := Release(s, t, i, k);
            ValidTid(s', t) && |s'.rows| == |s'.locks| == cfg.n && ThreadOk(cfg, s', t) && RowOk(cfg, s', i)
  {
    hide Agrees, LastOffered, LastNote, Outside, QueueOk;
    assert ThreadOk(cfg, s, t) && RowOk(cfg, s, i);
    var s' := Release(s, t, i, k);
    assert ViewOf(cfg, s', i) == ViewOf(cfg, s, i);
  }

  lemma Drop(cfg: Config, s: State, t: Tid, i: nat, d: nat, k: Prog)
    requires Inv(cfg, s) && ValidTid(s, t) && Th(s, t) == Thread(Unlock(i, k), Holds(i, d))
    ensures CanDrop(s, t, i) && Inv(cfg, Release(s, t, i, k))
  {
    hide ThreadOk, RowOk, Agrees, Inside, Outside;
    DropOk(cfg, s, t, i, d, k);
    var s' := Release(s, t, i, k);
    var l := if d == 1 then Free else Held(t, d - 1);
    ThreadSet(s.(locks := s.locks[i := l]), t, Thread(k, if d == 1 then NoHold else Holds(i, d - 1)));
    Frame(cfg, s, s', t, i);
  }

  // ------------------------------------------------------------- updates and notes

  lemma UpdateStep(cfg: Config, s: State, t: Tid, i: nat, d: nat, u: Update, k: Prog)
    requires Inv(cfg, s) && ValidTid(s, t) && Th(s, t) == Thread(Upd(i, u, k), Holds(i, d))
    ensures InTable(s, i) && Inv(cfg, Goto(s.(rows := s.rows[i := Apply(s.rows[i], u)]), t, k))
  {
    assert ThreadOk(cfg, s, t) && RowOk(cfg, s, i);
    hide Agrees;
    var s1 := s.(rows := s.rows[i := Apply(s.rows[i], u)]);
    var s' := Goto(s1, t, k);
    ThreadSet(s1, t, Thread(k, Holds(i, d)));
    assert ViewOf(cfg, s', i) == ViewOf(cfg, s, i).(row := Apply(s.rows[i], u));
    assert ThreadOk(cfg, s', t);
    hide Inside, Apply;
    Frame(cfg, s, s', t, i);
  }

  lemma LogGrows(cfg: Config, log: seq<Item>, x: Item, i: nat)
    ensures LastNote(log + [x], i) == if x.Noted? && x.note.i == i then Some(x.note) else LastNote(log, i)
    ensures LastOfferedGrows(cfg, log, x, i + 1, LcpStatus) && LastOfferedGrows(cfg, log, x, i + 1, IpcpStatus)
  {
    assert (log + [x])[..|log|] == log;
  }

  predicate LastOfferedGrows(cfg: Config, log: seq<Item>, x: Item, inst: int, p: Param) {
    LastOffered(cfg, log + [x], inst, p) ==
    if x.Offered? && Concerns(cfg, x.ev, inst, p) then Some(x.ev.val) else LastOffered(cfg, log, inst, p)
  }

  lemma MarkStep(cfg: Config, s: State, t: Tid, i: nat, d: nat, note: Note, k: Prog)
    requires Inv(cfg, s) && ValidTid(s, t) && Th(s, t) == Thread(Mark(note, k), Holds(i, d))
    ensures Inv(cfg, Goto(s.(log := s.log + [Noted(note)]), t, k))
  {
    hide LastOffered, LastNote;
    assert ThreadOk(cfg, s, t) && RowOk(cfg, s, i);
    hide Agrees;
    var s1 := s.(log := s.log + [Noted(note)]);
    var s' := Goto(s1, t, k);
    ThreadSet(s1, t, Thread(k, Holds(i, d)));
    forall j: nat | j < cfg.n
      ensures ViewOf(cfg, s', j) == if j == i then ViewOf(cfg, s, i).(note := Some(note)) else ViewOf(cfg, s, j)
    {
      LogGrows(cfg, s.log, Noted(note), j);
    }
    assert ThreadOk(cfg, s', t);
    hide Inside, ViewOf;
    Frame(cfg, s, s', t, i);
  }

  // ------------------------------------------------------------- sends

  lemma OfferedView(cfg: Config, s: State, s': State, t: Tid, e: Event, held: bool, took: bool, j: nat)
    requires j < |s.rows| && s'.rows == s.rows && s'.log == s.log + [Offered(t, e, held, took)]
    ensures e.inst != j + 1 ==> ViewOf(cfg, s', j) == ViewOf(cfg, s, j)
    ensures e.inst == j + 1 ==>
              ViewOf(cfg, s', j) == AfterOffer(cfg, ViewOf(cfg, s, j), if e.BusSet? then Set(e.param, e.val) else Launch)
  {
    LogGrows(cfg, s.log, Offered(t, e, held, took), j);
  }

  lemma SendFields(s: State, t: Tid, e: Event, took: bool, k: Prog)
    requires ValidTid(s, t)
    ensures var s' := SendTo(s, t, e, took, k);
            && OthersSame(s, s', t) && Th(s', t) == Thread(k, Th(s, t).hold)
            && s'.rows == s.rows && s'.locks == s.locks && s'.queue == (if took then s.queue + [e] else s.queue)
            && exists held :: s'.log == s.log + [Offered(t, e, held, took)]
  {
    var hold := Th(s, t).hold;
    assert SendTo(s, t, e, took, k).log == s.log + [Offered(t, e, hold.Holds? && hold.row == e.inst - 1, took)];
  }

  lemma SendInside(cfg: Config, s: State, t: Tid, i: nat, d: nat, to: Target, what: Payload, ok: Prog, fail: Prog, c: Choice)
    requires Inv(cfg, s) && ValidTid(s, t) && Th(s, t) == Thread(Send(to, what, ok, fail), Holds(i, d))
    ensures EventOf(s, to, what).inst == i + 1 && i < cfg.n
    ensures Inv(cfg, SendTo(s, t, EventOf(s, to, what), c.b, if c.b then ok else fail))
  {
    hide Agrees, LastOffered, LastNote, Inside, Outside, EventOf, ViewOf, AfterOffer, SendTo;
    InsideSend(cfg, s, t, i, d, to, what, ok, fail);
    var e, k := EventOf(s, to, what), if c.b then ok else fail;
    var s' := SendTo(s, t, e, c.b, k);
    SendFields(s, t, e, c.b, k);
    var held :| s'.log == s.log + [Offered(t, e, held, c.b)];
    hide SendTo;
    forall j: nat | j < cfg.n
      ensures ViewOf(cfg, s', j) == if j == i then AfterOffer(cfg, ViewOf(cfg, s, i), what) else ViewOf(cfg, s, j)
    {
      OfferedView(cfg, s, s', t, e, held, c.b, j);
    }
    assert RowOk(cfg, s, i);
    assert ThreadOk(cfg, s', t);
    Frame(cfg, s, s', t, i);
  }

  lemma InsideSend(cfg: Config, s: State, t: Tid, i: nat, d: nat, to: Target, what: Payload, ok: Prog, fail: Prog)
    requires Inv(cfg, s) && ValidTid(s, t) && Th(s, t) == Thread(Send(to, what, ok, fail), Holds(i, d))
    ensures i < cfg.n && d > 0 && s.locks[i] == Held(t, d)
    ensures var e := EventOf(s, to, what);
            e.inst == i + 1 && what == if e.BusSet? then Set(e.param, e.val) else Launch
    ensures what.Set? && what.val == VUp ==> Mapped(cfg, i, s.rows[i])
    ensures Inside(cfg, t, ok, i, d, AfterOffer(cfg, ViewOf(cfg, s, i), what))
    ensures Inside(cfg, t, fail, i, d, AfterOffer(cfg, ViewOf(cfg, s, i), what))
  {
    hide Agrees, LastOffered, LastNote, AfterOffer;
    assert ThreadOk(cfg, s, t) && RowOk(cfg, s, i);
  }

  lemma SendOutside(cfg: Config, s: State, t: Tid, to: Target, what: Payload, ok: Prog, fail: Prog, c: Choice)
    requires Inv(cfg, s) && ValidTid(s, t) && Th(s, t) == Thread(Send(to, what, ok, fail), NoHold)
    ensures 1 <= EventOf(s, to, what).inst <= cfg.n
    ensures Inv(cfg, SendTo(s, t, EventOf(s, to, what), c.b, if c.b then ok else fail))
  {
    assert ThreadOk(cfg, s, t);
    hide Agrees, LastOffered, LastNote, Inside;
    var e, k := EventOf(s, to, what), if c.b then ok else fail;
    var s' := SendTo(s, t, e, c.b, k);
    SendFields(s, t, e, c.b, k);
    var held :| s'.log == s.log + [Offered(t, e, held, c.b)];
    hide SendTo;
    forall j: nat | j < cfg.n
      ensures Falls(ViewOf(cfg, s', j), ViewOf(cfg, s, j))
    {
      OfferedView(cfg, s, s', t, e, held, c.b, j);
    }
    hide ViewOf;
    Frame(cfg, s, s', t, -1);
  }

  // ------------------------------------------------------------- the whole step

  lemma TestStep(cfg: Config, s: State, t: Tid, i: nat, d: nat, k: Prog)
    requires Inv(cfg, s) && ValidTid(s, t) && Th(s, t).hold == Holds(i, d) && 0 <= i < cfg.n
    requires Inside(cfg, t, k, i, d, ViewOf(cfg, s, i))
    ensures Inv(cfg, Goto(s, t, k))
  {
    assert ThreadOk(cfg, s, t);
    hide Agrees, Inside;
    ThreadSet(s, t, Thread(k, Holds(i, d)));
    OnlyControl(cfg, s, Goto(s, t, k), t);
  }

  lemma InsideStep(cfg: Config, s: State, t: Tid, c: Choice)
    requires Inv(cfg, s) && Ready(s, t, c) && Th(s, t).hold.Holds?
    ensures Inv(cfg, Execute(cfg, s, t, c))
  {
    assert ThreadOk(cfg, s, t);
    var i, d := Th(s, t).hold.row, Th(s, t).hold.depth;
    var v := ViewOf(cfg, s, i);
    hide Agrees, ViewOf, SendTo, Acquire, Release, Body, CodeBody, Apply;
    match Th(s, t).prog
    case Lock(_, k, bad) => TakeAgain(cfg, s, t, i, d, k, bad);
    case Unlock(_, k) => Drop(cfg, s, t, i, d, k);
    case Upd(_, u, k) => UpdateStep(cfg, s, t, i, d, u, k);
    case Send(to, what, ok, fail) => SendInside(cfg, s, t, i, d, to, what, ok, fail, c);
    case Mark(note, k) => MarkStep(cfg, s, t, i, d, note, k);
    case TestPid(_, pid, yes, no) => TestPidStep(cfg, s, t, i, d, pid, yes, no);
    case TestEnabled(_, yes, no) => TestStep(cfg, s, t, i, d, if s.rows[i].enabled then yes else no);
    case TestAuth(_, yes, no) => TestStep(cfg, s, t, i, d, if s.rows[i].auth != NoAuth then yes else no);
    case TestAlive(_, yes, no) => TestStep(cfg, s, t, i, d, if c.b then yes else no);
    case Choose(yes, no) => TestStep(cfg, s, t, i, d, if c.b then yes else no);
    case LoadSlot(_, k) => LoadStep(cfg, s, t, i, d, k);
    case Jump(_, code) => JumpStep(cfg, s, t, i, d, code);
    case _ =>
  }

  lemma TestPidStep(cfg: Config, s: State, t: Tid, i: nat, d: nat, pid: int, yes: Prog, no: Prog)
    requires Inv(cfg, s) && ValidTid(s, t) && Th(s, t) == Thread(TestPid(i, pid, yes, no), Holds(i, d)) && i < cfg.n
    ensures Inv(cfg, Goto(s, t, if s.rows[i].pid == pid then yes else no))
  {
    assert ThreadOk(cfg, s, t);
    hide Agrees;
    TestStep(cfg, s, t, i, d, if s.rows[i].pid == pid then yes else no);
  }

  lemma LoadStep(cfg: Config, s: State, t: Tid, i: nat, d: nat, k: Prog)
    requires Inv(cfg, s) && ValidTid(s, t) && Th(s, t) == Thread(LoadSlot(i, k), Holds(i, d)) && i < cfg.n
    ensures Inv(cfg, Goto(s.(wanReg := s.rows[i].wan, virtReg := s.rows[i].virt), t, k))
  {
    assert ThreadOk(cfg, s, t);
    hide Agrees;
    var s1 := s.(wanReg := s.rows[i].wan, virtReg := s.rows[i].virt);
    ThreadSet(s1, t, Thread(k, Holds(i, d)));
    assert ViewOf(cfg, Goto(s1, t, k), i) == ViewOf(cfg, s, i);
    OnlyControl(cfg, s, Goto(s1, t, k), t);
  }

  lemma JumpStep(cfg: Config, s: State, t: Tid, i: nat, d: nat, code: Code)
    requires Inv(cfg, s) && ValidTid(s, t) && Th(s, t) == Thread(Jump(i, code), Holds(i, d)) && i < cfg.n
    ensures Inv(cfg, Goto(s, t, CodeBody(cfg, code, s.rows[i].inst)))
  {
    assert ThreadOk(cfg, s, t) && RowOk(cfg, s, i);
    CodeBodyOk(cfg, t, i, code, ViewOf(cfg, s, i));
    hide Agrees, Inside, CodeBody;
    TestStep(cfg, s, t, i, d, CodeBody(cfg, code, i + 1));
  }

  lemma OutsideStep(cfg: Config, s: State, t: Tid, c: Choice)
    requires Inv(cfg, s) && Ready(s, t, c) && Th(s, t).hold.NoHold?
    ensures Inv(cfg, Execute(cfg, s, t, c))
  {
    assert ThreadOk(cfg, s, t);
    hide Agrees, Inside, ViewOf, SendTo, Acquire, Body;
    match Th(s, t).prog
    case Enter(e) => TakeFirst(cfg, s, t, e);
    case Send(to, what, ok, fail) => SendOutside(cfg, s, t, to, what, ok, fail, c);
    case Receive =>
      if s.queue == [] {
        OnlyControl(cfg, s, Goto(s.(cur := 0), Ev, Done), Ev);
      } else {
        DequeueStep(cfg, s, c);
      }
    case WanSet(ev, k) => OnlyControl(cfg, s, SetWanParam(cfg, s, ev, c.b, k), Ev);
    case _ =>
  }

  // ------------------------------------------------------------- receiving and beginning

  lemma DeliverOk(cfg: Config, e: Event, queries: bool, pid: nat)
    requires ValidConfig(cfg) && 1 <= e.inst <= cfg.n
    ensures Outside(cfg, Ev, Deliver(cfg, e, queries, pid)) && NeedsMapped(Deliver(cfg, e, queries, pid)).None?
  {
  }

  lemma DequeueStep(cfg: Config, s: State, c: Choice)
    requires Inv(cfg, s) && s.ev.hold == NoHold && s.queue != []
    ensures Inv(cfg, Dequeue(cfg, s, c))
  {
    hide Agrees, Inside, Deliver;
    DeliverOk(cfg, s.queue[0], c.b, c.pid);
    OnlyControl(cfg, s, Dequeue(cfg, s, c), Ev);
  }

  /** A thread at the end of its program holds nothing. */
  lemma DoneHoldsNothing(cfg: Config, s: State, t: Tid)
    requires Inv(cfg, s) && ValidTid(s, t) && Th(s, t).prog in {Done, Receive}
    ensures Th(s, t).hold == NoHold
  {
    hide Agrees;
    assert ThreadOk(cfg, s, t);
  }

  lemma BeginStep(cfg: Config, s: State, t: Tid, p: Prog)
    requires Inv(cfg, s) && ValidTid(s, t) && Th(s, t).hold == NoHold
    requires Outside(cfg, t, p) && NeedsMapped(p).None?
    ensures Inv(cfg, Goto(s, t, p))
  {
    hide Agrees, Inside;
    ThreadSet(s, t, Thread(p, NoHold));
    OnlyControl(cfg, s, Goto(s, t, p), t);
  }

  lemma InvNext(cfg: Config, s: State, l: Label)
    requires Inv(cfg, s) && Enabled(cfg, s, l)
    ensures Inv(cfg, Next(cfg, s, l))
  {
    hide Inv, Execute, Dequeue, Goto;
    match l
    case Run(t, c) =>
      if Th(s, t).hold.Holds? {
        InsideStep(cfg, s, t, c);
      } else {
        OutsideStep(cfg, s, t, c);
      }
    case Poll(c) =>
      DoneHoldsNothing(cfg, s, Ev);
      DequeueStep(cfg, s, c);
    case BeginMsg(m) =>
      DoneHoldsNothing(cfg, s, Ev);
      BeginStep(cfg, s, Ev, ProcessPppState(cfg, m));
    case BeginApi(k, op) =>
      DoneHoldsNothing(cfg, s, Api(k));
      BeginStep(cfg, s, Api(k), Enter(EApi(op)));
  }

  lemma InvInitial(cfg: Config, s: State)
    requires Initial(cfg, s)
    ensures Inv(cfg, s)
  {
    forall j: nat | j < cfg.n
      ensures RowOk(cfg, s, j)
    {
      assert FreshRow(s.rows[j], j);
    }
  }

  lemma {:induction false} InvRun(cfg: Config, s: State, ls: seq<Label>)
    requires Inv(cfg, s) && CanRun(cfg, s, ls)
    ensures Inv(cfg, After(cfg, s, ls))
    decreases ls
  {
    hide Inv, Next, Enabled;
    if ls != [] {
      InvNext(cfg, s, ls[0]);
      InvRun(cfg, Next(cfg, s, ls[0]), ls[1..]);
    }
  }

  /** Every reachable state is in order. */
  lemma InvReachable(cfg: Config, s: State)
    requires Reachable(cfg, s)
    ensures Inv(cfg, s)
  {
    hide Inv, Next, Enabled, CanRun, After, Initial;
    var s0: State, ls: seq<Label> :| Initial(cfg, s0) && CanRun(cfg, s0, ls) && s == After(cfg, s0, ls);
    InvInitial(cfg, s0);
    InvRun(cfg, s0, ls);
  }
}
