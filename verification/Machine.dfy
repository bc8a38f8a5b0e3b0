/** The event machine: one event thread and any number of API threads, each
    stepping through programs over the shared table, locks and queue. */
module Machine {
  import opened CText
  import opened Ipcp
  import opened Paths
  import opened Program

  datatype LockState = Free | Held(owner: Tid, depth: nat)

  /** The lock a thread holds, as it would count its own acquisitions. */
  datatype Hold = NoHold | Holds(row: int, depth: nat)

  datatype Thread = Thread(prog: Prog, hold: Hold)

  /** History. An event is offered when a send is attempted; `took` tells
      whether it entered the queue, `held` whether the sender held the lock of
      the interface the event names. */
  datatype Item =
    | Offered(from: Tid, ev: Event, held: bool, took: bool)
    | Noted(note: Note)

  datatype State = State(
    rows: seq<Row>, locks: seq<LockState>, queue: seq<Event>,
    ev: Thread, wanReg: int, virtReg: int, api: seq<Thread>,
    wan: map<string, Verdict>,
    // history
    log: seq<Item>, dequeued: seq<Event>, told: seq<Event>, clean: bool,
    apiSends: nat, doubles: nat, cur: nat)

  /** What the outside decides at a step: the outcome of a fallible call, or
      the pid a launched client will get. */
  datatype Choice = Choice(b: bool, pid: nat)

  datatype Label =
    | Run(t: Tid, c: Choice)
    | Poll(c: Choice)
    | BeginMsg(m: Msg)
    | BeginApi(k: nat, op: ApiOp)

  // ------------------------------------------------------------- state access

  predicate ValidTid(s: State, t: Tid) {
    t.Api? ==> t.k < |s.api|
  }

  function Th(s: State, t: Tid): Thread
    requires ValidTid(s, t)
  {
    if t == Ev then s.ev else s.api[t.k]
  }

  function SetTh(s: State, t: Tid, th: Thread): (s': State)
    requires ValidTid(s, t)
  {
    if t == Ev then s.(ev := th) else s.(api := s.api[t.k := th])
  }

  function Goto(s: State, t: Tid, p: Prog): State
    requires ValidTid(s, t)
  {
    SetTh(s, t, Thread(p, Th(s, t).hold))
  }

  predicate InTable(s: State, j: int) {
    0 <= j < |s.rows| && j < |s.locks|
  }

  // ------------------------------------------------------------- locks

  predicate CanTake(l: LockState, t: Tid) {
    l == Free || l.owner == t
  }

  function Take(l: LockState, t: Tid): LockState {
    if l == Free then Held(t, 1) else Held(t, l.depth + 1)
  }

  function Acquire(s: State, t: Tid, j: nat, k: Prog): State
    requires ValidTid(s, t) && InTable(s, j)
  {
    var l := Take(s.locks[j], t);
    SetTh(s.(locks := s.locks[j := l]), t, Thread(k, Holds(j, l.depth)))
  }

  predicate CanDrop(s: State, t: Tid, j: nat) {
    InTable(s, j) && s.locks[j].Held? && s.locks[j].owner == t && s.locks[j].depth > 0
  }

  function Release(s: State, t: Tid, j: nat, k: Prog): State
    requires ValidTid(s, t) && CanDrop(s, t, j)
  {
    var d := s.locks[j].depth;
    if d == 1 then SetTh(s.(locks := s.locks[j := Free]), t, Thread(k, NoHold))
    else SetTh(s.(locks := s.locks[j := Held(t, d - 1)]), t, Thread(k, Holds(j, d - 1)))
  }

  // ------------------------------------------------------------- sends and receives

  function EventOf(s: State, to: Target, what: Payload): Event {
    var inst := match to case ToInst(n) => n case ToRow(i) => if i < |s.rows| then s.rows[i].inst else 0;
    match what
    case Set(param, val) => BusSet(inst, param, val)
    case Launch => Exec(inst)
  }

  function SendTo(s: State, t: Tid, e: Event, took: bool, k: Prog): State
    requires ValidTid(s, t)
  {
    var hold := Th(s, t).hold;
    var item := Offered(t, e, hold.Holds? && hold.row == e.inst - 1, took);
    var s1 := s.(log := s.log + [item]);
    var s2 :=
      if !took then s1.(clean := false)
      else Count(s1.(queue := s.queue + [e]), t);
    Goto(s2, t, k)
  }

  /** Counts accepted API sends, and messages with a second accepted event. */
  function Count(s: State, t: Tid): State {
    if t != Ev then s.(apiSends := s.apiSends + 1)
    else s.(cur := s.cur + 1, doubles := if s.cur == 1 then s.doubles + 1 else s.doubles)
  }

  /** mq_receive of a non-empty queue and the start of the delivery. */
  function Dequeue(cfg: Config, s: State, c: Choice): State
    requires s.queue != []
  {
    s.(queue := s.queue[1..], dequeued := s.dequeued + [s.queue[0]], cur := 0, wanReg := -1, virtReg := -1,
       ev := Thread(Deliver(cfg, s.queue[0], c.b, c.pid), s.ev.hold))
  }

  /** The parameter is named with the two numbers that were read from the row. */
  function SetWanParam(cfg: Config, s: State, ev: Event, ok: bool, k: Prog): State
    requires ev.BusSet?
  {
    var s1 := s.(told := s.told + [ev]);
    var s2 :=
      if ok then s1.(wan := s.wan[StatusName(cfg.unified, ev.param, s.wanReg, s.virtReg) := ev.val]) else s1.(clean := false);
    Goto(s2, Ev, k)
  }

  // ------------------------------------------------------------- steps

  /** Thread t can execute its next instruction with this outcome. */
  predicate Ready(s: State, t: Tid, c: Choice) {
    && ValidTid(s, t)
    && match Th(s, t).prog
       case Done => false
       case Receive => t == Ev
       case Crash => false
       case Enter(e) => InTable(s, RowOf(e)) ==> CanTake(s.locks[RowOf(e)], t)
       case Lock(j, _, _) => InTable(s, j) ==> CanTake(s.locks[j], t)
       case Unlock(i, _) => CanDrop(s, t, i)
       case Upd(i, _, _) => InTable(s, i)
       case Send(_, _, _, _) => c.b ==> |s.queue| < MAX_QUEUE_LENGTH
       case Mark(_, _) => true
       case TestPid(i, _, _, _) => InTable(s, i)
       case TestEnabled(i, _, _) => InTable(s, i)
       case TestAuth(i, _, _) => InTable(s, i)
       case TestAlive(i, _, _) => InTable(s, i) && (c.b ==> s.rows[i].pid != 0)
       case Choose(_, _) => true
       case LoadSlot(i, _) => t == Ev && InTable(s, i)
       case WanSet(ev, _) => t == Ev && ev.BusSet?
       case Jump(i, _) => InTable(s, i)
  }

  function Execute(cfg: Config, s: State, t: Tid, c: Choice): State
    requires Ready(s, t, c)
  {
    match Th(s, t).prog
    case Done => s
    case Receive => if s.queue == [] then Goto(s.(cur := 0), Ev, Done) else Dequeue(cfg, s, c)
    case Crash => s
    case Enter(e) => if InTable(s, RowOf(e)) then Acquire(s, t, RowOf(e), Body(cfg, e)) else Goto(s, t, NoRow(e))
    case Lock(j, k, bad) => if InTable(s, j) then Acquire(s, t, j, k) else Goto(s, t, bad)
    case Unlock(i, k) => Release(s, t, i, k)
    case Upd(i, u, k) => Goto(s.(rows := s.rows[i := Apply(s.rows[i], u)]), t, k)
    case Send(to, what, ok, fail) => SendTo(s, t, EventOf(s, to, what), c.b, if c.b then ok else fail)
    case Mark(note, k) => Goto(s.(log := s.log + [Noted(note)]), t, k)
    case TestPid(i, pid, yes, no) => Goto(s, t, if s.rows[i].pid == pid then yes else no)
    case TestEnabled(i, yes, no) => Goto(s, t, if s.rows[i].enabled then yes else no)
    case TestAuth(i, yes, no) => Goto(s, t, if s.rows[i].auth != NoAuth then yes else no)
    case TestAlive(i, yes, no) => Goto(s, t, if c.b then yes else no)
    case Choose(yes, no) => Goto(s, t, if c.b then yes else no)
    case LoadSlot(i, k) => Goto(s.(wanReg := s.rows[i].wan, virtReg := s.rows[i].virt), t, k)
    case WanSet(ev, k) => SetWanParam(cfg, s, ev, c.b, k)
    case Jump(i, code) => Goto(s, t, CodeBody(cfg, code, s.rows[i].inst))
  }

  lemma RowsStep(cfg: Config, s: State, u: Tid, c: Choice)
    requires Ready(s, u, c)
    ensures var s', p := Execute(cfg, s, u, c), Th(s, u).prog;
            s'.rows == if p.Upd? then s.rows[p.i := Apply(s.rows[p.i], p.u)] else s.rows
  {
    hide Apply, Body, CodeBody, NoRow, Deliver, StatusName, Take, EventOf;
  }

  lemma LogStep(cfg: Config, s: State, u: Tid, c: Choice)
    requires Ready(s, u, c) && !Th(s, u).prog.Send?
    ensures var s', p := Execute(cfg, s, u, c), Th(s, u).prog;
            s'.log == if p.Mark? then s.log + [Noted(p.note)] else s.log
  {
    hide Execute;
    var p := Th(s, u).prog;
    if p.Enter? || p.Lock? || p.Unlock? {
      LogLock(cfg, s, u, c);
    } else if p.Upd? || p.Mark? || p.LoadSlot? || p.Receive? || p.WanSet? {
      LogStore(cfg, s, u, c);
    } else {
      LogGoto(cfg, s, u, c);
    }
  }

  lemma LogLock(cfg: Config, s: State, u: Tid, c: Choice)
    requires Ready(s, u, c) && (Th(s, u).prog.Enter? || Th(s, u).prog.Lock? || Th(s, u).prog.Unlock?)
    ensures Execute(cfg, s, u, c).log == s.log
  {
    hide Body, NoRow, Take;
  }

  lemma LogStore(cfg: Config, s: State, u: Tid, c: Choice)
    requires Ready(s, u, c)
    requires var p := Th(s, u).prog; p.Upd? || p.Mark? || p.LoadSlot? || p.Receive? || p.WanSet?
    ensures var s', p := Execute(cfg, s, u, c), Th(s, u).prog;
            s'.log == if p.Mark? then s.log + [Noted(p.note)] else s.log
  {
    hide Apply, Deliver, StatusName;
  }

  lemma LogGoto(cfg: Config, s: State, u: Tid, c: Choice)
    requires Ready(s, u, c)
    requires var p := Th(s, u).prog;
             p.Done? || p.Crash? || p.TestPid? || p.TestEnabled? || p.TestAuth? || p.TestAlive? || p.Choose? || p.Jump?
    ensures Execute(cfg, s, u, c).log == s.log
  {
    hide CodeBody;
  }

  lemma SendIs(cfg: Config, s: State, t: Tid, c: Choice)
    requires Ready(s, t, c) && Th(s, t).prog.Send?
    ensures var p := Th(s, t).prog;
            Execute(cfg, s, t, c) == SendTo(s, t, EventOf(s, p.to, p.what), c.b, if c.b then p.ok else p.fail)
  {
    hide EventOf, SendTo;
  }

  predicate Enabled(cfg: Config, s: State, l: Label) {
    match l
    case Run(t, c) => Ready(s, t, c)
    case Poll(_) => s.ev.prog == Done && s.queue != []
    case BeginMsg(m) => s.ev.prog == Done && m.pid != 0
    case BeginApi(k, op) => k < |s.api| && s.api[k].prog == Done && op.i < cfg.n
  }

  function Next(cfg: Config, s: State, l: Label): State
    requires Enabled(cfg, s, l)
  {
    match l
    case Run(t, c) => Execute(cfg, s, t, c)
    case Poll(c) => Dequeue(cfg, s, c)
    case BeginMsg(m) => Goto(s, Ev, ProcessPppState(cfg, m))
    case BeginApi(k, op) => Goto(s, Api(k), Enter(EApi(op)))
  }

  /** New work: a socket message or an API call, as opposed to going on. */
  predicate Starts(l: Label) {
    l.BeginMsg? || l.BeginApi?
  }

  // ------------------------------------------------------------- runs

  predicate CanRun(cfg: Config, s: State, ls: seq<Label>)
    decreases ls
  {
    ls == [] || (Enabled(cfg, s, ls[0]) && CanRun(cfg, Next(cfg, s, ls[0]), ls[1..]))
  }

  function After(cfg: Config, s: State, ls: seq<Label>): State
    requires CanRun(cfg, s, ls)
    decreases ls
  {
    if ls == [] then s else After(cfg, Next(cfg, s, ls[0]), ls[1..])
  }

  lemma {:induction false} RunsCompose(cfg: Config, s: State, a: seq<Label>, b: seq<Label>)
    requires CanRun(cfg, s, a) && CanRun(cfg, After(cfg, s, a), b)
    ensures CanRun(cfg, s, a + b) && After(cfg, s, a + b) == After(cfg, After(cfg, s, a), b)
    decreases a
  {
    hide Next, Enabled;
    if a == [] {
      assert a + b == b;
    } else {
      RunsCompose(cfg, Next(cfg, s, a[0]), a[1..], b);
      assert (a + b)[1..] == a[1..] + b;
    }
  }

  /** Tables are allocated zeroed; start-up numbers the rows and loads some
      configuration. Nothing runs yet. */
  predicate FreshRow(r: Row, i: nat) {
    && r.inst == i + 1 && !r.enabled && r.pid == 0 && r.wan == 0 && r.virt == 0
    && r.status == NoStatus && r.conn == NoConn
    && r.Addresses() == IpcpData(ZERO_ADDR, ZERO_ADDR, ZERO_ADDR, ZERO_ADDR)
  }

  predicate Initial(cfg: Config, s: State) {
    && ValidConfig(cfg)
    && |s.rows| == cfg.n && |s.locks| == cfg.n
    && (forall i :: 0 <= i < cfg.n ==> FreshRow(s.rows[i], i))
    && (forall i :: 0 <= i < cfg.n ==> s.locks[i] == Free)
    && s.queue == [] && s.ev == Thread(Done, NoHold)
    && (forall k :: 0 <= k < |s.api| ==> s.api[k] == Thread(Done, NoHold))
    && s.wan == map[] && s.log == [] && s.dequeued == [] && s.told == [] && s.clean
    && s.apiSends == 0 && s.doubles == 0 && s.cur == 0
  }

  /** A state some run from an initial state reaches. */
  ghost predicate Reachable(cfg: Config, s: State) {
    exists s0: State, ls: seq<Label> :: Initial(cfg, s0) && CanRun(cfg, s0, ls) && s == After(cfg, s0, ls)
  }

  // ------------------------------------------------------------- the history

  predicate Concerns(cfg: Config, e: Event, inst: int, param: Param) {
    e.BusSet? && e.inst == inst && SameName(cfg.unified, e.param, param)
  }

  /** The verdict of the last event in `es` about a parameter of an interface. */
  function LastIn(cfg: Config, es: seq<Event>, inst: int, param: Param): Option<Verdict> {
    if es == [] then None
    else
      var e := es[|es| - 1];
      if Concerns(cfg, e, inst, param) then Some(e.val) else LastIn(cfg, es[..|es| - 1], inst, param)
  }

  function Offers(log: seq<Item>): seq<Event> {
    if log == [] then []
    else
      var x := log[|log| - 1];
      if x.Offered? then Offers(log[..|log| - 1]) + [x.ev] else Offers(log[..|log| - 1])
  }

  function Accepted(log: seq<Item>): seq<Event> {
    if log == [] then []
    else
      var x := log[|log| - 1];
      if x.Offered? && x.took then Accepted(log[..|log| - 1]) + [x.ev] else Accepted(log[..|log| - 1])
  }

  /** The verdict last offered for a parameter of an interface. */
  function LastOffered(cfg: Config, log: seq<Item>, inst: int, param: Param): Option<Verdict> {
    if log == [] then None
    else
      var x := log[|log| - 1];
      if x.Offered? && Concerns(cfg, x.ev, inst, param) then Some(x.ev.val)
      else LastOffered(cfg, log[..|log| - 1], inst, param)
  }

  /** The last note about a row: an IPCP message was stored, or a stop cleared. */
  function LastNote(log: seq<Item>, i: nat): Option<Note> {
    if log == [] then None
    else
      var x := log[|log| - 1];
      if x.Noted? && x.note.i == i then Some(x.note) else LastNote(log[..|log| - 1], i)
  }
}
