/** Critical sections are atomic: whatever the other threads do meanwhile, a
    thread that holds a row's lock changes the row, and writes the row's history,
    as it would if it ran alone. */
module Sections {
  import opened CText
  import opened Ipcp
  import opened Paths
  import opened Program
  import opened Machine
  import opened Invariant
  import opened Discipline
  import opened Bounds
  import History
  import Progress

  /** What a critical section leaves behind: the history it wrote, the row, the
      program that goes on without the lock, and the answers not asked for. */
  datatype Outcome = Outcome(items: seq<Item>, row: Row, next: Prog, left: seq<Choice>)

  /** Instructions whose result the outside decides. */
  predicate Asks(p: Prog) {
    p.Send? || p.TestAlive? || p.Choose?
  }

  function Head(cs: seq<Choice>): Choice {
    if cs == [] then Choice(false, 0) else cs[0]
  }

  function Tail(cs: seq<Choice>): seq<Choice> {
    if cs == [] then [] else cs[1..]
  }

  function EventFor(i: nat, what: Payload): Event {
    match what
    case Set(param, val) => BusSet(i + 1, param, val)
    case Launch => Exec(i + 1)
  }

  function Prefixed(x: Item, o: Outcome): Outcome {
    o.(items := [x] + o.items)
  }

  /** Thread t alone, holding row i at depth d, up to the release of the lock;
      `cs` are the answers of the outside, in the order they are asked for. */
  function Play(cfg: Config, t: Tid, p: Prog, i: nat, d: nat, r: Row, cs: seq<Choice>, deep: bool): Outcome
    decreases deep, p
  {
    match p
    case Lock(_, k, _) => Play(cfg, t, k, i, d + 1, r, cs, deep)
    case Unlock(_, k) => if d <= 1 then Outcome([], r, k, cs) else Play(cfg, t, k, i, d - 1, r, cs, deep)
    case Upd(_, u, k) => Play(cfg, t, k, i, d, Apply(r, u), cs, deep)
    case Send(_, what, ok, fail) =>
      Prefixed(Offered(t, EventFor(i, what), true, Head(cs).b),
               Play(cfg, t, if Head(cs).b then ok else fail, i, d, r, Tail(cs), deep))
    case Mark(note, k) => Prefixed(Noted(note), Play(cfg, t, k, i, d, r, cs, deep))
    case TestPid(_, pid, yes, no) => Play(cfg, t, if r.pid == pid then yes else no, i, d, r, cs, deep)
    case TestEnabled(_, yes, no) => Play(cfg, t, if r.enabled then yes else no, i, d, r, cs, deep)
    case TestAuth(_, yes, no) => Play(cfg, t, if r.auth != NoAuth then yes else no, i, d, r, cs, deep)
    case TestAlive(_, yes, no) => Play(cfg, t, if Head(cs).b && r.pid != 0 then yes else no, i, d, r, Tail(cs), deep)
    case Choose(yes, no) => Play(cfg, t, if Head(cs).b then yes else no, i, d, r, Tail(cs), deep)
    case LoadSlot(_, k) => Play(cfg, t, k, i, d, r, cs, deep)
    case Jump(_, c) => if deep then Play(cfg, t, CodeBody(cfg, c, i + 1), i, d, r, cs, false) else Outcome([], r, p, cs)
    case _ => Outcome([], r, p, cs)
  }

  /** The history written under row i's lock. */
  predicate IsUnder(x: Item, i: nat) {
    if x.Offered? then x.held && x.ev.inst == i + 1 else x.note.i == i
  }

  function Under(log: seq<Item>, i: nat): seq<Item> {
    if log == [] then []
    else
      var x := log[|log| - 1];
      if IsUnder(x, i) then Under(log[..|log| - 1], i) + [x] else Under(log[..|log| - 1], i)
  }

  lemma UnderGrows(log: seq<Item>, x: Item, i: nat)
    ensures Under(log + [x], i) == if IsUnder(x, i) then Under(log, i) + [x] else Under(log, i)
  {
    assert (log + [x])[..|log|] == log;
  }

  // ------------------------------------------------------------- one jump at most

  predicate NoJump(p: Prog) {
    match p
    case Lock(_, k, bad) => NoJump(k)
    case Unlock(_, k) => NoJump(k)
    case Upd(_, _, k) => NoJump(k)
    case Send(_, _, ok, fail) => NoJump(ok) && NoJump(fail)
    case Mark(_, k) => NoJump(k)
    case TestPid(_, _, yes, no) => NoJump(yes) && NoJump(no)
    case TestEnabled(_, yes, no) => NoJump(yes) && NoJump(no)
    case TestAuth(_, yes, no) => NoJump(yes) && NoJump(no)
    case TestAlive(_, yes, no) => NoJump(yes) && NoJump(no)
    case Choose(yes, no) => NoJump(yes) && NoJump(no)
    case LoadSlot(_, k) => NoJump(k)
    case WanSet(_, k) => NoJump(k)
    case Jump(_, _) => false
    case _ => true
  }

  lemma UnlockNoJump(i: nat, k: Prog)
    requires NoJump(k)
    ensures NoJump(Unlock(i, k))
  {
  }

  lemma UpdNoJump(i: nat, u: Update, k: Prog)
    requires NoJump(k)
    ensures NoJump(Upd(i, u, k))
  {
  }

  lemma DownsNoJump(inst: int, k: Prog)
    requires NoJump(k)
    ensures NoJump(Downs(inst, k))
  {
    var d := Send(ToInst(inst), Set(Ipv6cpStatus, VDown), k, k);
    assert NoJump(d);
    assert NoJump(Send(ToInst(inst), Set(IpcpStatus, VDown), d, d));
  }

  lemma StopNoJump(cfg: Config, i: nat, k: Prog, bad: Prog)
    requires NoJump(k)
    ensures NoJump(Stop(cfg, i + 1, k, bad))
  {
    DownsNoJump(i + 1, k);
    hide Downs;
    UnlockNoJump(i, Downs(i + 1, k));
    var p1 := Mark(NCleared(i), Unlock(i, Downs(i + 1, k)));
    assert NoJump(p1);
    ClearNoJump(i, k, p1);
    hide StopClear;
    assert NoJump(StopBody(cfg, i, k));
  }

  lemma ClearNoJump(i: nat, k: Prog, p1: Prog)
    requires NoJump(p1) && p1 == Mark(NCleared(i), Unlock(i, Downs(i + 1, k)))
    ensures NoJump(StopClear(i, k))
  {
    hide NoJump, Downs;
    UpdNoJump(i, SetIp6Remote(""), p1);
    var p2 := Upd(i, SetIp6Remote(""), p1);
    UpdNoJump(i, SetIp6Local(""), p2);
    var p3 := Upd(i, SetIp6Local(""), p2);
    UpdNoJump(i, ClearDns, p3);
    var p4 := Upd(i, ClearDns, p3);
    UpdNoJump(i, SetRemote(ZERO_ADDR), p4);
    var p5 := Upd(i, SetRemote(ZERO_ADDR), p4);
    UpdNoJump(i, SetLocal(ZERO_ADDR), p5);
    var p6 := Upd(i, SetLocal(ZERO_ADDR), p5);
    UpdNoJump(i, SetConn(Unconfigured), p6);
    UpdNoJump(i, SetStatus(Down), Upd(i, SetConn(Unconfigured), p6));
  }

  lemma StartNoJump(i: nat)
    ensures NoJump(ApiLeave(i)) && NoJump(SendStart(i + 1, ApiLeave(i)))
  {
    var k := ApiLeave(i);
    var out := Unlock(i, k);
    assert NoJump(k);
    UnlockNoJump(i, k);
    UpdNoJump(i, SetEnabled(true), out);
    assert NoJump(Send(ToRow(i), Launch, Upd(i, SetEnabled(true), out), out));
  }

  lemma CodeNoJump(cfg: Config, c: Code, i: nat)
    requires c.i == i
    ensures NoJump(CodeBody(cfg, c, i + 1))
  {
    StartNoJump(i);
    hide ApiLeave, SendStart, Stop;
    match c
    case CFound(_, m) => assert NoJump(Dispatch(i + 1, m));
    case CEnable(_, on) => if !on { StopNoJump(cfg, i, ApiLeave(i), ApiLeave(i)); }
    case CReset(_) => StopNoJump(cfg, i, SendStart(i + 1, ApiLeave(i)), ApiLeave(i));
  }

  // ------------------------------------------------------------- the holder's own steps

  /** What thread t's section on row i still has to do. */
  function Left(cfg: Config, s: State, t: Tid, i: nat, cs: seq<Choice>, deep: bool): Outcome
    requires ValidTid(s, t) && i < |s.rows|
  {
    var th := Th(s, t);
    if th.hold.Holds? then Play(cfg, t, th.prog, i, th.hold.depth, s.rows[i], cs, deep)
    else Outcome([], s.rows[i], th.prog, cs)
  }

  /** The history so far and what is to come make one sequence; the row and the
      way on are settled. */
  predicate Continues(before: seq<Item>, o: Outcome, after: seq<Item>, o': Outcome) {
    before + o.items == after + o'.items && o.row == o'.row && o.next == o'.next && o.left == o'.left
  }

  function Answer(p: Prog, c: Choice, cs: seq<Choice>): seq<Choice> {
    if Asks(p) then [c] + cs else cs
  }

  lemma SendLogged(s: State, t: Tid, e: Event, took: bool, k: Prog)
    requires ValidTid(s, t)
    ensures var s', hold := SendTo(s, t, e, took, k), Th(s, t).hold;
            && s'.log == s.log + [Offered(t, e, hold.Holds? && hold.row == e.inst - 1, took)]
            && s'.rows == s.rows && OthersSame(s, s', t) && Th(s', t) == Thread(k, hold)
  {
  }

  lemma LeftSend(cfg: Config, s: State, s': State, t: Tid, c: Choice, i: nat, d: nat, cs: seq<Choice>, deep: bool)
    requires ValidTid(s, t) && ValidTid(s', t) && i < |s.rows| && s'.rows == s.rows
    requires Th(s, t).hold == Holds(i, d) && Th(s, t).prog.Send?
    requires var p := Th(s, t).prog; Th(s', t) == Thread(if c.b then p.ok else p.fail, Holds(i, d))
    ensures Left(cfg, s, t, i, [c] + cs, deep)
         == Prefixed(Offered(t, EventFor(i, Th(s, t).prog.what), true, c.b), Left(cfg, s', t, i, cs, deep))
  {
    assert Tail([c] + cs) == cs;
  }

  lemma OneMore(a: seq<Item>, x: Item, o: Outcome)
    ensures Continues(a, Prefixed(x, o), a + [x], o)
  {
    assert a + ([x] + o.items) == a + [x] + o.items;
  }

  lemma OwnSend(cfg: Config, s: State, t: Tid, c: Choice, i: nat, d: nat, cs: seq<Choice>, deep: bool)
    requires Inv(cfg, s) && Ready(s, t, c) && Th(s, t).hold == Holds(i, d) && i < cfg.n && Th(s, t).prog.Send?
    ensures var s', cs' := Execute(cfg, s, t, c), [c] + cs;
            && Th(s', t).hold == Holds(i, d) && s'.rows == s.rows
            && Continues(Under(s.log, i), Left(cfg, s, t, i, cs', deep), Under(s'.log, i), Left(cfg, s', t, i, cs, deep))
  {
    var p, s' := Th(s, t).prog, Execute(cfg, s, t, c);
    InsideSend(cfg, s, t, i, d, p.to, p.what, p.ok, p.fail);
    var e, k := EventOf(s, p.to, p.what), if c.b then p.ok else p.fail;
    assert s' == SendTo(s, t, e, c.b, k);
    assert e == EventFor(i, p.what);
    SendLogged(s, t, e, c.b, k);
    hide Inv, Inside, EventOf, Under, Execute, Ready, SendTo, Continues, Left;
    var x := Offered(t, e, true, c.b);
    UnderGrows(s.log, x, i);
    LeftSend(cfg, s, s', t, c, i, d, cs, deep);
    OneMore(Under(s.log, i), x, Left(cfg, s', t, i, cs, deep));
  }

  lemma OwnMark(cfg: Config, s: State, t: Tid, c: Choice, i: nat, d: nat, cs: seq<Choice>, deep: bool)
    requires Inv(cfg, s) && Ready(s, t, c) && Th(s, t).hold == Holds(i, d) && i < cfg.n && Th(s, t).prog.Mark?
    ensures var s' := Execute(cfg, s, t, c);
            && Th(s', t).hold == Holds(i, d) && s'.rows == s.rows
            && Continues(Under(s.log, i), Left(cfg, s, t, i, cs, deep), Under(s'.log, i), Left(cfg, s', t, i, cs, deep))
  {
    HolderKnows(cfg, s, t, i, d);
    hide Inv;
    var x, s' := Noted(Th(s, t).prog.note), Execute(cfg, s, t, c);
    UnderGrows(s.log, x, i);
    assert s'.log == s.log + [x];
    assert Left(cfg, s, t, i, cs, deep) == Prefixed(x, Left(cfg, s', t, i, cs, deep));
    hide Under, Left, Continues;
    OneMore(Under(s.log, i), x, Left(cfg, s', t, i, cs, deep));
  }

  /** The other instructions write no history. */
  lemma OwnPlain(cfg: Config, s: State, t: Tid, c: Choice, i: nat, d: nat, cs: seq<Choice>, deep: bool)
    requires Ready(s, t, c) && Th(s, t).hold == Holds(i, d) && i < |s.rows| && i < |s.locks|
    requires s.locks[i] == Held(t, d) && d > 0 && s.rows[i].inst == i + 1
    requires var p := Th(s, t).prog;
      match p
      case Lock(j, _, _) => j == i
      case Unlock(j, _) => j == i
      case Upd(j, _, _) => j == i
      case TestPid(j, _, _, _) => j == i
      case TestEnabled(j, _, _) => j == i
      case TestAuth(j, _, _) => j == i
      case TestAlive(j, _, _) => j == i
      case Choose(_, _) => true
      case LoadSlot(j, _) => j == i
      case Jump(j, _) => j == i && deep
      case _ => false
    ensures var s', p := Execute(cfg, s, t, c), Th(s, t).prog;
            && s'.log == s.log && |s'.rows| == |s.rows| && ValidTid(s', t)
            && (Th(s', t).hold.NoHold? || Th(s', t).hold.row == i)
            && Left(cfg, s, t, i, Answer(p, c, cs), deep) == Left(cfg, s', t, i, cs, deep && !p.Jump?)
  {
    hide Apply, CodeBody;
    assert Tail([c] + cs) == cs;
  }

  /** A step of the holder. */
  lemma OwnStep(cfg: Config, s: State, t: Tid, c: Choice, i: nat, cs: seq<Choice>, deep: bool)
    requires Inv(cfg, s) && Ready(s, t, c) && Th(s, t).hold.Holds? && Th(s, t).hold.row == i
    requires deep || NoJump(Th(s, t).prog)
    ensures i < cfg.n && |Execute(cfg, s, t, c).rows| == cfg.n && ValidTid(Execute(cfg, s, t, c), t)
    ensures var s', p := Execute(cfg, s, t, c), Th(s, t).prog;
            && (Th(s', t).hold.NoHold? || Th(s', t).hold.row == i)
            && ((deep && !p.Jump?) || NoJump(Th(s', t).prog))
            && Continues(Under(s.log, i), Left(cfg, s, t, i, Answer(p, c, cs), deep),
                         Under(s'.log, i), Left(cfg, s', t, i, cs, deep && !p.Jump?))
  {
    var d := Th(s, t).hold.depth;
    HolderKnows(cfg, s, t, i, d);
    NoJumpKept(cfg, s, t, c, i, deep);
    hide Inv, Play, NoJump, Under;
    var p := Th(s, t).prog;
    if p.Send? {
      OwnSend(cfg, s, t, c, i, d, cs, deep);
    } else if p.Mark? {
      OwnMark(cfg, s, t, c, i, d, cs, deep);
    } else {
      OwnPlain(cfg, s, t, c, i, d, cs, deep);
    }
    hide Execute, Left, Ready;
  }

  /** What the invariant says of a thread with a lock. */
  lemma HolderKnows(cfg: Config, s: State, t: Tid, i: nat, d: nat)
    requires Inv(cfg, s) && ValidTid(s, t) && Th(s, t).hold == Holds(i, d)
    ensures i < cfg.n && |s.rows| == |s.locks| == cfg.n && s.locks[i] == Held(t, d) && d > 0 && s.rows[i].inst == i + 1
    ensures match Th(s, t).prog
            case Lock(j, _, _) => j == i
            case Unlock(j, _) => j == i
            case Upd(j, _, _) => j == i
            case Send(_, _, _, _) => true
            case Mark(note, _) => note.i == i
            case TestPid(j, _, _, _) => j == i
            case TestEnabled(j, _, _) => j == i
            case TestAuth(j, _, _) => j == i
            case TestAlive(j, _, _) => j == i
            case Choose(_, _) => true
            case LoadSlot(j, _) => j == i
            case Jump(j, c) => j == i && c.i == i
            case _ => false
  {
    hide Agrees, ViewOf;
    assert ThreadOk(cfg, s, t) && RowOk(cfg, s, i);
  }

  lemma PlainNoJump(cfg: Config, s: State, t: Tid, c: Choice)
    requires Ready(s, t, c)
    requires !(Th(s, t).prog.Jump? || Th(s, t).prog.Send? || Th(s, t).prog.Enter? || Th(s, t).prog.Receive? || Th(s, t).prog.WanSet?)
    requires Th(s, t).prog.Lock? ==> InTable(s, Th(s, t).prog.j)
    ensures ValidTid(Execute(cfg, s, t, c), t)
    ensures NoJump(Th(s, t).prog) ==> NoJump(Th(Execute(cfg, s, t, c), t).prog)
  {
    hide Apply, Take;
  }

  lemma JumpNoJump(cfg: Config, s: State, t: Tid, c: Choice, i: nat)
    requires Ready(s, t, c) && Th(s, t).prog.Jump? && Th(s, t).prog.i == i == Th(s, t).prog.c.i && s.rows[i].inst == i + 1
    ensures ValidTid(Execute(cfg, s, t, c), t) && NoJump(Th(Execute(cfg, s, t, c), t).prog)
  {
    CodeNoJump(cfg, Th(s, t).prog.c, i);
    hide CodeBody, NoJump;
  }

  lemma SendNoJump(cfg: Config, s: State, t: Tid, c: Choice)
    requires Ready(s, t, c) && Th(s, t).prog.Send?
    ensures ValidTid(Execute(cfg, s, t, c), t)
    ensures NoJump(Th(s, t).prog) ==> NoJump(Th(Execute(cfg, s, t, c), t).prog)
  {
    SendIs(cfg, s, t, c);
    hide Execute, EventOf;
  }

  lemma NoJumpKept(cfg: Config, s: State, t: Tid, c: Choice, i: nat, deep: bool)
    requires Inv(cfg, s) && Ready(s, t, c) && Th(s, t).hold.Holds? && Th(s, t).hold.row == i
    requires deep || NoJump(Th(s, t).prog)
    ensures ValidTid(Execute(cfg, s, t, c), t) && |Execute(cfg, s, t, c).rows| == |s.rows|
    ensures (deep && !Th(s, t).prog.Jump?) || NoJump(Th(Execute(cfg, s, t, c), t).prog)
  {
    HolderKnows(cfg, s, t, i, Th(s, t).hold.depth);
    hide Inv;
    RowsStep(cfg, s, t, c);
    if Th(s, t).prog.Jump? {
      JumpNoJump(cfg, s, t, c, i);
    } else if Th(s, t).prog.Send? {
      SendNoJump(cfg, s, t, c);
    } else {
      PlainNoJump(cfg, s, t, c);
    }
    hide NoJump, Execute, Ready, Apply;
  }

  // ------------------------------------------------------------- everybody else's steps

  /** Nothing that belongs to row i or to thread t changed. */
  ghost predicate Untouched(s: State, s': State, t: Tid, i: nat) {
    && |s.rows| == |s'.rows| && i < |s.rows| && s'.rows[i] == s.rows[i]
    && ValidTid(s, t) && ValidTid(s', t) && Th(s', t) == Th(s, t)
    && Under(s'.log, i) == Under(s.log, i)
  }

  lemma OtherStep(cfg: Config, s: State, t: Tid, i: nat, u: Tid, c: Choice)
    requires Inv(cfg, s) && ValidTid(s, t) && Th(s, t).hold.Holds? && Th(s, t).hold.row == i
    requires Ready(s, u, c) && u != t
    ensures Untouched(s, Execute(cfg, s, u, c), t, i)
  {
    HolderKnows(cfg, s, t, i, Th(s, t).hold.depth);
    if Th(s, u).hold.Holds? {
      var j, p := Th(s, u).hold.row, Th(s, u).prog;
      HolderKnows(cfg, s, u, j, Th(s, u).hold.depth);
      assert j != i;
      OtherEffect(cfg, s, t, i, u, c);
    } else {
      LooseKnows(cfg, s, u);
      OtherEffect(cfg, s, t, i, u, c);
    }
  }

  lemma LooseKnows(cfg: Config, s: State, u: Tid)
    requires Inv(cfg, s) && ValidTid(s, u) && Th(s, u).hold == NoHold
    ensures !Th(s, u).prog.Upd? && !Th(s, u).prog.Mark?
  {
    hide Agrees, ViewOf, Inside;
    assert ThreadOk(cfg, s, u);
  }

  lemma OtherSend(cfg: Config, s: State, t: Tid, i: nat, u: Tid, c: Choice)
    requires ValidTid(s, t) && i < |s.rows| && Ready(s, u, c) && u != t && Th(s, u).prog.Send?
    requires Th(s, u).hold.Holds? ==> Th(s, u).hold.row != i
    ensures Untouched(s, Execute(cfg, s, u, c), t, i)
  {
    var p := Th(s, u).prog;
    var e := EventOf(s, p.to, p.what);
    assert Execute(cfg, s, u, c) == SendTo(s, u, e, c.b, if c.b then p.ok else p.fail);
    SendLogged(s, u, e, c.b, if c.b then p.ok else p.fail);
    UnderGrows(s.log, Offered(u, e, Th(s, u).hold.Holds? && Th(s, u).hold.row == e.inst - 1, c.b), i);
    hide SendTo, EventOf, Under, Execute, Ready;
  }

  lemma OtherEffect(cfg: Config, s: State, t: Tid, i: nat, u: Tid, c: Choice)
    requires Inv(cfg, s) && ValidTid(s, t) && i < |s.rows| && Ready(s, u, c) && u != t
    requires Th(s, u).hold.Holds? ==> Th(s, u).hold.row != i
    requires Th(s, u).prog.Upd? ==> Th(s, u).prog.i != i
    requires Th(s, u).prog.Mark? ==> Th(s, u).prog.note.i != i
    ensures Untouched(s, Execute(cfg, s, u, c), t, i)
  {
    if Th(s, u).prog.Send? {
      OtherSend(cfg, s, t, i, u, c);
    } else {
      History.OtherThreads(cfg, s, u, c);
      RowsStep(cfg, s, u, c);
      LogStep(cfg, s, u, c);
      var s' := Execute(cfg, s, u, c);
      hide Under, Execute, Ready, Inv, Owed, Apply;
      if s'.log != s.log {
        UnderGrows(s.log, Noted(Th(s, u).prog.note), i);
      }
    }
  }

  lemma LabelStep(cfg: Config, s: State, t: Tid, i: nat, l: Label)
    requires Inv(cfg, s) && ValidTid(s, t) && Th(s, t).hold.Holds? && Th(s, t).hold.row == i
    requires Enabled(cfg, s, l) && !(l.Run? && l.t == t)
    ensures Untouched(s, Next(cfg, s, l), t, i)
  {
    HolderKnows(cfg, s, t, i, Th(s, t).hold.depth);
    hide Inv, Under, Execute, ProcessPppState, Deliver;
    match l
    case Run(u, c) => OtherStep(cfg, s, t, i, u, c);
    case Poll(c) =>
    case BeginMsg(m) =>
    case BeginApi(k, op) =>
  }

  // ------------------------------------------------------------- whole sections

  /** Thread t holds its lock in every state of the run but perhaps the last. */
  predicate Holding(cfg: Config, s: State, ls: seq<Label>, t: Tid)
    requires ValidTid(s, t) && CanRun(cfg, s, ls)
    decreases ls
  {
    ls == [] || (Th(s, t).hold.Holds? && ValidTid(Next(cfg, s, ls[0]), t) && Holding(cfg, Next(cfg, s, ls[0]), ls[1..], t))
  }

  /** The answers thread t got in a run. */
  function Answers(cfg: Config, s: State, ls: seq<Label>, t: Tid): seq<Choice>
    requires ValidTid(s, t) && CanRun(cfg, s, ls) && Holding(cfg, s, ls, t)
    decreases ls
  {
    if ls == [] then []
    else
      var later := Answers(cfg, Next(cfg, s, ls[0]), ls[1..], t);
      if ls[0].Run? && ls[0].t == t then Answer(Th(s, t).prog, ls[0].c, later) else later
  }

  lemma ContinuesOn(a: seq<Item>, x: Outcome, b: seq<Item>, y: Outcome, c: seq<Item>, z: Outcome)
    requires Continues(a, x, b, y) && Continues(b, y, c, z)
    ensures Continues(a, x, c, z)
  {
  }

  lemma {:induction false} SectionRuns(cfg: Config, s: State, ls: seq<Label>, t: Tid, i: nat, cs: seq<Choice>, deep: bool)
      returns (deep': bool)
    requires Inv(cfg, s) && ValidTid(s, t) && CanRun(cfg, s, ls) && Holding(cfg, s, ls, t)
    requires i < cfg.n && (Th(s, t).hold.Holds? ==> Th(s, t).hold.row == i) && (deep || NoJump(Th(s, t).prog))
    ensures var s' := After(cfg, s, ls);
            && |s.rows| == |s'.rows| == cfg.n && ValidTid(s', t)
            && Continues(Under(s.log, i), Left(cfg, s, t, i, Answers(cfg, s, ls, t) + cs, deep),
                         Under(s'.log, i), Left(cfg, s', t, i, cs, deep'))
    decreases ls
  {
    hide Inside, Agrees, NoJump, Under, Left, Enabled, Next, RowOk, ThreadOk;
    deep' := deep;
    if ls != [] {
      var l, s1 := ls[0], Next(cfg, s, ls[0]);
      var later := Answers(cfg, s1, ls[1..], t) + cs;
      InvNext(cfg, s, l);
      if l.Run? && l.t == t {
        OneOwn(cfg, s, l, t, i, later, deep);
        deep' := deep && !Th(s, t).prog.Jump?;
      } else {
        OneOther(cfg, s, l, t, i, later, deep);
      }
      hide Inv;
      assert Answers(cfg, s, ls, t) + cs == if l.Run? && l.t == t then Answer(Th(s, t).prog, l.c, later) else later;
      var mid := deep';
      deep' := SectionRuns(cfg, s1, ls[1..], t, i, cs, mid);
      var s', a := After(cfg, s, ls), Answers(cfg, s, ls, t) + cs;
      ContinuesOn(Under(s.log, i), Left(cfg, s, t, i, a, deep), Under(s1.log, i), Left(cfg, s1, t, i, later, mid),
                  Under(s'.log, i), Left(cfg, s', t, i, cs, deep'));
    } else {
      assert [] + cs == cs;
    }
  }

  lemma OneOwn(cfg: Config, s: State, l: Label, t: Tid, i: nat, cs: seq<Choice>, deep: bool)
    requires Inv(cfg, s) && ValidTid(s, t) && Enabled(cfg, s, l) && l.Run? && l.t == t
    requires Th(s, t).hold.Holds? && Th(s, t).hold.row == i && (deep || NoJump(Th(s, t).prog))
    ensures var s', p := Next(cfg, s, l), Th(s, t).prog;
            && i < |s.rows| == |s'.rows| == cfg.n && ValidTid(s', t)
            && (Th(s', t).hold.Holds? ==> Th(s', t).hold.row == i)
            && ((deep && !p.Jump?) || NoJump(Th(s', t).prog))
            && Continues(Under(s.log, i), Left(cfg, s, t, i, Answer(p, l.c, cs), deep),
                         Under(s'.log, i), Left(cfg, s', t, i, cs, deep && !p.Jump?))
  {
    hide Under, Left, NoJump, Execute;
    OwnStep(cfg, s, t, l.c, i, cs, deep);
  }

  lemma OneOther(cfg: Config, s: State, l: Label, t: Tid, i: nat, cs: seq<Choice>, deep: bool)
    requires Inv(cfg, s) && ValidTid(s, t) && Enabled(cfg, s, l) && !(l.Run? && l.t == t)
    requires Th(s, t).hold.Holds? && Th(s, t).hold.row == i && (deep || NoJump(Th(s, t).prog))
    ensures var s' := Next(cfg, s, l);
            && i < |s.rows| == |s'.rows| == cfg.n && ValidTid(s', t)
            && (Th(s', t).hold.Holds? ==> Th(s', t).hold.row == i) && (deep || NoJump(Th(s', t).prog))
            && Continues(Under(s.log, i), Left(cfg, s, t, i, cs, deep), Under(s'.log, i), Left(cfg, s', t, i, cs, deep))
  {
    hide Under, NoJump, Next, Enabled, Play;
    LabelStep(cfg, s, t, i, l);
  }
}
