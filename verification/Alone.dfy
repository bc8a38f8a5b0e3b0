/** A thread that is left alone: every critical section can be run to its end, and
    what it does to the shared state is what its outcome says. */
module Alone {
  import opened CText
  import opened Paths
  import opened Program
  import opened Machine
  import opened Invariant
  import opened Discipline
  import opened Bounds
  import opened Sections
  import Agreement
  import History
  import Progress

  /** The state handlers share. */
  datatype Shared = Shared(rows: seq<Row>, locks: seq<LockState>, queue: seq<Event>, log: seq<Item>)

  function SharedOf(s: State): Shared {
    Shared(s.rows, s.locks, s.queue, s.log)
  }

  /** The accepted events of a piece of history. */
  function Taken(items: seq<Item>): seq<Event> {
    if items == [] then []
    else if items[0].Offered? && items[0].took then [items[0].ev] + Taken(items[1..])
    else Taken(items[1..])
  }

  lemma {:induction false} TakenParts(a: seq<Item>, b: seq<Item>)
    ensures Taken(a + b) == Taken(a) + Taken(b)
  {
    if a == [] {
      assert a + b == b;
    } else {
      TakenParts(a[1..], b);
      assert (a + b)[1..] == a[1..] + b;
    }
  }

  predicate AllTook(items: seq<Item>) {
    forall x :: x in items && x.Offered? ==> x.took
  }

  /** What a section with this outcome does to the shared state. */
  function Played(sh: Shared, i: nat, o: Outcome): Shared
    requires i < |sh.rows|
  {
    sh.(rows := sh.rows[i := o.row], queue := sh.queue + Taken(o.items), log := sh.log + o.items)
  }

  /** Thread t wrote `items` and, apart from its own program, changed at most row
      i and the state of its lock. */
  ghost predicate Moved(s: State, s': State, t: Tid, i: nat, items: seq<Item>) {
    && s'.log == s.log + items && s'.queue == s.queue + Taken(items)
    && |s'.rows| == |s.rows| && |s'.locks| == |s.locks|
    && (forall j :: 0 <= j < |s.rows| && j != i ==> s'.rows[j] == s.rows[j])
    && (forall j :: 0 <= j < |s.locks| && j != i ==> s'.locks[j] == s.locks[j])
    && OthersSame(s, s', t)
    && s'.wan == s.wan && s'.told == s.told && s'.dequeued == s.dequeued
    && s'.clean == (s.clean && AllTook(items))
  }

  function StepItems(s: State, t: Tid, c: Choice, i: nat): seq<Item>
    requires ValidTid(s, t)
  {
    match Th(s, t).prog
    case Send(to, what, _, _) => [Offered(t, EventFor(i, what), true, c.b)]
    case Mark(note, _) => [Noted(note)]
    case _ => []
  }

  lemma MovedSend(cfg: Config, s: State, t: Tid, c: Choice, i: nat, d: nat)
    requires Inv(cfg, s) && Ready(s, t, c) && Th(s, t).hold == Holds(i, d) && Th(s, t).prog.Send?
    ensures Moved(s, Execute(cfg, s, t, c), t, i, StepItems(s, t, c, i))
  {
    var p, s' := Th(s, t).prog, Execute(cfg, s, t, c);
    InsideSend(cfg, s, t, i, d, p.to, p.what, p.ok, p.fail);
    var e, k := EventOf(s, p.to, p.what), if c.b then p.ok else p.fail;
    assert s' == SendTo(s, t, e, c.b, k) && e == EventFor(i, p.what);
    hide Inv, Inside, EventOf, Execute, Ready;
    SendLogged(s, t, e, c.b, k);
    SendFields(s, t, e, c.b, k);
    assert s'.wan == s.wan && s'.told == s.told && s'.dequeued == s.dequeued && s'.clean == (s.clean && c.b);
    hide SendTo;
    var items := StepItems(s, t, c, i);
    assert items[1..] == [];
    assert Taken(items) == if c.b then [e] else [];
    assert s.queue + [] == s.queue;
  }

  lemma LocksStep(cfg: Config, s: State, t: Tid, c: Choice, i: nat)
    requires Ready(s, t, c) && !Th(s, t).prog.Enter?
    requires Th(s, t).prog.Lock? ==> Th(s, t).prog.j == i
    requires Th(s, t).prog.Unlock? ==> Th(s, t).prog.i == i
    ensures var s' := Execute(cfg, s, t, c);
            |s'.locks| == |s.locks| && forall j :: 0 <= j < |s.locks| && j != i ==> s'.locks[j] == s.locks[j]
  {
    if Th(s, t).prog.Lock? || Th(s, t).prog.Unlock? {
      hide Take;
    } else {
      LocksKept(cfg, s, t, c);
      hide Execute, Ready;
    }
  }

  lemma LocksKept(cfg: Config, s: State, t: Tid, c: Choice)
    requires Ready(s, t, c) && !Th(s, t).prog.Enter? && !Th(s, t).prog.Lock? && !Th(s, t).prog.Unlock?
    ensures Execute(cfg, s, t, c).locks == s.locks
  {
    hide Apply, CodeBody, Deliver, StatusName, EventOf, Body, NoRow, Take;
  }

  lemma MovedPlain(cfg: Config, s: State, t: Tid, c: Choice, i: nat)
    requires Inv(cfg, s) && Ready(s, t, c) && Th(s, t).hold.Holds? && Th(s, t).hold.row == i && !Th(s, t).prog.Send?
    ensures Moved(s, Execute(cfg, s, t, c), t, i, StepItems(s, t, c, i))
  {
    HolderKnows(cfg, s, t, i, Th(s, t).hold.depth);
    History.OtherThreads(cfg, s, t, c);
    History.PlainStep(cfg, s, t, c);
    Agreement.WanKept(cfg, s, t, c);
    LocksStep(cfg, s, t, c, i);
    RowsStep(cfg, s, t, c);
    LogStep(cfg, s, t, c);
    hide Inv, Execute, Ready, Apply, Owed, Taken;
    PlainItems(s, t, c, i);
    var s', items := Execute(cfg, s, t, c), StepItems(s, t, c, i);
    assert s.log + [] == s.log && s.queue + [] == s.queue;
    assert s'.log == s.log + items;
  }

  lemma PlainItems(s: State, t: Tid, c: Choice, i: nat)
    requires ValidTid(s, t) && !Th(s, t).prog.Send?
    ensures Taken(StepItems(s, t, c, i)) == [] && AllTook(StepItems(s, t, c, i))
  {
    var items := StepItems(s, t, c, i);
    assert items != [] ==> items[1..] == [];
  }

  lemma MovedStep(cfg: Config, s: State, t: Tid, c: Choice, i: nat)
    requires Inv(cfg, s) && Ready(s, t, c) && Th(s, t).hold.Holds? && Th(s, t).hold.row == i
    ensures Moved(s, Execute(cfg, s, t, c), t, i, StepItems(s, t, c, i))
  {
    hide Inv, Moved, Execute;
    if Th(s, t).prog.Send? {
      MovedSend(cfg, s, t, c, i, Th(s, t).hold.depth);
    } else {
      MovedPlain(cfg, s, t, c, i);
    }
  }

  lemma MovedOn(s: State, s1: State, s': State, t: Tid, i: nat, a: seq<Item>, b: seq<Item>)
    requires Moved(s, s1, t, i, a) && Moved(s1, s', t, i, b)
    ensures Moved(s, s', t, i, a + b)
  {
    TakenParts(a, b);
    hide Taken;
    assert s.log + a + b == s.log + (a + b);
    assert s.queue + Taken(a) + Taken(b) == s.queue + (Taken(a) + Taken(b));
    forall u: Tid | ValidTid(s, u) && u != t
      ensures Th(s', u) == Th(s, u)
    {
      assert ValidTid(s1, u);
    }
  }

  // ------------------------------------------------------------- one step alone

  /** The answer a thread gets next: no process lives under pid 0. */
  function Pick(s: State, t: Tid, i: nat, cs: seq<Choice>): Choice
    requires ValidTid(s, t) && i < |s.rows|
  {
    var h := Head(cs);
    if Th(s, t).prog.TestAlive? then Choice(h.b && s.rows[i].pid != 0, h.pid) else h
  }

  function Others(p: Prog, cs: seq<Choice>): seq<Choice> {
    if Asks(p) then Tail(cs) else cs
  }

  lemma PickReady(cfg: Config, s: State, t: Tid, i: nat, cs: seq<Choice>)
    requires Inv(cfg, s) && ValidTid(s, t) && Th(s, t).hold.Holds? && Th(s, t).hold.row == i && i < cfg.n
    requires |s.queue| + Owed(Th(s, t).prog) <= MAX_QUEUE_LENGTH
    ensures Ready(s, t, Pick(s, t, i, cs))
  {
    hide Agrees, ViewOf;
    assert ThreadOk(cfg, s, t);
  }

  /** Answers beyond what can be told apart do not matter. */
  lemma PickPlays(cfg: Config, s: State, t: Tid, i: nat, cs: seq<Choice>, deep: bool)
    requires ValidTid(s, t) && i < |s.rows| && Th(s, t).hold.Holds?
    ensures var p := Th(s, t).prog;
            Left(cfg, s, t, i, Answer(p, Pick(s, t, i, cs), Others(p, cs)), deep) == Left(cfg, s, t, i, cs, deep)
  {
    var p, c := Th(s, t).prog, Pick(s, t, i, cs);
    if Asks(p) {
      assert Head([c] + Tail(cs)) == c && Tail([c] + Tail(cs)) == Tail(cs);
    }
    hide Apply, CodeBody;
  }

  lemma ItemsOfStep(cfg: Config, s: State, t: Tid, i: nat, c: Choice, cs: seq<Choice>, deep: bool)
    requires Inv(cfg, s) && Ready(s, t, c) && Th(s, t).hold.Holds? && Th(s, t).hold.row == i && i < cfg.n
    requires deep || NoJump(Th(s, t).prog)
    ensures |Execute(cfg, s, t, c).rows| == cfg.n && ValidTid(Execute(cfg, s, t, c), t)
    ensures var s', p := Execute(cfg, s, t, c), Th(s, t).prog;
            && (Th(s', t).hold.NoHold? || Th(s', t).hold.row == i)
            && ((deep && !p.Jump?) || NoJump(Th(s', t).prog))
            && var o, o' := Left(cfg, s, t, i, Answer(p, c, cs), deep), Left(cfg, s', t, i, cs, deep && !p.Jump?);
               o.items == StepItems(s, t, c, i) + o'.items && o.row == o'.row && o.next == o'.next && o.left == o'.left
  {
    assert ValidTid(s, t);
    Sizes(cfg, s);
    hide Inv, Ready, Execute, Left, Under, NoJump, Moved, Continues;
    OwnStep(cfg, s, t, c, i, cs, deep);
    UnderStep(cfg, s, t, c, i);
    var s', p := Execute(cfg, s, t, c), Th(s, t).prog;
    Cancel(Under(s.log, i), Left(cfg, s, t, i, Answer(p, c, cs), deep), StepItems(s, t, c, i),
           Left(cfg, s', t, i, cs, deep && !p.Jump?));
  }

  lemma Cancel(u: seq<Item>, o: Outcome, x: seq<Item>, o': Outcome)
    requires Continues(u, o, u + x, o')
    ensures o.items == x + o'.items && o.row == o'.row && o.next == o'.next && o.left == o'.left
  {
    assert u + x + o'.items == u + (x + o'.items);
    assert o.items == (u + o.items)[|u|..];
    assert x + o'.items == (u + (x + o'.items))[|u|..];
  }

  lemma UnderStep(cfg: Config, s: State, t: Tid, c: Choice, i: nat)
    requires Inv(cfg, s) && Ready(s, t, c) && Th(s, t).hold.Holds? && Th(s, t).hold.row == i
    ensures Under(Execute(cfg, s, t, c).log, i) == Under(s.log, i) + StepItems(s, t, c, i)
  {
    HolderKnows(cfg, s, t, i, Th(s, t).hold.depth);
    MovedStep(cfg, s, t, c, i);
    hide Inv, Ready, Execute, Under;
    var items := StepItems(s, t, c, i);
    if items == [] {
      assert s.log + items == s.log;
    } else {
      UnderGrows(s.log, items[0], i);
      assert items == [items[0]];
    }
  }

  // ------------------------------------------------------------- a section alone

  predicate OnlyRuns(ls: seq<Label>, t: Tid) {
    forall k :: 0 <= k < |ls| ==> ls[k].Run? && ls[k].t == t
  }

  function Measure(cfg: Config, s: State, t: Tid): nat
    requires ValidTid(s, t)
  {
    DELIVERY * |s.queue| + Work(cfg, Th(s, t).prog)
  }

  /** The holder's next step, with the answers it will get. */
  lemma NextAlone(cfg: Config, s: State, t: Tid, i: nat, cs: seq<Choice>, deep: bool)
      returns (c: Choice, rest: seq<Choice>, deep1: bool, x: seq<Item>)
    requires Inv(cfg, s) && ValidTid(s, t) && i < cfg.n && Th(s, t).hold.Holds? && Th(s, t).hold.row == i
    requires deep || NoJump(Th(s, t).prog)
    requires |s.queue| + Owed(Th(s, t).prog) <= MAX_QUEUE_LENGTH
    ensures Ready(s, t, c) && |s.rows| == cfg.n
    ensures var s1 := Execute(cfg, s, t, c);
            && Inv(cfg, s1) && Moved(s, s1, t, i, x) && |s1.rows| == cfg.n
            && ValidTid(s1, t) && (Th(s1, t).hold.Holds? ==> Th(s1, t).hold.row == i)
            && (deep1 || NoJump(Th(s1, t).prog))
            && |s1.queue| + Owed(Th(s1, t).prog) <= MAX_QUEUE_LENGTH
            && Measure(cfg, s1, t) < Measure(cfg, s, t)
            && var o, o1 := Left(cfg, s, t, i, cs, deep), Left(cfg, s1, t, i, rest, deep1);
               o.items == x + o1.items && o.row == o1.row && o.next == o1.next
  {
    Sizes(cfg, s);
    hide Inv, NoJump, Play, Ready, Execute, Moved, Work, Owed, Left;
    var p := Th(s, t).prog;
    c := Pick(s, t, i, cs);
    PickReady(cfg, s, t, i, cs);
    rest, deep1, x := Others(p, cs), deep && !p.Jump?, StepItems(s, t, c, i);
    PickPlays(cfg, s, t, i, cs, deep);
    MovedStep(cfg, s, t, c, i);
    ItemsOfStep(cfg, s, t, i, c, rest, deep);
    Progress.RunCost(cfg, s, t, c);
    InvNext(cfg, s, Run(t, c));
  }

  /** A thread that holds a lock, left alone with answers `cs`, gets to the
      release, and does what its outcome says. */
  lemma {:induction false} Finishes(cfg: Config, s: State, t: Tid, i: nat, cs: seq<Choice>, deep: bool) returns (ls: seq<Label>)
    requires Inv(cfg, s) && ValidTid(s, t) && i < cfg.n && (Th(s, t).hold.Holds? ==> Th(s, t).hold.row == i)
    requires deep || NoJump(Th(s, t).prog)
    requires |s.queue| + Owed(Th(s, t).prog) <= MAX_QUEUE_LENGTH
    ensures CanRun(cfg, s, ls) && OnlyRuns(ls, t)
    ensures |s.rows| == cfg.n && |After(cfg, s, ls).rows| == cfg.n
    ensures var s', o := After(cfg, s, ls), Left(cfg, s, t, i, cs, deep);
            && Inv(cfg, s') && Moved(s, s', t, i, o.items) && s'.rows[i] == o.row
            && ValidTid(s', t) && Th(s', t) == Thread(o.next, NoHold)
    decreases Measure(cfg, s, t)
  {
    hide Inv, NoJump, Play, Ready, Execute, Moved, Measure, Owed;
    Sizes(cfg, s);
    if Th(s, t).hold.NoHold? {
      ls := [];
      NotMoved(cfg, s, t, i);
    } else {
      hide Left;
      var c, rest, deep1, x := NextAlone(cfg, s, t, i, cs, deep);
      var s1 := Execute(cfg, s, t, c);
      var later := Finishes(cfg, s1, t, i, rest, deep1);
      ls := [Run(t, c)] + later;
      assert ls[1..] == later;
      MovedOn(s, s1, After(cfg, s1, later), t, i, x, Left(cfg, s1, t, i, rest, deep1).items);
    }
  }

  lemma Sizes(cfg: Config, s: State)
    requires Inv(cfg, s)
    ensures |s.rows| == |s.locks| == cfg.n
  {
  }

  lemma NotMoved(cfg: Config, s: State, t: Tid, i: nat)
    requires ValidTid(s, t)
    ensures Moved(s, s, t, i, [])
  {
    assert s.log + [] == s.log && s.queue + [] == s.queue;
  }

  /** The outcome of entering e with the lock free. */
  function Entered(cfg: Config, t: Tid, e: Entry, sh: Shared, cs: seq<Choice>): Outcome
    requires 0 <= RowOf(e) < |sh.rows|
  {
    Play(cfg, t, Body(cfg, e), RowOf(e), 1, sh.rows[RowOf(e)], cs, true)
  }

  /** Entering, running and leaving a critical section is a run of the thread's
      steps, and its effect on the shared state is its outcome. */
  lemma EntryRuns(cfg: Config, s: State, t: Tid, e: Entry, cs: seq<Choice>) returns (ls: seq<Label>)
    requires Inv(cfg, s) && ValidTid(s, t) && Th(s, t).prog == Enter(e)
    requires InTable(s, RowOf(e)) ==> s.locks[RowOf(e)] == Free
    requires |s.queue| + EntryOwed(e) <= MAX_QUEUE_LENGTH
    ensures InTable(s, RowOf(e)) && CanRun(cfg, s, ls) && OnlyRuns(ls, t)
    ensures var s', o := After(cfg, s, ls), Entered(cfg, t, e, SharedOf(s), cs);
            && Inv(cfg, s') && SharedOf(s') == Played(SharedOf(s), RowOf(e), o)
            && ValidTid(s', t) && Th(s', t) == Thread(o.next, NoHold) && OthersSame(s, s', t)
            && s'.wan == s.wan && s'.told == s.told && s'.dequeued == s.dequeued && s'.clean == (s.clean && AllTook(o.items))
  {
    Progress.EntryInTable(cfg, s, t, e);
    var i, c, l := RowOf(e), Choice(false, 0), Run(t, Choice(false, 0));
    var s1 := Next(cfg, s, l);
    InvNext(cfg, s, l);
    EnterEffect(cfg, s, t, e);
    hide Inv, Execute, Play, Moved, Body, Owed;
    var rest := Finishes(cfg, s1, t, i, cs, true);
    var s' := After(cfg, s1, rest);
    ls := [l] + rest;
    assert ls[1..] == rest;
    assert Left(cfg, s1, t, i, cs, true) == Entered(cfg, t, e, SharedOf(s), cs);
    AfterSection(cfg, s, s1, s', t, i, Entered(cfg, t, e, SharedOf(s), cs));
  }

  lemma EnterEffect(cfg: Config, s: State, t: Tid, e: Entry)
    requires Inv(cfg, s) && ValidTid(s, t) && Th(s, t).prog == Enter(e) && InTable(s, RowOf(e)) && s.locks[RowOf(e)] == Free
    requires |s.queue| + EntryOwed(e) <= MAX_QUEUE_LENGTH
    ensures var l := Run(t, Choice(false, 0));
            && Enabled(cfg, s, l) && var s1, i := Next(cfg, s, l), RowOf(e);
               && s1.rows == s.rows && s1.locks == s.locks[i := Held(t, 1)] && s1.queue == s.queue && s1.log == s.log
               && ValidTid(s1, t) && Th(s1, t) == Thread(Body(cfg, e), Holds(i, 1)) && OthersSame(s, s1, t)
               && s1.wan == s.wan && s1.told == s.told && s1.dequeued == s.dequeued && s1.clean == s.clean
               && |s1.queue| + Owed(Body(cfg, e)) <= MAX_QUEUE_LENGTH
  {
    var i := RowOf(e);
    Progress.EnterCost(cfg, s, t, e);
    hide Inv, Body, Owed, Work;
    ThreadSet(s.(locks := s.locks[i := Held(t, 1)]), t, Thread(Body(cfg, e), Holds(i, 1)));
  }

  /** The lock is free again. */
  lemma AfterSection(cfg: Config, s: State, s1: State, s': State, t: Tid, i: nat, o: Outcome)
    requires Inv(cfg, s1) && Inv(cfg, s') && Moved(s1, s', t, i, o.items) && i < cfg.n && |s.rows| == |s.locks| == cfg.n
    requires s.locks[i] == Free && s1.rows == s.rows && s1.locks == s.locks[i := Held(t, 1)] && s1.queue == s.queue && s1.log == s.log
    requires ValidTid(s, t) && ValidTid(s', t) && Th(s', t).hold == NoHold && s'.rows[i] == o.row && OthersSame(s, s1, t)
    ensures SharedOf(s') == Played(SharedOf(s), i, o) && OthersSame(s, s', t)
  {
    hide Agrees, ViewOf, Inside, Outside;
    assert RowOk(cfg, s', i);
    forall u: Tid | ValidTid(s', u)
      ensures Th(s', u).hold.Holds? ==> Th(s', u).hold.row != i
    {
      if u != t {
        assert ValidTid(s1, u) && ThreadOk(cfg, s1, u);
      }
    }
    assert s'.locks[i] == Free;
    hide Inv;
    assert s'.rows == s.rows[i := o.row] && s'.locks == s.locks;
  }
}
