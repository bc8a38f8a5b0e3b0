/** What holds in every reachable state, over all interleavings: the lock
    discipline, and the agreement between an interface's data and the last events
    offered about it. */
module Safety {
  import opened CText
  import opened Ipcp
  import opened Paths
  import opened Program
  import opened Machine
  import opened Invariant
  import opened Discipline
  import opened Bounds
  import opened Sections
  import WanLookup
  import opened History
  import Alone

  // ------------------------------------------------------------- locks

  /** No thread ever holds the locks of two interfaces. */
  lemma OneLockPerThread(cfg: Config, s: State, i: nat, j: nat)
    requires Reachable(cfg, s) && i < |s.locks| && j < |s.locks|
    requires s.locks[i].Held? && s.locks[j].Held? && s.locks[i].owner == s.locks[j].owner
    ensures i == j
  {
    hide Reachable, Agrees, ViewOf, ThreadOk;
    InvReachable(cfg, s);
    assert RowOk(cfg, s, i) && RowOk(cfg, s, j);
  }

  predicate Owns(s: State, t: Tid, i: nat) {
    i < |s.locks| && s.locks[i].Held? && s.locks[i].owner == t
  }

  lemma OwnerHolds(cfg: Config, s: State, t: Tid, i: nat)
    requires Inv(cfg, s) && Owns(s, t, i)
    ensures ValidTid(s, t) && Th(s, t).hold == Holds(i, s.locks[i].depth)
  {
    hide Agrees, ViewOf, ThreadOk;
    assert RowOk(cfg, s, i);
  }

  /** A thread that owns a lock is never about to take another one: a nested
      acquisition re-enters the same lock, and a release gives that lock back. It
      has not finished, does not wait for messages, does not set a parameter of
      the WAN manager, and touches its own row only. */
  lemma NestedLocksReenter(cfg: Config, s: State, t: Tid, i: nat)
    requires Reachable(cfg, s) && Owns(s, t, i)
    ensures ValidTid(s, t)
    ensures match Th(s, t).prog
            case Lock(j, _, _) => j == i
            case Unlock(j, _) => j == i
            case Upd(j, _, _) => j == i
            case Enter(_) => false
            case Done => false
            case Receive => false
            case Crash => false
            case WanSet(_, _) => false
            case _ => true
  {
    hide Reachable;
    InvReachable(cfg, s);
    OwnerHolds(cfg, s, t, i);
    HolderKnows(cfg, s, t, i, s.locks[i].depth);
    hide Inv;
  }

  /** Every path gives its locks back: a thread that has finished, or is back at
      the receive, owns none; and the WAN manager is set with none owned. */
  lemma NothingOwnedAtTheEnd(cfg: Config, s: State, t: Tid, i: nat)
    requires Reachable(cfg, s) && ValidTid(s, t) && (Th(s, t).prog in {Done, Receive} || Th(s, t).prog.WanSet? || Th(s, t).prog.Enter?)
    ensures !Owns(s, t, i)
  {
    hide Reachable, Inv;
    if Owns(s, t, i) {
      NestedLocksReenter(cfg, s, t, i);
      assert false;
    }
  }

  /** An owned lock's depth is what its owner counted, and at least one. */
  lemma DepthIsCounted(cfg: Config, s: State, t: Tid, i: nat)
    requires Reachable(cfg, s)
    ensures Owns(s, t, i) <==>
      i < |s.locks| && ValidTid(s, t) && Th(s, t).hold.Holds? && Th(s, t).hold.row == i
      && s.locks[i] == Held(t, Th(s, t).hold.depth) && Th(s, t).hold.depth > 0
  {
    hide Reachable;
    InvReachable(cfg, s);
    if Owns(s, t, i) {
      OwnerHolds(cfg, s, t, i);
      HolderKnows(cfg, s, t, i, s.locks[i].depth);
    }
    hide Inv;
  }

  /** The start path uses the row of its event without a test; it never finds
      none, for every row carries its index plus one. */
  lemma StartNeverCrashes(cfg: Config, s: State)
    requires Reachable(cfg, s)
    ensures forall t :: ValidTid(s, t) ==> Th(s, t).prog != Crash
    ensures s.ev.prog.Enter? && s.ev.prog.e.EStart? ==> InTable(s, RowOf(s.ev.prog.e))
    ensures |s.rows| == cfg.n && forall i :: 0 <= i < cfg.n ==> s.rows[i].inst == i + 1
  {
    hide Reachable;
    InvReachable(cfg, s);
    forall t | ValidTid(s, t)
      ensures Th(s, t).prog != Crash
    {
      NotCrashed(cfg, s, t);
    }
    hide Agrees, ViewOf, Inside;
    assert ThreadOk(cfg, s, Ev);
    forall i: nat | i < cfg.n
      ensures s.rows[i].inst == i + 1
    {
      assert RowOk(cfg, s, i);
    }
  }

  /** That safety rests on the range of the queued numbers: a start event with a
      number beyond the table, were it queued, would crash the event thread. */
  lemma StrayEventCrashes(cfg: Config, s: State, pid: nat, c: Choice)
    requires ValidConfig(cfg) && |s.rows| == |s.locks| == cfg.n && s.ev.prog == Done
    requires s.queue != [] && s.queue[0].Exec? && s.queue[0].inst > cfg.n
    ensures var poll := Poll(Choice(true, pid));
            && Enabled(cfg, s, poll) && Enabled(cfg, Next(cfg, s, poll), Run(Ev, c))
            && Next(cfg, Next(cfg, s, poll), Run(Ev, c)).ev.prog == Crash
  {
    var s1 := Next(cfg, s, Poll(Choice(true, pid)));
    assert s1.ev.prog == Enter(EStart(s.queue[0].inst, SlotFor(cfg, s.queue[0].inst), pid));
  }

  lemma NotCrashed(cfg: Config, s: State, t: Tid)
    requires Inv(cfg, s) && ValidTid(s, t)
    ensures Th(s, t).prog != Crash
  {
    if Th(s, t).hold.Holds? {
      HolderKnows(cfg, s, t, Th(s, t).hold.row, Th(s, t).hold.depth);
    } else {
      hide Agrees, ViewOf, Inside;
      assert ThreadOk(cfg, s, t);
    }
  }

  // ------------------------------------------------------------- data and notifications

  lemma FreeRowAgrees(cfg: Config, s: State, i: nat)
    requires Reachable(cfg, s) && i < |s.locks| && s.locks[i] == Free
    ensures Inv(cfg, s) && i < |s.rows| && i < cfg.n && Agrees(cfg, i, ViewOf(cfg, s, i))
  {
    hide Reachable, ViewOf, Agrees, ThreadOk;
    InvReachable(cfg, s);
    assert RowOk(cfg, s, i);
  }

  /** Link state: whenever an interface's lock is free and its Status is Up, the
      last link state offered for it is Up, although three transitions lower
      Status without a word. */
  lemma UpWasOffered(cfg: Config, s: State, i: nat)
    requires Reachable(cfg, s) && i < |s.locks| && s.locks[i] == Free
    ensures i < |s.rows|
    ensures s.rows[i].status == Up ==> LastOffered(cfg, s.log, i + 1, LcpStatus) == Some(VUp)
  {
    FreeRowAgrees(cfg, s, i);
    hide Reachable, LastOffered, LastNote;
  }

  /** A lost link is announced: whenever an interface's lock is free and its
      connection is unconfigured, disconnected or failed to authenticate, the last
      link state offered for it is Down. */
  lemma LostWasOffered(cfg: Config, s: State, i: nat)
    requires Reachable(cfg, s) && i < |s.locks| && s.locks[i] == Free
    ensures i < |s.rows|
    ensures s.rows[i].conn in {Unconfigured, Disconnected, AuthenticationFailed} ==>
              LastOffered(cfg, s.log, i + 1, LcpStatus) == Some(VDown)
  {
    hide Reachable, LastOffered, LastNote;
    FreeRowAgrees(cfg, s, i);
  }

  /** IPCP: whenever an interface's lock is free and the last IPCP event offered
      for it is Up, its addresses are the parse of the IPCP message stored last,
      and no stop has cleared them since. */
  lemma IpcpUpMeansStored(cfg: Config, s: State, i: nat)
    requires Reachable(cfg, s) && i < |s.locks| && s.locks[i] == Free
    ensures i < |s.rows|
    ensures LastOffered(cfg, s.log, i + 1, IpcpStatus) == Some(VUp) ==>
              && LastNote(s.log, i).Some? && LastNote(s.log, i).value.NCompleted?
              && s.rows[i].Addresses() == Parse(LastNote(s.log, i).value.msg)
  {
    FreeRowAgrees(cfg, s, i);
    hide Reachable, LastOffered, LastNote, Parse;
  }

  /** Status is Up exactly when the connection status is Connected, and then no
      error is recorded. */
  lemma StatusIsConsistent(cfg: Config, s: State, i: nat)
    requires Reachable(cfg, s) && i < |s.locks| && s.locks[i] == Free
    ensures i < |s.rows|
    ensures s.rows[i].status == Up <==> s.rows[i].conn == Connected
    ensures s.rows[i].status == Up ==> s.rows[i].lastError == ErrorNone
  {
    FreeRowAgrees(cfg, s, i);
    hide Reachable, LastOffered, LastNote;
  }

  // ------------------------------------------------------------- the stored slot

  /** A program that stands where the slot is about to be stored. */
  predicate AtSlot(p: Prog) {
    SlotFollows(p) || VirtFollows(p)
  }

  /** Each half of every stored slot is unset or right, a client or a slot stands
      only beside an authentication protocol, and only the event thread, while it is
      about to store the slot, sees a pid without it. */
  ghost predicate Placed(cfg: Config, s: State) {
    && ValidConfig(cfg) && |s.rows| == |s.locks| == cfg.n
    && (forall i: nat :: i < cfg.n ==> Slotted(cfg, i, s.rows[i]) && Vouched(s.rows[i]))
    && (forall i: nat :: i < cfg.n && s.rows[i].pid != 0 && !Mapped(cfg, i, s.rows[i]) ==> Placing(s, i))
  }

  predicate Placing(s: State, i: nat) {
    s.ev.hold.Holds? && s.ev.hold.row == i && AtSlot(s.ev.prog)
  }

  /** What the invariant says of an update. */
  lemma UpdateKnows(cfg: Config, s: State, t: Tid)
    requires Inv(cfg, s) && ValidTid(s, t) && Th(s, t).prog.Upd?
    ensures var i, u := Th(s, t).prog.i, Th(s, t).prog.u;
            && i < cfg.n && Th(s, t).hold.Holds? && Th(s, t).hold.row == i && Owns(s, t, i)
            && UpdateOk(cfg, t, i, s.rows[i], u)
  {
    hide Agrees, LastOffered, LastNote, UpdateOk;
    assert ThreadOk(cfg, s, t);
  }

  /** Once the slot is stored the row is in agreement: the lock is given up next. */
  lemma SlotStored(cfg: Config, s: State, i: nat)
    requires Inv(cfg, s) && s.ev.hold.Holds? && s.ev.hold.row == i && s.ev.prog.Unlock? && s.ev.prog.k == Done
    ensures i < cfg.n && (s.rows[i].pid != 0 ==> Mapped(cfg, i, s.rows[i]))
  {
    hide LastOffered, LastNote;
    assert ThreadOk(cfg, s, Ev);
    var d := s.ev.hold.depth;
    assert d > 1 ==> Inside(cfg, Ev, Done, i, d - 1, ViewOf(cfg, s, i));
  }

  lemma SlottedStep(cfg: Config, s: State, t: Tid, c: Choice, i: nat)
    requires Inv(cfg, s) && Placed(cfg, s) && Ready(s, t, c) && i < cfg.n
    ensures |Execute(cfg, s, t, c).rows| == |Execute(cfg, s, t, c).locks| == cfg.n
    ensures Slotted(cfg, i, Execute(cfg, s, t, c).rows[i]) && Vouched(Execute(cfg, s, t, c).rows[i])
  {
    RowsStep(cfg, s, t, c);
    InvNext(cfg, s, Run(t, c));
    if Th(s, t).prog.Upd? {
      UpdateKnows(cfg, s, t);
    }
    hide Execute, Ready, RowOk, ThreadOk, Apply, Slotted, Vouched, Mapped;
  }

  lemma PlacedStep(cfg: Config, s: State, t: Tid, c: Choice)
    requires Inv(cfg, s) && Hist(s) && Placed(cfg, s) && Ready(s, t, c)
    ensures Placed(cfg, Execute(cfg, s, t, c))
  {
    var s' := Execute(cfg, s, t, c);
    InvNext(cfg, s, Run(t, c));
    Alone.Sizes(cfg, s');
    hide Inv, Hist, Mapped, Ready, Execute, Placing, Slotted, Vouched;
    forall i: nat | i < cfg.n
      ensures Slotted(cfg, i, s'.rows[i]) && Vouched(s'.rows[i])
    {
      SlottedStep(cfg, s, t, c, i);
    }
    forall i: nat | i < cfg.n && s'.rows[i].pid != 0 && !Mapped(cfg, i, s'.rows[i])
      ensures Placing(s', i)
    {
      if t == Ev {
        PlacingEv(cfg, s, c, i);
      } else {
        PlacingApi(cfg, s, t, c, i);
      }
    }
  }

  /** API threads neither store a pid nor touch a row the event thread holds. */
  lemma PlacingApi(cfg: Config, s: State, t: Tid, c: Choice, i: nat)
    requires Inv(cfg, s) && Placed(cfg, s) && Ready(s, t, c) && t.Api? && i < cfg.n
    requires |Execute(cfg, s, t, c).rows| == cfg.n
    requires var s' := Execute(cfg, s, t, c); s'.rows[i].pid != 0 && !Mapped(cfg, i, s'.rows[i])
    ensures Placing(Execute(cfg, s, t, c), i)
  {
    RowsStep(cfg, s, t, c);
    OtherThreads(cfg, s, t, c);
    if Th(s, t).prog.Upd? {
      UpdateKnows(cfg, s, t);
      hide Execute, Ready, Mapped, Slotted, Apply, AtSlot, Owed, RowOk;
      if Placing(s, Th(s, t).prog.i) {
        HolderKnows(cfg, s, Ev, s.ev.hold.row, s.ev.hold.depth);
        assert false;
      }
    }
    hide Inv, Execute, Ready, Mapped, Slotted, Apply, AtSlot, Owed;
  }

  /** The event thread stores a pid right before the slot. */
  lemma PlacingEv(cfg: Config, s: State, c: Choice, i: nat)
    requires Inv(cfg, s) && Hist(s) && Placed(cfg, s) && Ready(s, Ev, c) && i < cfg.n
    requires |Execute(cfg, s, Ev, c).rows| == cfg.n
    requires var s' := Execute(cfg, s, Ev, c); s'.rows[i].pid != 0 && !Mapped(cfg, i, s'.rows[i])
    ensures Placing(Execute(cfg, s, Ev, c), i)
  {
    RowsStep(cfg, s, Ev, c);
    var p, s' := s.ev.prog, Execute(cfg, s, Ev, c);
    if p.Upd? {
      UpdateKnows(cfg, s, Ev);
      InvNext(cfg, s, Run(Ev, c));
      assert s'.ev == Thread(p.k, s.ev.hold) && s'.rows == s.rows[p.i := Apply(s.rows[p.i], p.u)];
      PlacingUpd(cfg, s, s', i);
    }
    hide Inv, Hist, Execute, Ready, Mapped, Slotted, Apply, AtSlot;
  }

  lemma PlacingUpd(cfg: Config, s: State, s': State, i: nat)
    requires Inv(cfg, s) && Hist(s) && Placed(cfg, s) && Inv(cfg, s') && s.ev.prog.Upd? && i < cfg.n
    requires s'.ev == Thread(s.ev.prog.k, s.ev.hold) && s.ev.prog.i < cfg.n && Owns(s, Ev, s.ev.prog.i)
    requires s.ev.hold.Holds? && s.ev.hold.row == s.ev.prog.i
    requires s'.rows == s.rows[s.ev.prog.i := Apply(s.rows[s.ev.prog.i], s.ev.prog.u)]
    requires UpdateOk(cfg, Ev, s.ev.prog.i, s.rows[s.ev.prog.i], s.ev.prog.u)
    requires s'.rows[i].pid != 0 && !Mapped(cfg, i, s'.rows[i])
    ensures Placing(s', i)
  {
    var p := s.ev.prog;
    var e := if Ends(p, ToReceive) then ToReceive else ToDone;
    assert Ends(p, e);
    if VirtFollows(p) {
      SlotStored(cfg, s', p.i);
      hide Inv, Mapped, Ends;
    } else {
      hide Inv, Mapped, Slotted;
    }
  }

  lemma PlacedNext(cfg: Config, s: State, l: Label)
    requires Inv(cfg, s) && Hist(s) && Placed(cfg, s) && Enabled(cfg, s, l)
    ensures Placed(cfg, Next(cfg, s, l))
  {
    match l
    case Run(t, c) =>
      PlacedStep(cfg, s, t, c);
      hide Placed, Execute, Inv, Hist;
    case Poll(c) => hide Inv, Hist, Mapped, Slotted, Deliver;
    case BeginMsg(m) => hide Inv, Hist, Mapped, Slotted, ProcessPppState;
    case BeginApi(k, op) => hide Inv, Hist, Mapped, Slotted;
  }

  lemma {:induction false} PlacedRun(cfg: Config, s: State, ls: seq<Label>)
    requires Inv(cfg, s) && Hist(s) && Placed(cfg, s) && CanRun(cfg, s, ls)
    ensures Placed(cfg, After(cfg, s, ls))
    decreases ls
  {
    hide Inv, Hist, Placed, Next, Enabled;
    if ls != [] {
      InvNext(cfg, s, ls[0]);
      HistNext(cfg, s, ls[0]);
      PlacedNext(cfg, s, ls[0]);
      PlacedRun(cfg, Next(cfg, s, ls[0]), ls[1..]);
    }
  }

  lemma FreshSlot(cfg: Config, r: Row, i: nat)
    requires ValidConfig(cfg) && i < cfg.n && FreshRow(r, i)
    ensures r.pid == 0 && Slotted(cfg, i, r) && Vouched(r)
  {
  }

  lemma PlacedReachable(cfg: Config, s: State)
    requires Reachable(cfg, s)
    ensures Placed(cfg, s)
  {
    hide Inv, Hist, Next, Enabled, CanRun, After, FreshRow, Slotted, Vouched, Mapped;
    var s0: State, ls: seq<Label> :| Initial(cfg, s0) && CanRun(cfg, s0, ls) && s == After(cfg, s0, ls);
    InvInitial(cfg, s0);
    HistInitial(cfg, s0);
    forall j: nat | j < cfg.n
      ensures s0.rows[j].pid == 0 && Slotted(cfg, j, s0.rows[j]) && Vouched(s0.rows[j])
    {
      FreshSlot(cfg, s0.rows[j], j);
    }
    PlacedRun(cfg, s0, ls);
  }

  /** In every reachable state, locked or not: where a client or half of a slot is
      stored, an authentication protocol is configured. */
  lemma ClientMeansAuth(cfg: Config, s: State, i: nat)
    requires Reachable(cfg, s) && i < |s.rows|
    ensures s.rows[i].pid != 0 || s.rows[i].wan != 0 || s.rows[i].virt != 0 ==> s.rows[i].auth != NoAuth
  {
    hide Reachable, Slotted, Mapped, Placing;
    PlacedReachable(cfg, s);
  }

  /** The stored slot is the one the WAN manager's tables give exactly if both its
      halves are set. So a nonzero pid means a right slot in exactly the reachable
      states in which not (a pid is stored and half of the slot is missing), and
      those excepted are the ones in which the event thread, launching the first
      client on that row, is about to store the slot. */
  lemma PidMeansPlaced(cfg: Config, s: State, i: nat)
    requires Reachable(cfg, s) && i < cfg.n
    ensures |s.rows| == cfg.n && ValidConfig(cfg)
    ensures var r := s.rows[i];
            && (cfg.slot[i] == WanLookup.Found(r.wan, r.virt) <==> r.wan >= 1 && r.virt >= 1)
            && ((r.pid != 0 ==> cfg.slot[i] == WanLookup.Found(r.wan, r.virt)) <==> !(r.pid != 0 && (r.wan == 0 || r.virt == 0)))
            && (r.pid != 0 && (r.wan == 0 || r.virt == 0) ==> Owns(s, Ev, i) && Placing(s, i))
  {
    hide Reachable;
    InvReachable(cfg, s);
    PlacedReachable(cfg, s);
    if Placing(s, i) {
      HolderKnows(cfg, s, Ev, i, s.ev.hold.depth);
    }
    hide Inv, AtSlot;
  }
}
