/** What every reachable state keeps: the lock discipline, and, for every row
    whose lock is free, agreement between the row and what was last offered
    about it. A thread that holds a lock owes the rest: running the remainder of
    its program must re-establish the agreement before the lock is free. */
module Invariant {
  import opened CText
  import opened Ipcp
  import opened Paths
  import opened Program
  import opened Machine

  /** A row together with what the history says about it. */
  datatype View = View(row: Row, link: Option<Verdict>, ipcp: Option<Verdict>, note: Option<Note>)

  function ViewOf(cfg: Config, s: State, i: nat): View
    requires i < |s.rows|
  {
    View(s.rows[i], LastOffered(cfg, s.log, i + 1, LcpStatus), LastOffered(cfg, s.log, i + 1, IpcpStatus), LastNote(s.log, i))
  }

  /** The agreement that holds of every row nobody has locked. */
  predicate Agrees(cfg: Config, i: nat, v: View)
    requires ValidConfig(cfg) && i < cfg.n
  {
    && v.row.inst == i + 1
    && (v.row.status == Up <==> v.row.conn == Connected)
    && (v.row.status == Up ==> v.row.lastError == ErrorNone)
    && (v.row.status == Up ==> v.link == Some(VUp))
    && (v.row.conn in {Unconfigured, Disconnected, AuthenticationFailed} ==> v.link == Some(VDown))
    && (v.ipcp == Some(VUp) ==>
          v.note.Some? && v.note.value.NCompleted? && v.row.Addresses() == Parse(v.note.value.msg))
    && (v.row.pid != 0 ==> Mapped(cfg, i, v.row))
    && ((v.row.wan == 0 && v.row.virt == 0) || Mapped(cfg, i, v.row))
  }

  // ------------------------------------------------------------- threads without a lock

  predicate EntryOk(cfg: Config, t: Tid, e: Entry) {
    match e
    case EScan(i, m) => t == Ev && i < cfg.n && m.pid != 0
    case EState(inst, _) => t == Ev && 1 <= inst <= cfg.n
    case EIpcp(inst, _) => t == Ev && 1 <= inst <= cfg.n
    case EIpv6cp(inst, _) => t == Ev && 1 <= inst <= cfg.n
    case ESlot(ev) => t == Ev && ev.BusSet? && 1 <= ev.inst <= cfg.n
    case EStart(inst, slot, _) => t == Ev && 1 <= inst <= cfg.n && slot.Found? && inst <= |cfg.slot| && slot == cfg.slot[inst - 1]
    case EApi(op) => t.Api? && op.i < cfg.n
  }

  /** Programs a thread may run while it holds no lock. Of the sends only the
      rejection of an IPCP message is made that way. */
  predicate Outside(cfg: Config, t: Tid, p: Prog) {
    match p
    case Done => true
    case Receive => t == Ev
    case Enter(e) => EntryOk(cfg, t, e)
    case Send(to, what, ok, fail) =>
      && t == Ev && to.ToInst? && 1 <= to.n <= cfg.n && what == Set(IpcpStatus, VDown)
      && ok == Receive && fail == Receive
    case WanSet(ev, k) => t == Ev && ev.BusSet? && 1 <= ev.inst <= cfg.n && k == Done
    case _ => false
  }

  /** The row a program counts on being mapped: only a message whose pid matched
      gets a handler started. */
  function NeedsMapped(p: Prog): Option<int> {
    match p
    case Enter(EState(inst, _)) => Some(inst - 1)
    case Enter(EIpcp(inst, _)) => Some(inst - 1)
    case Enter(EIpv6cp(inst, _)) => Some(inst - 1)
    case _ => None
  }

  // ------------------------------------------------------------- threads with a lock

  function AfterOffer(cfg: Config, v: View, what: Payload): View {
    match what
    case Launch => v
    case Set(param, val) =>
      View(v.row,
           if SameName(cfg.unified, param, LcpStatus) then Some(val) else v.link,
           if SameName(cfg.unified, param, IpcpStatus) then Some(val) else v.ipcp,
           v.note)
  }

  /** Each half of the stored slot is unset or the one the tables give. */
  predicate Slotted(cfg: Config, i: nat, r: Row)
    requires ValidConfig(cfg) && i < cfg.n
  {
    && (r.wan == 0 || (cfg.slot[i].Found? && r.wan == cfg.slot[i].iface))
    && (r.virt == 0 || (cfg.slot[i].Found? && r.virt == cfg.slot[i].virt))
  }

  /** A client or a slot is stored only where an authentication protocol is. */
  predicate Vouched(r: Row) {
    r.pid != 0 || r.wan != 0 || r.virt != 0 ==> r.auth != NoAuth
  }

  /** Updates that keep the number, keep a mapped row mapped and a vouched one
      vouched, and leave the WAN slot and a client's pid to the event thread. */
  predicate UpdateOk(cfg: Config, t: Tid, i: nat, r: Row, u: Update)
    requires ValidConfig(cfg) && i < cfg.n
  {
    var r' := Apply(r, u);
    && r'.inst == i + 1
    && (Mapped(cfg, i, r) ==> Mapped(cfg, i, r'))
    && (Slotted(cfg, i, r) ==> Slotted(cfg, i, r'))
    && (Vouched(r) ==> Vouched(r'))
    && (t.Api? ==> r'.wan == r.wan && r'.virt == r.virt && (r'.pid == r.pid || r'.pid == 0))
  }

  predicate CodeOk(cfg: Config, t: Tid, i: nat, c: Code) {
    match c
    case CFound(j, m) => t == Ev && j == i && m.pid != 0
    case CEnable(j, _) => t.Api? && j == i
    case CReset(j) => t.Api? && j == i
  }

  /** Thread t holds row i at depth d, sees v, and has p left to run: whatever
      the tests find, p only re-enters the same lock, gives every acquisition
      back, never leaves the row in disagreement when the lock gets free, and
      offers an Up only for a mapped row. */
  predicate Inside(cfg: Config, t: Tid, p: Prog, i: nat, d: nat, v: View)
    requires ValidConfig(cfg) && i < cfg.n
    decreases p
  {
    && v.row.inst == i + 1 && d > 0
    && match p
       case Lock(j, k, _) => j == i && Inside(cfg, t, k, i, d + 1, v)
       case Unlock(j, k) =>
         && j == i
         && if d > 1 then Inside(cfg, t, k, i, d - 1, v)
            else Agrees(cfg, i, v) && Outside(cfg, t, k) && (NeedsMapped(k).Some? ==> NeedsMapped(k).value == i && Mapped(cfg, i, v.row))
       case Upd(j, u, k) => j == i && UpdateOk(cfg, t, i, v.row, u) && Inside(cfg, t, k, i, d, v.(row := Apply(v.row, u)))
       case Send(to, what, ok, fail) =>
         && (to == ToInst(i + 1) || to == ToRow(i))
         && (what.Set? && what.val == VUp ==> Mapped(cfg, i, v.row))
         && Inside(cfg, t, ok, i, d, AfterOffer(cfg, v, what)) && Inside(cfg, t, fail, i, d, AfterOffer(cfg, v, what))
       case Mark(note, k) => note.i == i && Inside(cfg, t, k, i, d, v.(note := Some(note)))
       case TestPid(j, pid, yes, no) =>
         j == i && (v.row.pid == pid ==> Inside(cfg, t, yes, i, d, v)) && (v.row.pid != pid ==> Inside(cfg, t, no, i, d, v))
       case TestEnabled(j, yes, no) => j == i && Inside(cfg, t, yes, i, d, v) && Inside(cfg, t, no, i, d, v)
       case TestAuth(j, yes, no) =>
         j == i && (v.row.auth != NoAuth ==> Inside(cfg, t, yes, i, d, v)) && (v.row.auth == NoAuth ==> Inside(cfg, t, no, i, d, v))
       case TestAlive(j, yes, no) => j == i && Inside(cfg, t, yes, i, d, v) && Inside(cfg, t, no, i, d, v)
       case Choose(yes, no) => Inside(cfg, t, yes, i, d, v) && Inside(cfg, t, no, i, d, v)
       case LoadSlot(j, k) => t == Ev && j == i && Inside(cfg, t, k, i, d, v)
       case Jump(j, c) => j == i && d == 1 && CodeOk(cfg, t, i, c) && Agrees(cfg, i, v) && (c.CFound? ==> v.row.pid == c.m.pid)
       case _ => false
  }

  // ------------------------------------------------------------- the invariant

  predicate ThreadOk(cfg: Config, s: State, t: Tid)
    requires ValidConfig(cfg) && |s.rows| == cfg.n && |s.locks| == cfg.n && ValidTid(s, t)
  {
    var th := Th(s, t);
    match th.hold
    case NoHold =>
      && Outside(cfg, t, th.prog)
      && (NeedsMapped(th.prog).Some? ==>
            var r := NeedsMapped(th.prog).value; 0 <= r < cfg.n && Mapped(cfg, r, s.rows[r]))
    case Holds(i, d) =>
      && 0 <= i < cfg.n && d > 0 && s.locks[i] == Held(t, d)
      && Inside(cfg, t, th.prog, i, d, ViewOf(cfg, s, i))
  }

  /** The lock table and the threads' own counts say the same. */
  predicate OwnerOk(s: State, j: nat)
    requires j < |s.locks|
  {
    s.locks[j].Held? ==>
      ValidTid(s, s.locks[j].owner) && Th(s, s.locks[j].owner).hold == Holds(j, s.locks[j].depth)
  }

  predicate RowOk(cfg: Config, s: State, j: nat)
    requires ValidConfig(cfg) && |s.rows| == cfg.n && |s.locks| == cfg.n && j < cfg.n
  {
    && s.rows[j].inst == j + 1
    && OwnerOk(s, j)
    && (s.locks[j] == Free ==> Agrees(cfg, j, ViewOf(cfg, s, j)))
  }

  /** Every queued event names an interface of the table. */
  predicate QueueOk(cfg: Config, s: State) {
    forall k :: 0 <= k < |s.queue| ==> 1 <= s.queue[k].inst <= cfg.n
  }

  ghost predicate Inv(cfg: Config, s: State) {
    && ValidConfig(cfg) && |s.rows| == cfg.n && |s.locks| == cfg.n
    && QueueOk(cfg, s)
    && (forall j: nat :: j < cfg.n ==> RowOk(cfg, s, j))
    && (forall t: Tid :: ValidTid(s, t) ==> ThreadOk(cfg, s, t))
  }

  // ------------------------------------------------------------- views only fall

  /** The one thing others may do to a row's view: offer an IPCP Down. */
  predicate Falls(v': View, v: View) {
    v' == v || v' == v.(ipcp := Some(VDown))
  }

  lemma {:induction false} InsideFalls(cfg: Config, t: Tid, p: Prog, i: nat, d: nat, v: View, v': View)
    requires ValidConfig(cfg) && i < cfg.n && Inside(cfg, t, p, i, d, v) && Falls(v', v)
    ensures Inside(cfg, t, p, i, d, v')
    decreases p
  {
    hide Apply, Mapped, Outside, Parse;
    match p
    case Lock(_, k, _) => InsideFalls(cfg, t, k, i, d + 1, v, v');
    case Unlock(_, k) => if d > 1 { InsideFalls(cfg, t, k, i, d - 1, v, v'); }
    case Upd(_, u, k) => InsideFalls(cfg, t, k, i, d, v.(row := Apply(v.row, u)), v'.(row := Apply(v.row, u)));
    case Send(_, what, ok, fail) =>
      InsideFalls(cfg, t, ok, i, d, AfterOffer(cfg, v, what), AfterOffer(cfg, v', what));
      InsideFalls(cfg, t, fail, i, d, AfterOffer(cfg, v, what), AfterOffer(cfg, v', what));
    case Mark(note, k) => InsideFalls(cfg, t, k, i, d, v.(note := Some(note)), v'.(note := Some(note)));
    case TestPid(_, pid, yes, no) =>
      if v.row.pid == pid { InsideFalls(cfg, t, yes, i, d, v, v'); } else { InsideFalls(cfg, t, no, i, d, v, v'); }
    case TestEnabled(_, yes, no) => InsideFalls(cfg, t, yes, i, d, v, v'); InsideFalls(cfg, t, no, i, d, v, v');
    case TestAuth(_, yes, no) =>
      if v.row.auth != NoAuth { InsideFalls(cfg, t, yes, i, d, v, v'); } else { InsideFalls(cfg, t, no, i, d, v, v'); }
    case TestAlive(_, yes, no) => InsideFalls(cfg, t, yes, i, d, v, v'); InsideFalls(cfg, t, no, i, d, v, v');
    case Choose(yes, no) => InsideFalls(cfg, t, yes, i, d, v, v'); InsideFalls(cfg, t, no, i, d, v, v');
    case LoadSlot(_, k) => InsideFalls(cfg, t, k, i, d, v, v');
    case _ =>
  }
}
