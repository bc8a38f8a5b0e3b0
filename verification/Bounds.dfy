/** How much a program can still do: how many events it may offer, how many
    steps it may take, and that only a delivery sets WAN parameters. */
module Bounds {
  import opened CText
  import opened Ipcp
  import opened Paths
  import opened Program
  import VendorScan
  import Tokens
  import WanLookup

  /** Sends an operation still owes when it stands at an entry. */
  function EntryOwed(e: Entry): nat {
    match e
    case EScan(_, _) => 2
    case EState(_, _) => 2
    case EIpcp(_, _) => 1
    case EIpv6cp(_, _) => 1
    case ESlot(_) => 0
    case EStart(_, _, _) => 0
    case EApi(op) => ApiOwed(op)
  }

  function ApiOwed(op: ApiOp): nat {
    match op
    case Enable(_, on) => if on then 1 else 3
    case Reset(_, _) => 4
    case GetEntry(_) => 0
    case Read(_) => 0
  }

  function CodeOwed(c: Code): nat {
    match c
    case CFound(_, _) => 2
    case CEnable(_, on) => if on then 1 else 3
    case CReset(_) => 4
  }

  /** Steps left once the entry's lock is taken. */
  function EntrySteps(cfg: Config, e: Entry): nat {
    match e
    case EScan(i, _) => 20 + 3 * (if i < cfg.n then cfg.n - i else 0)
    case EState(_, _) => 12
    case EIpcp(_, _) => 12
    case EIpv6cp(_, _) => 12
    case ESlot(_) => 3
    case EStart(_, _, _) => 12
    case EApi(_) => 24
  }

  function CodeSteps(c: Code): nat {
    match c
    case CFound(_, _) => 15
    case _ => 20
  }

  function Max(a: nat, b: nat): nat {
    if a < b then b else a
  }

  /** The most events a program may still offer. */
  function Owed(p: Prog): nat {
    match p
    case Done => 0
    case Receive => 0
    case Crash => 0
    case Enter(e) => EntryOwed(e)
    case Lock(_, k, bad) => Max(Owed(k), Owed(bad))
    case Unlock(_, k) => Owed(k)
    case Upd(_, _, k) => Owed(k)
    case Send(_, _, ok, fail) => 1 + Max(Owed(ok), Owed(fail))
    case Mark(_, k) => Owed(k)
    case TestPid(_, _, yes, no) => Max(Owed(yes), Owed(no))
    case TestEnabled(_, yes, no) => Max(Owed(yes), Owed(no))
    case TestAuth(_, yes, no) => Max(Owed(yes), Owed(no))
    case TestAlive(_, yes, no) => Max(Owed(yes), Owed(no))
    case Choose(yes, no) => Max(Owed(yes), Owed(no))
    case LoadSlot(_, k) => Owed(k)
    case WanSet(_, k) => Owed(k)
    case Jump(_, c) => CodeOwed(c)
  }

  /** Work that delivering one queued event may take. */
  const DELIVERY: nat := 20

  /** An upper bound of the work left in a program; a send counts for the
      delivery it causes as well. */
  function Work(cfg: Config, p: Prog): nat {
    match p
    case Done => 0
    case Receive => 1
    case Crash => 0
    case Enter(e) => 1 + EntrySteps(cfg, e) + DELIVERY * EntryOwed(e)
    case Lock(_, k, bad) => 1 + Max(Work(cfg, k), Work(cfg, bad))
    case Unlock(_, k) => 1 + Work(cfg, k)
    case Upd(_, _, k) => 1 + Work(cfg, k)
    case Send(_, _, ok, fail) => 1 + DELIVERY + Max(Work(cfg, ok), Work(cfg, fail))
    case Mark(_, k) => 1 + Work(cfg, k)
    case TestPid(_, _, yes, no) => 1 + Max(Work(cfg, yes), Work(cfg, no))
    case TestEnabled(_, yes, no) => 1 + Max(Work(cfg, yes), Work(cfg, no))
    case TestAuth(_, yes, no) => 1 + Max(Work(cfg, yes), Work(cfg, no))
    case TestAlive(_, yes, no) => 1 + Max(Work(cfg, yes), Work(cfg, no))
    case Choose(yes, no) => 1 + Max(Work(cfg, yes), Work(cfg, no))
    case LoadSlot(_, k) => 1 + Work(cfg, k)
    case WanSet(_, k) => 1 + Work(cfg, k)
    case Jump(_, c) => 1 + CodeSteps(c) + DELIVERY * CodeOwed(c)
  }

  /** Where a program ends: message handling goes on to the receive, everything
      else is finished. */
  datatype End = ToReceive | ToDone

  function CodeEnd(c: Code): End {
    if c.CFound? then ToReceive else ToDone
  }

  function EntryEnd(e: Entry): End {
    match e
    case EScan(_, _) => ToReceive
    case EState(_, _) => ToReceive
    case EIpcp(_, _) => ToReceive
    case EIpv6cp(_, _) => ToReceive
    case _ => ToDone
  }

  /** The two instructions that store the slot, and the release. */
  predicate SlotFollows(p: Prog) {
    match p
    case Upd(_, SetWan(_), k) => VirtFollows(k)
    case _ => false
  }

  predicate VirtFollows(p: Prog) {
    match p
    case Upd(_, SetVirt(_), Unlock(_, Done)) => true
    case _ => false
  }

  predicate StoresPid(u: Update) {
    u.SetPid? && u.p != 0
  }

  /** Every path ends in e, none sets a WAN parameter, and a client's pid is only
      stored right before its slot. */
  predicate Ends(p: Prog, e: End) {
    match p
    case Done => e == ToDone
    case Receive => e == ToReceive
    case Crash => false
    case Enter(x) => !x.ESlot? && EntryEnd(x) == e
    case Lock(_, k, bad) => Ends(k, e) && Ends(bad, e)
    case Unlock(_, k) => Ends(k, e)
    case Upd(_, u, k) => Ends(k, e) && (StoresPid(u) ==> SlotFollows(k))
    case Send(_, _, ok, fail) => Ends(ok, e) && Ends(fail, e)
    case Mark(_, k) => Ends(k, e)
    case TestPid(_, _, yes, no) => Ends(yes, e) && Ends(no, e)
    case TestEnabled(_, yes, no) => Ends(yes, e) && Ends(no, e)
    case TestAuth(_, yes, no) => Ends(yes, e) && Ends(no, e)
    case TestAlive(_, yes, no) => Ends(yes, e) && Ends(no, e)
    case Choose(yes, no) => Ends(yes, e) && Ends(no, e)
    case LoadSlot(_, _) => false
    case WanSet(_, _) => false
    case Jump(_, c) => e == CodeEnd(c)
  }

  /** At most q offers and w steps on every path, each ending in e. */
  predicate Within(cfg: Config, p: Prog, e: End, q: nat, w: nat) {
    Owed(p) <= q && Work(cfg, p) <= w + DELIVERY * q && Ends(p, e)
  }

  // ------------------------------------------------------------- the handlers

  lemma LeaveWithin(cfg: Config, i: nat, q: nat)
    ensures Within(cfg, Leave(i), ToReceive, q, 2)
  {
  }

  lemma OneSendWithin(cfg: Config, to: Target, what: Payload, i: nat)
    ensures Within(cfg, Send(to, what, Leave(i), Leave(i)), ToReceive, 1, 3)
  {
    LeaveWithin(cfg, i, 0);
  }

  lemma NotifyWithin(cfg: Config, i: nat, v: Verdict)
    ensures Within(cfg, Notify(i, v), ToReceive, 2, 4)
  {
    LeaveWithin(cfg, i, 0);
    OneSendWithin(cfg, ToRow(i), Set(LinkStatus, v), i);
  }

  lemma SetStateWithin(cfg: Config, i: nat, s: Status, c: Conn, k: Prog, e: End, q: nat, w: nat)
    requires Within(cfg, k, e, q, w)
    ensures Within(cfg, SetState(i, s, c, k), e, q, w + 2)
  {
    assert Within(cfg, Upd(i, SetConn(c), k), e, q, w + 1);
  }

  lemma UpdWithin(cfg: Config, i: nat, u: Update, k: Prog, e: End, q: nat, w: nat)
    requires Within(cfg, k, e, q, w) && (StoresPid(u) ==> SlotFollows(k))
    ensures Within(cfg, Upd(i, u, k), e, q, w + 1)
  {
  }

  lemma Raise(cfg: Config, p: Prog, e: End, q: nat, w: nat, q': nat, w': nat)
    requires Within(cfg, p, e, q, w) && q <= q' && w <= w'
    ensures Within(cfg, p, e, q', w')
  {
  }

  lemma StateWithin(cfg: Config, i: nat, m: Msg)
    ensures Within(cfg, StateBody(i, m), ToReceive, 2, 12)
  {
    NotifyWithin(cfg, i, VDown);
    NotifyWithin(cfg, i, VUp);
    LeaveWithin(cfg, i, 2);
    hide Within, Notify, Leave, SetState, DownBody;
    match m.state
    case IfUnconfigured => Lower(cfg, i, Error, Unconfigured);
    case IfConnecting => Silent(cfg, i, Connecting);
    case IfAuthenticating => Silent(cfg, i, Authenticating);
    case IfUp =>
      UpdWithin(cfg, i, SetError(ErrorNone), Notify(i, VUp), ToReceive, 2, 4);
      SetStateWithin(cfg, i, Up, Connected, Upd(i, SetError(ErrorNone), Notify(i, VUp)), ToReceive, 2, 5);
      Raise(cfg, StateBody(i, m), ToReceive, 2, 7, 2, 12);
    case IfDisconnecting => Silent(cfg, i, Disconnecting);
    case IfDisconnected => DownWithin(cfg, i, m);
    case IfDown => DownWithin(cfg, i, m);
    case LcpAuthCompleted => RatesWithin(cfg, i, m);
    case AuthFailed => Lower(cfg, i, Down, AuthenticationFailed);
    case _ => Lower(cfg, i, Down, Disconnected);
  }

  lemma Silent(cfg: Config, i: nat, c: Conn)
    ensures Within(cfg, SetState(i, Down, c, Leave(i)), ToReceive, 2, 12)
  {
    LeaveWithin(cfg, i, 2);
    SetStateWithin(cfg, i, Down, c, Leave(i), ToReceive, 2, 2);
  }

  lemma Lower(cfg: Config, i: nat, s: Status, c: Conn)
    ensures Within(cfg, SetState(i, s, c, Notify(i, VDown)), ToReceive, 2, 12)
  {
    NotifyWithin(cfg, i, VDown);
    hide Notify;
    SetStateWithin(cfg, i, s, c, Notify(i, VDown), ToReceive, 2, 4);
  }

  lemma DownWithin(cfg: Config, i: nat, m: Msg)
    ensures Within(cfg, DownBody(i, m), ToReceive, 2, 12)
  {
    NotifyWithin(cfg, i, VDown);
    hide Within, Notify, SetState, ErrorOf;
    var p1 := Upd(i, SetError(ErrorOf(m.exitStatus)), Notify(i, VDown));
    UpdWithin(cfg, i, SetError(ErrorOf(m.exitStatus)), Notify(i, VDown), ToReceive, 2, 4);
    SetStateWithin(cfg, i, Down, Disconnected, p1, ToReceive, 2, 5);
    var p2 := SetState(i, Down, Disconnected, p1);
    UpdWithin(cfg, i, SetSrd(0), p2, ToReceive, 2, 7);
    UpdWithin(cfg, i, SetSru(0), Upd(i, SetSrd(0), p2), ToReceive, 2, 8);
    Raise(cfg, DownBody(i, m), ToReceive, 2, 9, 2, 12);
  }

  lemma AuthWithin(cfg: Config, i: nat, m: Msg)
    ensures Within(cfg, AuthBody(i, m), ToReceive, 0, 3)
  {
    LeaveWithin(cfg, i, 0);
  }

  lemma RatesWithin(cfg: Config, i: nat, m: Msg)
    ensures Within(cfg, Upd(i, SetSru(0), Upd(i, SetSrd(0), RatesBody(i, m))), ToReceive, 2, 12)
  {
    AuthWithin(cfg, i, m);
    var k := AuthBody(i, m);
    hide Within, AuthBody;
    if m.vendor != "" {
      var r := VendorScan.VendorRates(m.vendor);
      UpdWithin(cfg, i, SetSrd(r.srd), k, ToReceive, 0, 3);
      UpdWithin(cfg, i, SetSru(r.sru), Upd(i, SetSrd(r.srd), k), ToReceive, 0, 4);
    } else {
      Raise(cfg, k, ToReceive, 0, 3, 0, 5);
    }
    UpdWithin(cfg, i, SetSrd(0), RatesBody(i, m), ToReceive, 0, 5);
    UpdWithin(cfg, i, SetSru(0), Upd(i, SetSrd(0), RatesBody(i, m)), ToReceive, 0, 6);
    Raise(cfg, Upd(i, SetSru(0), Upd(i, SetSrd(0), RatesBody(i, m))), ToReceive, 0, 7, 2, 12);
  }

  lemma IpcpUpWithin(cfg: Config, i: nat, m: IpcpMsg)
    ensures Within(cfg, IpcpUp(i, m), ToReceive, 1, 4)
  {
    OneSendWithin(cfg, ToRow(i), Set(IpcpStatus, VUp), i);
  }

  lemma RejectWithin(cfg: Config, i: nat)
    ensures Within(cfg, Reject(i), ToReceive, 1, 3)
  {
    OneSendWithin(cfg, ToRow(i), Set(IpcpStatus, VDown), i);
  }

  lemma IpcpRemoteWithin(cfg: Config, i: nat, m: IpcpMsg)
    ensures Within(cfg, IpcpRemote(i, m), ToReceive, 1, 7)
  {
    IpcpUpWithin(cfg, i, m);
    RejectWithin(cfg, i);
    hide Within, IpcpUp, Reject, ParseIp4, ParseDns, AtMostFourParts, Tokens.Toks;
    var d0, d1 := SetDns0(ParseDns(m.nameserver, 0)), SetDns1(ParseDns(m.nameserver, 1));
    UpdWithin(cfg, i, d1, IpcpUp(i, m), ToReceive, 1, 4);
    UpdWithin(cfg, i, d0, Upd(i, d1, IpcpUp(i, m)), ToReceive, 1, 5);
    UpdWithin(cfg, i, d0, IpcpUp(i, m), ToReceive, 1, 4);
    Raise(cfg, Upd(i, d0, IpcpUp(i, m)), ToReceive, 1, 5, 1, 6);
    Raise(cfg, Reject(i), ToReceive, 1, 3, 1, 6);
    UpdWithin(cfg, i, SetRemote(ParseIp4(m.gateway)), Reject(i), ToReceive, 1, 6);
    UpdWithin(cfg, i, SetRemote(ParseIp4(m.gateway)), IpcpDns(i, m), ToReceive, 1, 6);
  }

  lemma IpcpWithin(cfg: Config, i: nat, m: IpcpMsg)
    ensures Within(cfg, IpcpBody(i, m), ToReceive, 1, 12)
  {
    IpcpRemoteWithin(cfg, i, m);
    RejectWithin(cfg, i);
    Raise(cfg, Reject(i), ToReceive, 1, 3, 1, 7);
    hide Within, IpcpRemote, Reject, ParseIp4, AtMostFourParts;
    var k := if AtMostFourParts(m.ip) then IpcpRemote(i, m) else Reject(i);
    var p1 := Upd(i, SetLocal(ParseIp4(m.ip)), k);
    UpdWithin(cfg, i, SetLocal(ParseIp4(m.ip)), k, ToReceive, 1, 7);
    UpdWithin(cfg, i, ClearDns, p1, ToReceive, 1, 8);
    UpdWithin(cfg, i, SetRemote(ZERO_ADDR), Upd(i, ClearDns, p1), ToReceive, 1, 9);
    UpdWithin(cfg, i, SetLocal(ZERO_ADDR), Upd(i, SetRemote(ZERO_ADDR), Upd(i, ClearDns, p1)), ToReceive, 1, 10);
    Raise(cfg, IpcpBody(i, m), ToReceive, 1, 11, 1, 12);
  }

  lemma Ipv6cpWithin(cfg: Config, i: nat, m: Msg)
    ensures Within(cfg, Ipv6cpBody(i, m), ToReceive, 1, 12)
  {
    OneSendWithin(cfg, ToRow(i), Set(Ipv6cpStatus, VUp), i);
    OneSendWithin(cfg, ToRow(i), Set(Ipv6cpStatus, VDown), i);
    hide Leave;
    assert Within(cfg, Ipv6cpRemote(i, m), ToReceive, 1, 4);
  }

  lemma FinishWithin(cfg: Config, i: nat)
    ensures Within(cfg, Unlock(i, Done), ToDone, 0, 1)
  {
    assert Within(cfg, Done, ToDone, 0, 0);
  }

  lemma SpawnWithin(cfg: Config, i: nat, slot: WanLookup.Outcome, pid: nat)
    requires slot.Found?
    ensures Within(cfg, SpawnBody(i, slot, pid), ToDone, 0, 4)
  {
    var p := Unlock(i, Done);
    FinishWithin(cfg, i);
    hide Within;
    UpdWithin(cfg, i, SetVirt(slot.virt), p, ToDone, 0, 1);
    UpdWithin(cfg, i, SetWan(slot.iface), Upd(i, SetVirt(slot.virt), p), ToDone, 0, 2);
    UpdWithin(cfg, i, SetPid(pid), Upd(i, SetWan(slot.iface), Upd(i, SetVirt(slot.virt), p)), ToDone, 0, 3);
  }

  lemma StartWithin(cfg: Config, i: nat, slot: WanLookup.Outcome, pid: nat)
    requires slot.Found?
    ensures Within(cfg, StartBody(i, slot, pid), ToDone, 0, 12)
  {
    SpawnWithin(cfg, i, slot, pid);
    hide SpawnBody;
    var out := Unlock(i, Done);
    var p := Choose(SpawnBody(i, slot, pid), out);
    FinishWithin(cfg, i);
    assert Within(cfg, p, ToDone, 0, 5);
    assert Within(cfg, Choose(p, out), ToDone, 0, 6);
    var tested := TestAuth(i, Choose(p, out), out);
    assert Within(cfg, tested, ToDone, 0, 7);
    assert Within(cfg, Upd(i, SetPid(0), tested), ToDone, 0, 8);
  }

  // ------------------------------------------------------------- the API

  lemma ApiLeaveWithin(cfg: Config, i: nat)
    ensures Within(cfg, ApiLeave(i), ToDone, 0, 1)
  {
  }

  lemma SendStartWithin(cfg: Config, i: nat)
    ensures Within(cfg, SendStart(i + 1, ApiLeave(i)), ToDone, 1, 5)
  {
    ApiLeaveWithin(cfg, i);
    hide ApiLeave;
    var k := ApiLeave(i);
    assert Within(cfg, Unlock(i, k), ToDone, 0, 2);
    assert Within(cfg, Upd(i, SetEnabled(true), Unlock(i, k)), ToDone, 0, 3);
    assert Within(cfg, Send(ToRow(i), Launch, Upd(i, SetEnabled(true), Unlock(i, k)), Unlock(i, k)), ToDone, 1, 4);
  }

  lemma DownsWithin(cfg: Config, i: nat, k: Prog, e: End, q: nat, w: nat)
    requires Within(cfg, k, e, q, w)
    ensures Within(cfg, Downs(i + 1, k), e, q + 3, w + 3)
  {
    var d := Send(ToInst(i + 1), Set(Ipv6cpStatus, VDown), k, k);
    assert Within(cfg, d, e, q + 1, w + 1);
    var c := Send(ToInst(i + 1), Set(IpcpStatus, VDown), d, d);
    assert Within(cfg, c, e, q + 2, w + 2);
  }

  lemma StopWithin(cfg: Config, i: nat, k: Prog, bad: Prog, e: End, q: nat, w: nat)
    requires Within(cfg, k, e, q, w) && Within(cfg, bad, e, 0, 1)
    ensures Within(cfg, Stop(cfg, i + 1, k, bad), e, q + 3, w + 15)
  {
    DownsWithin(cfg, i, k, e, q, w);
    hide Downs;
    var p := Mark(NCleared(i), Unlock(i, Downs(i + 1, k)));
    assert Within(cfg, Unlock(i, Downs(i + 1, k)), e, q + 3, w + 4);
    assert Within(cfg, p, e, q + 3, w + 5);
    StopBodyWithin(cfg, i, k, p, e, q + 3, w + 5);
    hide StopBody;
    assert Within(cfg, StopBody(cfg, i, k), e, q + 3, w + 14);
  }

  lemma StopBodyWithin(cfg: Config, i: nat, k: Prog, p: Prog, e: End, q: nat, w: nat)
    requires p == Mark(NCleared(i), Unlock(i, Downs(i + 1, k))) && Within(cfg, p, e, q, w)
    ensures Within(cfg, StopBody(cfg, i, k), e, q, w + 9)
  {
    hide Within, Downs, SetState;
    var p1 := Upd(i, SetIp6Remote(""), p);
    UpdWithin(cfg, i, SetIp6Remote(""), p, e, q, w);
    var p2 := Upd(i, SetIp6Local(""), p1);
    UpdWithin(cfg, i, SetIp6Local(""), p1, e, q, w + 1);
    var p3 := Upd(i, ClearDns, p2);
    UpdWithin(cfg, i, ClearDns, p2, e, q, w + 2);
    var p4 := Upd(i, SetRemote(ZERO_ADDR), p3);
    UpdWithin(cfg, i, SetRemote(ZERO_ADDR), p3, e, q, w + 3);
    UpdWithin(cfg, i, SetLocal(ZERO_ADDR), p4, e, q, w + 4);
    SetStateWithin(cfg, i, Down, Unconfigured, Upd(i, SetLocal(ZERO_ADDR), p4), e, q, w + 5);
    var p5 := StopClear(i, k);
    UpdWithin(cfg, i, SetEnabled(false), p5, e, q, w + 7);
    Raise(cfg, Upd(i, SetEnabled(false), p5), e, q, w + 8, q, w + 9);
    UpdWithin(cfg, i, SetPid(0), p5, e, q, w + 7);
    UpdWithin(cfg, i, SetEnabled(false), Upd(i, SetPid(0), p5), e, q, w + 8);
  }

  /** Whatever is entered stays within its entry's account. */
  lemma BodyWithin(cfg: Config, e: Entry)
    requires RowOf(e) >= 0 && !e.ESlot?
    ensures Within(cfg, Body(cfg, e), EntryEnd(e), EntryOwed(e), EntrySteps(cfg, e))
  {
    var r := RowOf(e);
    match e
    case EScan(i, m) =>
      assert Within(cfg, ScanFrom(cfg, i + 1, m), EntryEnd(e), 2, EntrySteps(cfg, e) - 2);
      assert Within(cfg, Unlock(i, ScanFrom(cfg, i + 1, m)), EntryEnd(e), 2, EntrySteps(cfg, e) - 1);
      assert Within(cfg, Jump(i, CFound(i, m)), EntryEnd(e), 2, 16);
    case EState(_, m) => StateWithin(cfg, r, m);
    case EIpcp(_, m) => IpcpWithin(cfg, r, m.ipcp);
    case EIpv6cp(_, m) => Ipv6cpWithin(cfg, r, m);
    case EStart(_, slot, pid) => if slot.Found? { StartWithin(cfg, r, slot, pid); }
    case EApi(op) => ApiWithin(cfg, op);
  }

  lemma ApiWithin(cfg: Config, op: ApiOp)
    ensures Within(cfg, ApiBody(op), ToDone, ApiOwed(op), 24)
  {
    ApiLeaveWithin(cfg, op.i);
    if op.Reset? {
      assert Within(cfg, Jump(op.i, CReset(op.i)), ToDone, 4, 21);
    }
  }

  lemma CodeBodyWithin(cfg: Config, c: Code, i: nat)
    requires c.i == i
    ensures Within(cfg, CodeBody(cfg, c, i + 1), CodeEnd(c), CodeOwed(c), CodeSteps(c))
  {
    ApiLeaveWithin(cfg, i);
    SendStartWithin(cfg, i);
    hide ApiLeave, SendStart, Stop;
    match c
    case CFound(_, m) => DispatchWithin(cfg, i, m);
    case CEnable(_, on) => if !on { StopWithin(cfg, i, ApiLeave(i), ApiLeave(i), CodeEnd(c), 0, 1); }
    case CReset(_) => StopWithin(cfg, i, SendStart(i + 1, ApiLeave(i)), ApiLeave(i), CodeEnd(c), 1, 5);
  }

  lemma DispatchWithin(cfg: Config, i: nat, m: Msg)
    ensures Within(cfg, Dispatch(i + 1, m), ToReceive, 2, 13)
  {
  }
}
