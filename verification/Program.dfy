/** The handlers as programs: what one thread does between two points where it
    holds no lock, one instruction per lock, field update, send or test. */
module Program {
  import opened CText
  import opened Ipcp
  import opened Paths
  import VendorScan
  import WanLookup
  import Tokens

  // ------------------------------------------------------------- the data model

  datatype Status = NoStatus | Up | Down | Error

  datatype Conn =
    | NoConn | Unconfigured | Connecting | Authenticating | Connected
    | Disconnecting | Disconnected | AuthenticationFailed

  datatype ConnError = NoError | ErrorNone | IspTimeOut | UserDisconnect | AuthenticationFailure | ErrorUnknown

  datatype Auth = NoAuth | Pap | Chap

  datatype Row = Row(
    inst: int, enabled: bool, auth: Auth, pid: int, wan: int, virt: int,
    status: Status, conn: Conn, lastError: ConnError, sru: int, srd: int,
    local: Addr, remote: Addr, dns0: Addr, dns1: Addr, ip6Local: string, ip6Remote: string)
  {
    function Addresses(): IpcpData {
      IpcpData(local, remote, dns0, dns1)
    }
  }

  datatype Verdict = VUp | VDown

  datatype Event = BusSet(inst: int, param: Param, val: Verdict) | Exec(inst: int)

  const MAX_QUEUE_LENGTH: nat := 100
  const MAX_INTERFACES: nat := 128

  /** What does not change while the manager runs: the interface count, the two
      build options, and where the WAN manager's (fixed) tables name each
      interface. */
  datatype Config = Config(n: nat, daemon: bool, unified: bool, slot: seq<WanLookup.Outcome>)

  predicate ValidConfig(cfg: Config) {
    && cfg.n <= MAX_INTERFACES && |cfg.slot| == cfg.n
    && (forall i :: 0 <= i < cfg.n && cfg.slot[i].Found? ==> cfg.slot[i].iface >= 1 && cfg.slot[i].virt >= 1)
  }

  /** Row i carries the WAN slot the tables assign to its interface. */
  predicate Mapped(cfg: Config, i: nat, row: Row)
    requires ValidConfig(cfg) && i < cfg.n
  {
    cfg.slot[i] == WanLookup.Found(row.wan, row.virt)
  }

  // ------------------------------------------------------------- socket messages

  datatype PppState =
    | IfUp | IfDown | IfUnconfigured | IfConnecting | IfAuthenticating | IfPendingDisconnect
    | IfDisconnecting | IfDisconnected | LcpEchoFailed | AuthFailed | LcpAuthCompleted
    | IpcpCompleted | IpcpFailed | Ipv6cpCompleted | Ipv6cpFailed | OtherState

  datatype Msg = Msg(
    stateChange: bool, pid: int, state: PppState, exitStatus: int, vendor: string, authProto: string,
    ipcp: IpcpMsg, local6: string, remote6: string)

  const PPP_EXIT_USER_REQUEST: int := 5
  const PPP_EXIT_PEER_AUTH_FAILED: int := 11
  const PPP_EXIT_HANGUP: int := 16
  const PPP_EXIT_AUTH_TOPEER_FAILED: int := 19

  function ErrorOf(exitStatus: int): ConnError {
    if exitStatus == PPP_EXIT_USER_REQUEST then UserDisconnect
    else if exitStatus == PPP_EXIT_PEER_AUTH_FAILED || exitStatus == PPP_EXIT_AUTH_TOPEER_FAILED then AuthenticationFailure
    else if exitStatus == PPP_EXIT_HANGUP then IspTimeOut
    else ErrorUnknown
  }

  /** Room for an interface identifier, the terminator excluded. */
  const IFID_TEXT: nat := 45

  function ClipIfId(s: string): string {
    if |s| <= IFID_TEXT then s else s[..IFID_TEXT]
  }

  // ------------------------------------------------------------- instructions

  datatype Tid = Ev | Api(k: nat)

  datatype Update =
    | SetInst(n: int) | SetEnabled(b: bool) | SetAuth(a: Auth) | SetPid(p: int) | SetWan(w: int) | SetVirt(w: int)
    | SetStatus(s: Status) | SetConn(c: Conn) | SetError(e: ConnError) | SetSru(n: int) | SetSrd(n: int)
    | SetLocal(x: Addr) | SetRemote(x: Addr) | ClearDns | SetDns0(x: Addr) | SetDns1(x: Addr)
    | SetIp6Local(t: string) | SetIp6Remote(t: string)

  function Apply(r: Row, u: Update): Row {
    match u
    case SetInst(n) => r.(inst := n)
    case SetEnabled(b) => r.(enabled := b)
    case SetAuth(a) => r.(auth := a)
    case SetPid(p) => r.(pid := p)
    case SetWan(w) => r.(wan := w)
    case SetVirt(w) => r.(virt := w)
    case SetStatus(s) => r.(status := s)
    case SetConn(c) => r.(conn := c)
    case SetError(e) => r.(lastError := e)
    case SetSru(n) => r.(sru := n)
    case SetSrd(n) => r.(srd := n)
    case SetLocal(x) => r.(local := x)
    case SetRemote(x) => r.(remote := x)
    case ClearDns => r.(dns0 := ZERO_ADDR, dns1 := ZERO_ADDR)
    case SetDns0(x) => r.(dns0 := x)
    case SetDns1(x) => r.(dns1 := x)
    case SetIp6Local(t) => r.(ip6Local := t)
    case SetIp6Remote(t) => r.(ip6Remote := t)
  }

  /** Whom an event names: a number the code was called with, or the number the
      locked row carries. */
  datatype Target = ToInst(n: int) | ToRow(i: nat)

  datatype Payload = Set(param: Param, val: Verdict) | Launch

  /** Places where a thread holding no lock goes on by taking one. */
  datatype Entry =
    | EScan(i: nat, m: Msg)
    | EState(inst: int, m: Msg) | EIpcp(inst: int, m: Msg) | EIpv6cp(inst: int, m: Msg)
    | ESlot(ev: Event)
    | EStart(inst: int, slot: WanLookup.Outcome, pid: nat)
    | EApi(op: ApiOp)

  datatype ApiOp = Enable(i: nat, on: bool) | Reset(i: nat, on: bool) | GetEntry(i: nat) | Read(i: nat)

  /** Code entered with the instance number the locked row carries. */
  datatype Code = CFound(i: nat, m: Msg) | CEnable(i: nat, on: bool) | CReset(i: nat)

  /** Notes for the history; they change nothing. */
  datatype Note = NCompleted(i: nat, msg: IpcpMsg) | NCleared(i: nat)

  datatype Prog =
    | Done
    | Receive
    | Crash
    | Enter(e: Entry)
    | Lock(j: int, k: Prog, bad: Prog)
    | Unlock(i: nat, k: Prog)
    | Upd(i: nat, u: Update, k: Prog)
    | Send(to: Target, what: Payload, ok: Prog, fail: Prog)
    | Mark(note: Note, k: Prog)
    | TestPid(i: nat, pid: int, yes: Prog, no: Prog)
    | TestEnabled(i: nat, yes: Prog, no: Prog)
    | TestAuth(i: nat, yes: Prog, no: Prog)
    | TestAlive(i: nat, yes: Prog, no: Prog)
    | Choose(yes: Prog, no: Prog)
    | LoadSlot(i: nat, k: Prog)
    | WanSet(ev: Event, k: Prog)
    | Jump(i: nat, c: Code)

  // ------------------------------------------------------------- the event thread

  function Leave(i: nat): Prog {
    Unlock(i, Receive)
  }

  /** Tells the WAN manager the link state, twice: two parameters. */
  function Notify(i: nat, v: Verdict): Prog {
    Send(ToRow(i), Set(LcpStatus, v), NotifyLink(i, v), Leave(i))
  }

  function NotifyLink(i: nat, v: Verdict): Prog {
    Send(ToRow(i), Set(LinkStatus, v), Leave(i), Leave(i))
  }

  function SetState(i: nat, s: Status, c: Conn, k: Prog): Prog {
    Upd(i, SetStatus(s), Upd(i, SetConn(c), k))
  }

  /** PppMgr_ProcessStateChangedMsg, from the lock on. */
  function StateBody(i: nat, m: Msg): Prog {
    match m.state
    case IfUnconfigured => SetState(i, Error, Unconfigured, Notify(i, VDown))
    case IfConnecting => SetState(i, Down, Connecting, Leave(i))
    case IfAuthenticating => SetState(i, Down, Authenticating, Leave(i))
    case IfUp => SetState(i, Up, Connected, Upd(i, SetError(ErrorNone), Notify(i, VUp)))
    case IfDisconnecting => SetState(i, Down, Disconnecting, Leave(i))
    case IfDisconnected => DownBody(i, m)
    case IfDown => DownBody(i, m)
    case LcpAuthCompleted => Upd(i, SetSru(0), Upd(i, SetSrd(0), RatesBody(i, m)))
    case AuthFailed => SetState(i, Down, AuthenticationFailed, Notify(i, VDown))
    case _ => SetState(i, Down, Disconnected, Notify(i, VDown))
  }

  function DownBody(i: nat, m: Msg): Prog {
    Upd(i, SetSru(0), Upd(i, SetSrd(0),
      SetState(i, Down, Disconnected, Upd(i, SetError(ErrorOf(m.exitStatus)), Notify(i, VDown)))))
  }

  function RatesBody(i: nat, m: Msg): Prog {
    if m.vendor == "" then AuthBody(i, m)
    else
      var r := VendorScan.VendorRates(m.vendor);
      Upd(i, SetSru(r.sru), Upd(i, SetSrd(r.srd), AuthBody(i, m)))
  }

  function AuthBody(i: nat, m: Msg): Prog {
    if m.authProto == "" then Leave(i)
    else Upd(i, SetAuth(if m.authProto == "PAP" then Pap else Chap), Leave(i))
  }

  function Reject(i: nat): Prog {
    Send(ToRow(i), Set(IpcpStatus, VDown), Leave(i), Leave(i))
  }

  /** PppMgr_ProcessIpcpParams, from the lock on. */
  function IpcpBody(i: nat, m: IpcpMsg): Prog {
    Upd(i, SetLocal(ZERO_ADDR), Upd(i, SetRemote(ZERO_ADDR), Upd(i, ClearDns,
      Upd(i, SetLocal(ParseIp4(m.ip)), if AtMostFourParts(m.ip) then IpcpRemote(i, m) else Reject(i)))))
  }

  function IpcpRemote(i: nat, m: IpcpMsg): Prog {
    Upd(i, SetRemote(ParseIp4(m.gateway)),
      if AtMostFourParts(m.gateway) && Tokens.Toks(m.nameserver, ',') != [] then IpcpDns(i, m) else Reject(i))
  }

  function IpcpDns(i: nat, m: IpcpMsg): Prog {
    Upd(i, SetDns0(ParseDns(m.nameserver, 0)),
      if |Tokens.Toks(m.nameserver, ',')| > 1 then Upd(i, SetDns1(ParseDns(m.nameserver, 1)), IpcpUp(i, m)) else IpcpUp(i, m))
  }

  function IpcpUp(i: nat, m: IpcpMsg): Prog {
    Mark(NCompleted(i, m), Send(ToRow(i), Set(IpcpStatus, VUp), Leave(i), Leave(i)))
  }

  /** PppMgr_ProcessIpv6cpParams, from the lock on. */
  function Ipv6cpBody(i: nat, m: Msg): Prog {
    if m.state == Ipv6cpCompleted then
      if m.local6 == "" then Ipv6cpRemote(i, m) else Upd(i, SetIp6Local(ClipIfId(m.local6)), Ipv6cpRemote(i, m))
    else Send(ToRow(i), Set(Ipv6cpStatus, VDown), Leave(i), Leave(i))
  }

  function Ipv6cpRemote(i: nat, m: Msg): Prog {
    if m.remote6 == "" then Ipv6cpUp(i) else Upd(i, SetIp6Remote(ClipIfId(m.remote6)), Ipv6cpUp(i))
  }

  function Ipv6cpUp(i: nat): Prog {
    Send(ToRow(i), Set(Ipv6cpStatus, VUp), Leave(i), Leave(i))
  }

  /** The routing switch of PppMgr_ProcessPppState, with the checks the handlers
      make before they take the lock. */
  function Dispatch(inst: int, m: Msg): Prog {
    if inst <= 0 then Receive else Route(inst, m)
  }

  function Route(inst: int, m: Msg): Prog {
    match m.state
    case IpcpCompleted =>
      if m.ipcp.ip == "" || m.ipcp.gateway == "" || m.ipcp.nameserver == ""
      then IpcpDownUnlocked(inst) else Enter(EIpcp(inst, m))
    case IpcpFailed => IpcpDownUnlocked(inst)
    case Ipv6cpCompleted => Enter(EIpv6cp(inst, m))
    case Ipv6cpFailed => Enter(EIpv6cp(inst, m))
    case OtherState => Receive
    case _ => Enter(EState(inst, m))
  }

  function IpcpDownUnlocked(inst: int): Prog {
    Send(ToInst(inst), Set(IpcpStatus, VDown), Receive, Receive)
  }

  /** PppMgr_getIfaceDataWithPid: rows i, i+1, ... in turn. */
  function ScanFrom(cfg: Config, i: nat, m: Msg): Prog {
    if i < cfg.n then Enter(EScan(i, m)) else Receive
  }

  function ProcessPppState(cfg: Config, m: Msg): Prog {
    if m.stateChange then ScanFrom(cfg, 0, m) else Receive
  }

  /** Where the WAN manager's tables name an interface. They may well name one that
      the interface table does not have; which slot that would be does not matter. */
  function SlotFor(cfg: Config, inst: int): WanLookup.Outcome
    requires inst >= 1
  {
    if inst <= |cfg.slot| then cfg.slot[inst - 1] else WanLookup.Found(1, 1)
  }

  /** PppMgr_ProcessPppEvent. The two answers stand for what the outside gives:
      whether the WAN queries succeed, and the pid a launched client gets. */
  function Deliver(cfg: Config, e: Event, queries: bool, pid: nat): Prog {
    if e.inst <= 0 then Done
    else
      match e
      case BusSet(_, _, _) => Enter(ESlot(e))
      case Exec(inst) =>
        if queries && SlotFor(cfg, inst).Found? then Enter(EStart(inst, SlotFor(cfg, inst), pid)) else Done
  }

  /** PppMgr_StartPppClient, from the lock on: nothing to do if the old client
      lives; credentials and the lower layer's name come from outside. */
  function StartBody(i: nat, slot: WanLookup.Outcome, pid: nat): Prog
    requires slot.Found?
  {
    TestAlive(i, Unlock(i, Done),
      Upd(i, SetPid(0), TestAuth(i, Choose(Choose(SpawnBody(i, slot, pid), Unlock(i, Done)), Unlock(i, Done)), Unlock(i, Done))))
  }

  function SpawnBody(i: nat, slot: WanLookup.Outcome, pid: nat): Prog
    requires slot.Found?
  {
    Upd(i, SetPid(pid), Upd(i, SetWan(slot.iface), Upd(i, SetVirt(slot.virt), Unlock(i, Done))))
  }

  // ------------------------------------------------------------- the API threads

  /** PppMgr_SendPppdStartEventToQ. */
  function SendStart(inst: int, k: Prog): Prog {
    Lock(inst - 1,
      if inst >= 1 then
        Send(ToRow(inst - 1), Launch, Upd(inst - 1, SetEnabled(true), Unlock(inst - 1, k)), Unlock(inst - 1, k))
      else k,
      k)
  }

  /** PppMgr_StopPppClient: clears the row, leaves the inner lock, and only then
      sends the three Downs; the caller's lock is still held. */
  function Stop(cfg: Config, inst: int, k: Prog, bad: Prog): Prog {
    Lock(inst - 1, if inst >= 1 then StopBody(cfg, inst - 1, k) else k, bad)
  }

  function StopBody(cfg: Config, i: nat, k: Prog): Prog {
    Upd(i, SetEnabled(false), if cfg.daemon then Upd(i, SetPid(0), StopClear(i, k)) else StopClear(i, k))
  }

  /** A row whose session data has been cleared. */
  function ClearedRow(r: Row): Row {
    r.(status := Down, conn := Unconfigured, local := ZERO_ADDR, remote := ZERO_ADDR,
       dns0 := ZERO_ADDR, dns1 := ZERO_ADDR, ip6Local := "", ip6Remote := "")
  }

  function StopClear(i: nat, k: Prog): Prog {
    SetState(i, Down, Unconfigured, Upd(i, SetLocal(ZERO_ADDR), Upd(i, SetRemote(ZERO_ADDR), Upd(i, ClearDns,
      Upd(i, SetIp6Local(""), Upd(i, SetIp6Remote(""), Mark(NCleared(i), Unlock(i, Downs(i + 1, k)))))))))
  }

  function Downs(inst: int, k: Prog): Prog {
    var d := Send(ToInst(inst), Set(Ipv6cpStatus, VDown), k, k);
    var c := Send(ToInst(inst), Set(IpcpStatus, VDown), d, d);
    Send(ToInst(inst), Set(LcpStatus, VDown), c, c)
  }

  function ApiLeave(i: nat): Prog {
    Unlock(i, Done)
  }

  // ------------------------------------------------------------- entries and codes

  function RowOf(e: Entry): int {
    match e
    case EScan(i, _) => i
    case EState(inst, _) => inst - 1
    case EIpcp(inst, _) => inst - 1
    case EIpv6cp(inst, _) => inst - 1
    case ESlot(ev) => ev.inst - 1
    case EStart(inst, _, _) => inst - 1
    case EApi(op) => op.i
  }

  function ApiBody(op: ApiOp): Prog {
    match op
    case Enable(i, on) => Jump(i, CEnable(i, on))
    case Reset(i, on) => TestEnabled(i, if on then Jump(i, CReset(i)) else ApiLeave(i), ApiLeave(i))
    case GetEntry(i) => Upd(i, SetInst(i + 1), ApiLeave(i))
    case Read(i) => ApiLeave(i)
  }

  /** What runs once the lock is taken. */
  function Body(cfg: Config, e: Entry): Prog
    requires RowOf(e) >= 0
  {
    var r := RowOf(e);
    match e
    case EScan(i, m) => TestPid(i, m.pid, Jump(i, CFound(i, m)), Unlock(i, ScanFrom(cfg, i + 1, m)))
    case EState(_, m) => StateBody(r, m)
    case EIpcp(_, m) => IpcpBody(r, m.ipcp)
    case EIpv6cp(_, m) => Ipv6cpBody(r, m)
    case ESlot(ev) => LoadSlot(r, Unlock(r, WanSet(ev, Done)))
    case EStart(_, slot, pid) => if slot.Found? then StartBody(r, slot, pid) else Unlock(r, Done)
    case EApi(op) => ApiBody(op)
  }

  /** What runs when the number names no row. The start path does not test for
      it: it would use a null pointer. */
  function NoRow(e: Entry): Prog {
    match e
    case ESlot(ev) => WanSet(ev, Done)
    case EStart(_, _, _) => Crash
    case EApi(_) => Done
    case _ => Receive
  }

  function CodeBody(cfg: Config, c: Code, inst: int): Prog {
    match c
    case CFound(i, m) => Unlock(i, Dispatch(inst, m))
    case CEnable(i, on) => if on then SendStart(inst, ApiLeave(i)) else Stop(cfg, inst, ApiLeave(i), ApiLeave(i))
    case CReset(i) => Stop(cfg, inst, SendStart(inst, ApiLeave(i)), ApiLeave(i))
  }
}
