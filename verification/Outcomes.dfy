/** What each handler does under its lock, stated without its steps: the row it
    leaves, the events it offers, and how it goes on. */
module Outcomes {
  import opened CText
  import opened Ipcp
  import opened Paths
  import opened Program
  import opened Machine
  import opened Sections
  import Tokens
  import VendorScan
  import WanLookup

  // ------------------------------------------------------------- link state

  /** The row after a state message. */
  function StateRow(r: Row, m: Msg): Row {
    match m.state
    case IfUnconfigured => r.(status := Error, conn := Unconfigured)
    case IfConnecting => r.(status := Down, conn := Connecting)
    case IfAuthenticating => r.(status := Down, conn := Authenticating)
    case IfUp => r.(status := Up, conn := Connected, lastError := ErrorNone)
    case IfDisconnecting => r.(status := Down, conn := Disconnecting)
    case IfDisconnected => LostRow(r, m)
    case IfDown => LostRow(r, m)
    case LcpAuthCompleted =>
      var rates := VendorScan.VendorRates(m.vendor);
      r.(sru := rates.sru, srd := rates.srd,
         auth := if m.authProto == "" then r.auth else if m.authProto == "PAP" then Pap else Chap)
    case AuthFailed => r.(status := Down, conn := AuthenticationFailed)
    case _ => r.(status := Down, conn := Disconnected)
  }

  function LostRow(r: Row, m: Msg): Row {
    r.(status := Down, conn := Disconnected, lastError := ErrorOf(m.exitStatus), sru := 0, srd := 0)
  }

  /** What a state message announces, if anything. */
  function StateVerdict(s: PppState): Option<Verdict> {
    match s
    case IfConnecting => None
    case IfAuthenticating => None
    case IfDisconnecting => None
    case LcpAuthCompleted => None
    case IfUp => Some(VUp)
    case _ => Some(VDown)
  }

  function Offer(t: Tid, i: nat, param: Param, v: Verdict, c: Choice): Item {
    Offered(t, BusSet(i + 1, param, v), true, c.b)
  }

  /** The link state is told as two parameters; the second is tried only if the
      first was accepted. */
  function LinkItems(i: nat, v: Verdict, cs: seq<Choice>): seq<Item> {
    [Offer(Ev, i, LcpStatus, v, Head(cs))] + (if Head(cs).b then [Offer(Ev, i, LinkStatus, v, Head(Tail(cs)))] else [])
  }

  function LinkRest(cs: seq<Choice>): seq<Choice> {
    if Head(cs).b then Tail(Tail(cs)) else Tail(cs)
  }

  function StateOutcome(i: nat, m: Msg, r: Row, cs: seq<Choice>): Outcome {
    match StateVerdict(m.state)
    case None => Outcome([], StateRow(r, m), Receive, cs)
    case Some(v) => Outcome(LinkItems(i, v, cs), StateRow(r, m), Receive, LinkRest(cs))
  }

  lemma PlayLeave(cfg: Config, i: nat, r: Row, cs: seq<Choice>, deep: bool)
    ensures Play(cfg, Ev, Leave(i), i, 1, r, cs, deep) == Outcome([], r, Receive, cs)
  {
  }

  lemma PlaySendLeave(cfg: Config, i: nat, param: Param, v: Verdict, r: Row, cs: seq<Choice>, deep: bool)
    ensures Play(cfg, Ev, Send(ToRow(i), Set(param, v), Leave(i), Leave(i)), i, 1, r, cs, deep)
         == Outcome([Offer(Ev, i, param, v, Head(cs))], r, Receive, Tail(cs))
  {
    PlayLeave(cfg, i, r, Tail(cs), deep);
    hide Leave;
  }

  lemma PlayNotify(cfg: Config, i: nat, v: Verdict, r: Row, cs: seq<Choice>, deep: bool)
    ensures Play(cfg, Ev, Notify(i, v), i, 1, r, cs, deep) == Outcome(LinkItems(i, v, cs), r, Receive, LinkRest(cs))
  {
    PlayLeave(cfg, i, r, Tail(cs), deep);
    PlaySendLeave(cfg, i, LinkStatus, v, r, Tail(cs), deep);
    hide Leave;
    assert NotifyLink(i, v) == Send(ToRow(i), Set(LinkStatus, v), Leave(i), Leave(i));
  }

  lemma PlaySetState(cfg: Config, t: Tid, i: nat, d: nat, s: Status, c: Conn, k: Prog, r: Row, cs: seq<Choice>, deep: bool)
    ensures Play(cfg, t, SetState(i, s, c, k), i, d, r, cs, deep) == Play(cfg, t, k, i, d, r.(status := s, conn := c), cs, deep)
  {
    assert Play(cfg, t, Upd(i, SetConn(c), k), i, d, r.(status := s), cs, deep)
        == Play(cfg, t, k, i, d, r.(status := s, conn := c), cs, deep);
  }

  lemma PlayUpd(cfg: Config, t: Tid, i: nat, d: nat, u: Update, k: Prog, r: Row, cs: seq<Choice>, deep: bool)
    ensures Play(cfg, t, Upd(i, u, k), i, d, r, cs, deep) == Play(cfg, t, k, i, d, Apply(r, u), cs, deep)
  {
  }

  lemma PlayLost(cfg: Config, i: nat, m: Msg, r: Row, cs: seq<Choice>, deep: bool)
    ensures Play(cfg, Ev, DownBody(i, m), i, 1, r, cs, deep)
         == Outcome(LinkItems(i, VDown, cs), LostRow(r, m), Receive, LinkRest(cs))
  {
    var e, n := ErrorOf(m.exitStatus), Notify(i, VDown);
    PlayNotify(cfg, i, VDown, LostRow(r, m), cs, deep);
    hide Notify, ErrorOf, LinkItems, LinkRest, Play;
    var r2 := r.(sru := 0, srd := 0);
    var r3 := r2.(status := Down, conn := Disconnected);
    var p := SetState(i, Down, Disconnected, Upd(i, SetError(e), n));
    PlayUpd(cfg, Ev, i, 1, SetSru(0), Upd(i, SetSrd(0), p), r, cs, deep);
    PlayUpd(cfg, Ev, i, 1, SetSrd(0), p, r.(sru := 0), cs, deep);
    PlaySetState(cfg, Ev, i, 1, Down, Disconnected, Upd(i, SetError(e), n), r2, cs, deep);
    PlayUpd(cfg, Ev, i, 1, SetError(e), n, r3, cs, deep);
  }

  lemma PlayAuth(cfg: Config, i: nat, m: Msg, r: Row, cs: seq<Choice>, deep: bool)
    ensures Play(cfg, Ev, AuthBody(i, m), i, 1, r, cs, deep)
         == Outcome([], r.(auth := if m.authProto == "" then r.auth else if m.authProto == "PAP" then Pap else Chap), Receive, cs)
  {
    var a := if m.authProto == "PAP" then Pap else Chap;
    PlayLeave(cfg, i, r, cs, deep);
    PlayLeave(cfg, i, r.(auth := a), cs, deep);
    PlayUpd(cfg, Ev, i, 1, SetAuth(a), Leave(i), r, cs, deep);
    hide Play, Leave;
  }

  lemma NoVendorText()
    ensures VendorScan.VendorRates("") == VendorScan.Rates(0, 0)
  {
    VendorScan.ScanNone("");
  }

  lemma PlayRates(cfg: Config, i: nat, m: Msg, r: Row, cs: seq<Choice>, deep: bool)
    requires m.state == LcpAuthCompleted
    ensures Play(cfg, Ev, Upd(i, SetSru(0), Upd(i, SetSrd(0), RatesBody(i, m))), i, 1, r, cs, deep)
         == Outcome([], StateRow(r, m), Receive, cs)
  {
    NoVendorText();
    hide Play, AuthBody, VendorScan.VendorRates;
    var rates := VendorScan.VendorRates(m.vendor);
    var r1 := r.(sru := 0, srd := 0);
    var r2 := r.(sru := rates.sru, srd := rates.srd);
    PlayUpd(cfg, Ev, i, 1, SetSru(0), Upd(i, SetSrd(0), RatesBody(i, m)), r, cs, deep);
    PlayUpd(cfg, Ev, i, 1, SetSrd(0), RatesBody(i, m), r.(sru := 0), cs, deep);
    PlayUpd(cfg, Ev, i, 1, SetSru(rates.sru), Upd(i, SetSrd(rates.srd), AuthBody(i, m)), r1, cs, deep);
    PlayUpd(cfg, Ev, i, 1, SetSrd(rates.srd), AuthBody(i, m), r1.(sru := rates.sru), cs, deep);
    PlayAuth(cfg, i, m, r2, cs, deep);
  }

  /** The state handler's section. */
  lemma PlayState(cfg: Config, i: nat, m: Msg, r: Row, cs: seq<Choice>, deep: bool)
    ensures Play(cfg, Ev, StateBody(i, m), i, 1, r, cs, deep) == StateOutcome(i, m, r, cs)
  {
    hide Play, Leave, Notify, SetState, DownBody, RatesBody, LinkItems, LinkRest, LostRow;
    match m.state
    case IfUnconfigured => PlayLower(cfg, i, Error, Unconfigured, r, cs, deep);
    case IfConnecting => PlaySilent(cfg, i, Connecting, r, cs, deep);
    case IfAuthenticating => PlaySilent(cfg, i, Authenticating, r, cs, deep);
    case IfUp =>
      PlaySetState(cfg, Ev, i, 1, Up, Connected, Upd(i, SetError(ErrorNone), Notify(i, VUp)), r, cs, deep);
      PlayUpd(cfg, Ev, i, 1, SetError(ErrorNone), Notify(i, VUp), r.(status := Up, conn := Connected), cs, deep);
      PlayNotify(cfg, i, VUp, StateRow(r, m), cs, deep);
    case IfDisconnecting => PlaySilent(cfg, i, Disconnecting, r, cs, deep);
    case IfDisconnected => PlayLost(cfg, i, m, r, cs, deep);
    case IfDown => PlayLost(cfg, i, m, r, cs, deep);
    case LcpAuthCompleted => PlayRates(cfg, i, m, r, cs, deep);
    case AuthFailed => PlayLower(cfg, i, Down, AuthenticationFailed, r, cs, deep);
    case _ => PlayLower(cfg, i, Down, Disconnected, r, cs, deep);
  }

  lemma PlaySilent(cfg: Config, i: nat, c: Conn, r: Row, cs: seq<Choice>, deep: bool)
    ensures Play(cfg, Ev, SetState(i, Down, c, Leave(i)), i, 1, r, cs, deep)
         == Outcome([], r.(status := Down, conn := c), Receive, cs)
  {
    PlaySetState(cfg, Ev, i, 1, Down, c, Leave(i), r, cs, deep);
    PlayLeave(cfg, i, r.(status := Down, conn := c), cs, deep);
  }

  lemma PlayLower(cfg: Config, i: nat, s: Status, c: Conn, r: Row, cs: seq<Choice>, deep: bool)
    ensures Play(cfg, Ev, SetState(i, s, c, Notify(i, VDown)), i, 1, r, cs, deep)
         == Outcome(LinkItems(i, VDown, cs), r.(status := s, conn := c), Receive, LinkRest(cs))
  {
    PlaySetState(cfg, Ev, i, 1, s, c, Notify(i, VDown), r, cs, deep);
    PlayNotify(cfg, i, VDown, r.(status := s, conn := c), cs, deep);
  }

  // ------------------------------------------------------------- IPCP

  /** The row after an IPCP message whose texts are all present: a rejected one
      leaves what was stored up to its rejection. */
  function IpcpRow(r: Row, m: IpcpMsg): Row {
    var ok := Acceptable(m);
    r.(local := ParseIp4(m.ip),
       remote := if AtMostFourParts(m.ip) then ParseIp4(m.gateway) else ZERO_ADDR,
       dns0 := if ok then ParseDns(m.nameserver, 0) else ZERO_ADDR,
       dns1 := if ok then ParseDns(m.nameserver, 1) else ZERO_ADDR)
  }

  predicate AllPresent(m: IpcpMsg) {
    m.ip != "" && m.gateway != "" && m.nameserver != ""
  }

  /** One verdict, Up exactly for an acceptable message. */
  function IpcpItems(i: nat, m: IpcpMsg, c: Choice): seq<Item> {
    if Acceptable(m) then [Noted(NCompleted(i, m)), Offer(Ev, i, IpcpStatus, VUp, c)]
    else [Offer(Ev, i, IpcpStatus, VDown, c)]
  }

  function IpcpOutcome(i: nat, m: IpcpMsg, r: Row, cs: seq<Choice>): Outcome {
    Outcome(IpcpItems(i, m, Head(cs)), IpcpRow(r, m), Receive, Tail(cs))
  }

  lemma PlayIpcpUp(cfg: Config, i: nat, m: IpcpMsg, r: Row, cs: seq<Choice>, deep: bool)
    ensures Play(cfg, Ev, IpcpUp(i, m), i, 1, r, cs, deep)
         == Outcome([Noted(NCompleted(i, m)), Offer(Ev, i, IpcpStatus, VUp, Head(cs))], r, Receive, Tail(cs))
  {
    PlaySendLeave(cfg, i, IpcpStatus, VUp, r, cs, deep);
    hide Leave;
  }

  lemma PlayIpcpDns(cfg: Config, i: nat, m: IpcpMsg, r: Row, cs: seq<Choice>, deep: bool)
    requires r.dns1 == ZERO_ADDR
    ensures Play(cfg, Ev, IpcpDns(i, m), i, 1, r, cs, deep)
         == Outcome([Noted(NCompleted(i, m)), Offer(Ev, i, IpcpStatus, VUp, Head(cs))],
                    r.(dns0 := ParseDns(m.nameserver, 0), dns1 := ParseDns(m.nameserver, 1)), Receive, Tail(cs))
  {
    hide Play, IpcpUp, ParseIp4, Tokens.Toks;
    var d0, d1 := ParseDns(m.nameserver, 0), ParseDns(m.nameserver, 1);
    var r1 := r.(dns0 := d0);
    if |Tokens.Toks(m.nameserver, ',')| > 1 {
      PlayUpd(cfg, Ev, i, 1, SetDns0(d0), Upd(i, SetDns1(d1), IpcpUp(i, m)), r, cs, deep);
      PlayUpd(cfg, Ev, i, 1, SetDns1(d1), IpcpUp(i, m), r1, cs, deep);
      PlayIpcpUp(cfg, i, m, r1.(dns1 := d1), cs, deep);
    } else {
      PlayUpd(cfg, Ev, i, 1, SetDns0(d0), IpcpUp(i, m), r, cs, deep);
      PlayIpcpUp(cfg, i, m, r1, cs, deep);
    }
  }

  /** The IPCP handler's section. */
  lemma PlayIpcp(cfg: Config, i: nat, m: IpcpMsg, r: Row, cs: seq<Choice>, deep: bool)
    requires AllPresent(m)
    ensures Play(cfg, Ev, IpcpBody(i, m), i, 1, r, cs, deep) == IpcpOutcome(i, m, r, cs)
  {
    hide Play, IpcpDns, ParseIp4, ParseDns, AtMostFourParts, Tokens.Toks;
    var r1 := r.(local := ZERO_ADDR, remote := ZERO_ADDR, dns0 := ZERO_ADDR, dns1 := ZERO_ADDR);
    var l, g := ParseIp4(m.ip), ParseIp4(m.gateway);
    var k := if AtMostFourParts(m.ip) then IpcpRemote(i, m) else Reject(i);
    var r2 := r1.(local := l);
    PlayClear(cfg, i, l, k, r, cs, deep);
    if !AtMostFourParts(m.ip) {
      PlaySendLeave(cfg, i, IpcpStatus, VDown, r2, cs, deep);
    } else if AtMostFourParts(m.gateway) && Tokens.Toks(m.nameserver, ',') != [] {
      PlayUpd(cfg, Ev, i, 1, SetRemote(g), IpcpDns(i, m), r2, cs, deep);
      PlayIpcpDns(cfg, i, m, r2.(remote := g), cs, deep);
    } else {
      PlayUpd(cfg, Ev, i, 1, SetRemote(g), Reject(i), r2, cs, deep);
      PlaySendLeave(cfg, i, IpcpStatus, VDown, r2.(remote := g), cs, deep);
    }
  }

  lemma PlayClear(cfg: Config, i: nat, l: Addr, k: Prog, r: Row, cs: seq<Choice>, deep: bool)
    ensures Play(cfg, Ev, Upd(i, SetLocal(ZERO_ADDR), Upd(i, SetRemote(ZERO_ADDR), Upd(i, ClearDns, Upd(i, SetLocal(l), k)))), i, 1, r, cs, deep)
         == Play(cfg, Ev, k, i, 1, r.(local := l, remote := ZERO_ADDR, dns0 := ZERO_ADDR, dns1 := ZERO_ADDR), cs, deep)
  {
    hide Play;
    var p := Upd(i, ClearDns, Upd(i, SetLocal(l), k));
    PlayUpd(cfg, Ev, i, 1, SetLocal(ZERO_ADDR), Upd(i, SetRemote(ZERO_ADDR), p), r, cs, deep);
    PlayUpd(cfg, Ev, i, 1, SetRemote(ZERO_ADDR), p, r.(local := ZERO_ADDR), cs, deep);
    var r1 := r.(local := ZERO_ADDR, remote := ZERO_ADDR);
    PlayUpd(cfg, Ev, i, 1, ClearDns, Upd(i, SetLocal(l), k), r1, cs, deep);
    PlayUpd(cfg, Ev, i, 1, SetLocal(l), k, r1.(dns0 := ZERO_ADDR, dns1 := ZERO_ADDR), cs, deep);
  }

  // ------------------------------------------------------------- IPv6CP

  function Ipv6cpRow(r: Row, m: Msg): Row {
    if m.state != Ipv6cpCompleted then r
    else r.(ip6Local := if m.local6 == "" then r.ip6Local else ClipIfId(m.local6),
            ip6Remote := if m.remote6 == "" then r.ip6Remote else ClipIfId(m.remote6))
  }

  function Ipv6cpOutcome(i: nat, m: Msg, r: Row, cs: seq<Choice>): Outcome {
    Outcome([Offer(Ev, i, Ipv6cpStatus, if m.state == Ipv6cpCompleted then VUp else VDown, Head(cs))],
            Ipv6cpRow(r, m), Receive, Tail(cs))
  }

  lemma PlayIpv6cp(cfg: Config, i: nat, m: Msg, r: Row, cs: seq<Choice>, deep: bool)
    ensures Play(cfg, Ev, Ipv6cpBody(i, m), i, 1, r, cs, deep) == Ipv6cpOutcome(i, m, r, cs)
  {
    hide Play, ClipIfId;
    if m.state != Ipv6cpCompleted {
      PlaySendLeave(cfg, i, Ipv6cpStatus, VDown, r, cs, deep);
    } else {
      var r1 := if m.local6 == "" then r else r.(ip6Local := ClipIfId(m.local6));
      if m.local6 != "" {
        PlayUpd(cfg, Ev, i, 1, SetIp6Local(ClipIfId(m.local6)), Ipv6cpRemote(i, m), r, cs, deep);
      }
      if m.remote6 != "" {
        PlayUpd(cfg, Ev, i, 1, SetIp6Remote(ClipIfId(m.remote6)), Ipv6cpUp(i), r1, cs, deep);
      }
      PlaySendLeave(cfg, i, Ipv6cpStatus, VUp, Ipv6cpRow(r, m), cs, deep);
    }
  }

  // ------------------------------------------------------------- launching

  /** A client is launched if the old one is gone, authentication is configured
      and both answers the outside gives (credentials, lower layer) are good. */
  function StartOutcome(slot: WanLookup.Outcome, pid: nat, r: Row, cs: seq<Choice>): Outcome
    requires slot.Found?
  {
    var c2 := Tail(cs);
    if Head(cs).b && r.pid != 0 then Outcome([], r, Done, c2)
    else if r.auth == NoAuth then Outcome([], r.(pid := 0), Done, c2)
    else if !Head(c2).b then Outcome([], r.(pid := 0), Done, Tail(c2))
    else if !Head(Tail(c2)).b then Outcome([], r.(pid := 0), Done, Tail(Tail(c2)))
    else Outcome([], r.(pid := pid, wan := slot.iface, virt := slot.virt), Done, Tail(Tail(c2)))
  }

  lemma PlaySpawn(cfg: Config, i: nat, slot: WanLookup.Outcome, pid: nat, r: Row, cs: seq<Choice>, deep: bool)
    requires slot.Found?
    ensures Play(cfg, Ev, SpawnBody(i, slot, pid), i, 1, r, cs, deep)
         == Outcome([], r.(pid := pid, wan := slot.iface, virt := slot.virt), Done, cs)
  {
    var k := Unlock(i, Done);
    var r1 := r.(pid := pid);
    var r2 := r1.(wan := slot.iface);
    assert Play(cfg, Ev, k, i, 1, r2.(virt := slot.virt), cs, deep) == Outcome([], r2.(virt := slot.virt), Done, cs);
    hide Play;
    PlayUpd(cfg, Ev, i, 1, SetPid(pid), Upd(i, SetWan(slot.iface), Upd(i, SetVirt(slot.virt), k)), r, cs, deep);
    PlayUpd(cfg, Ev, i, 1, SetWan(slot.iface), Upd(i, SetVirt(slot.virt), k), r1, cs, deep);
    PlayUpd(cfg, Ev, i, 1, SetVirt(slot.virt), k, r2, cs, deep);
  }

  lemma PlayChoose(cfg: Config, i: nat, yes: Prog, no: Prog, r: Row, cs: seq<Choice>, deep: bool)
    ensures Play(cfg, Ev, Choose(yes, no), i, 1, r, cs, deep)
         == Play(cfg, Ev, if Head(cs).b then yes else no, i, 1, r, Tail(cs), deep)
  {
  }

  lemma PlayTests(cfg: Config, i: nat, yes: Prog, no: Prog, r: Row, cs: seq<Choice>, deep: bool)
    ensures Play(cfg, Ev, TestAuth(i, yes, no), i, 1, r, cs, deep)
         == Play(cfg, Ev, if r.auth != NoAuth then yes else no, i, 1, r, cs, deep)
    ensures Play(cfg, Ev, TestAlive(i, yes, no), i, 1, r, cs, deep)
         == Play(cfg, Ev, if Head(cs).b && r.pid != 0 then yes else no, i, 1, r, Tail(cs), deep)
  {
  }

  lemma PlayFinish(cfg: Config, i: nat, r: Row, cs: seq<Choice>, deep: bool)
    ensures Play(cfg, Ev, Unlock(i, Done), i, 1, r, cs, deep) == Outcome([], r, Done, cs)
  {
  }

  lemma PlayStart(cfg: Config, i: nat, slot: WanLookup.Outcome, pid: nat, r: Row, cs: seq<Choice>, deep: bool)
    requires slot.Found?
    ensures Play(cfg, Ev, StartBody(i, slot, pid), i, 1, r, cs, deep) == StartOutcome(slot, pid, r, cs)
  {
    hide Play, SpawnBody, Head, Tail;
    var out, r1, c2 := Unlock(i, Done), r.(pid := 0), Tail(cs);
    var c3 := Tail(c2);
    var p1 := Choose(SpawnBody(i, slot, pid), out);
    var p2 := Choose(p1, out);
    var p3 := TestAuth(i, p2, out);
    PlayTests(cfg, i, out, Upd(i, SetPid(0), p3), r, cs, deep);
    PlayUpd(cfg, Ev, i, 1, SetPid(0), p3, r, c2, deep);
    PlayTests(cfg, i, p2, out, r1, c2, deep);
    PlayChoose(cfg, i, p1, out, r1, c2, deep);
    PlayChoose(cfg, i, SpawnBody(i, slot, pid), out, r1, c3, deep);
    PlaySpawn(cfg, i, slot, pid, r1, Tail(c3), deep);
    PlayFinish(cfg, i, r, c2, deep);
    PlayFinish(cfg, i, r1, c2, deep);
    PlayFinish(cfg, i, r1, c3, deep);
    PlayFinish(cfg, i, r1, Tail(c3), deep);
  }

  // ------------------------------------------------------------- the API

  /** The row a stop leaves. */
  function StoppedRow(cfg: Config, r: Row): Row {
    ClearedRow(r.(enabled := false, pid := if cfg.daemon then 0 else r.pid))
  }

  /** A stop offers the three Downs, in this order, whatever becomes of each. */
  function StopItems(a: Tid, i: nat, cs: seq<Choice>): seq<Item> {
    [Noted(NCleared(i)), Offer(a, i, LcpStatus, VDown, Head(cs)),
     Offer(a, i, IpcpStatus, VDown, Head(Tail(cs))), Offer(a, i, Ipv6cpStatus, VDown, Head(Tail(Tail(cs))))]
  }

  function StopRest(cs: seq<Choice>): seq<Choice> {
    Tail(Tail(Tail(cs)))
  }

  function LaunchItem(a: Tid, i: nat, c: Choice): Item {
    Offered(a, Exec(i + 1), true, c.b)
  }

  function ApiOutcome(cfg: Config, a: Tid, op: ApiOp, r: Row, cs: seq<Choice>): Outcome {
    match op
    case Enable(i, on) =>
      if on then Outcome([LaunchItem(a, i, Head(cs))], r.(enabled := Head(cs).b || r.enabled), Done, Tail(cs))
      else Outcome(StopItems(a, i, cs), StoppedRow(cfg, r), Done, StopRest(cs))
    case Reset(i, on) =>
      if !on || !r.enabled then Outcome([], r, Done, cs)
      else
        var later := StopRest(cs);
        Outcome(StopItems(a, i, cs) + [LaunchItem(a, i, Head(later))], StoppedRow(cfg, r).(enabled := Head(later).b), Done, Tail(later))
    case GetEntry(i) => Outcome([], r.(inst := i + 1), Done, cs)
    case Read(i) => Outcome([], r, Done, cs)
  }

  lemma PlayApiLeave(cfg: Config, a: Tid, i: nat, r: Row, cs: seq<Choice>, deep: bool)
    ensures Play(cfg, a, ApiLeave(i), i, 1, r, cs, deep) == Outcome([], r, Done, cs)
  {
  }

  lemma PlaySendStart(cfg: Config, a: Tid, i: nat, r: Row, cs: seq<Choice>, deep: bool)
    ensures Play(cfg, a, SendStart(i + 1, ApiLeave(i)), i, 1, r, cs, deep)
         == Outcome([LaunchItem(a, i, Head(cs))], r.(enabled := Head(cs).b || r.enabled), Done, Tail(cs))
  {
    var k, r1 := ApiLeave(i), r.(enabled := true);
    PlayApiLeave(cfg, a, i, r, Tail(cs), deep);
    PlayApiLeave(cfg, a, i, r1, Tail(cs), deep);
    hide ApiLeave;
    assert Play(cfg, a, Unlock(i, k), i, 2, r, Tail(cs), deep) == Play(cfg, a, k, i, 1, r, Tail(cs), deep);
    var ok := Upd(i, SetEnabled(true), Unlock(i, k));
    assert Play(cfg, a, ok, i, 2, r, Tail(cs), deep) == Play(cfg, a, k, i, 1, r1, Tail(cs), deep);
    var p := Send(ToRow(i), Launch, ok, Unlock(i, k));
    assert Play(cfg, a, p, i, 2, r, cs, deep)
        == Prefixed(LaunchItem(a, i, Head(cs)), Play(cfg, a, if Head(cs).b then ok else Unlock(i, k), i, 2, r, Tail(cs), deep));
    hide Head, Tail;
    assert Head(cs).b || r.(enabled := r.enabled) == r;
  }

  lemma PlayDowns(cfg: Config, a: Tid, i: nat, k: Prog, r: Row, cs: seq<Choice>, deep: bool)
    ensures var o := Play(cfg, a, k, i, 1, r, StopRest(cs), deep);
            Play(cfg, a, Downs(i + 1, k), i, 1, r, cs, deep) == o.(items := StopItems(a, i, cs)[1..] + o.items)
  {
    var c2 := Tail(cs);
    var c3 := Tail(c2);
    var o := Play(cfg, a, k, i, 1, r, Tail(c3), deep);
    var d := Send(ToInst(i + 1), Set(Ipv6cpStatus, VDown), k, k);
    var c := Send(ToInst(i + 1), Set(IpcpStatus, VDown), d, d);
    var o1 := Prefixed(Offer(a, i, Ipv6cpStatus, VDown, Head(c3)), o);
    assert Play(cfg, a, d, i, 1, r, c3, deep) == o1;
    var o2 := Prefixed(Offer(a, i, IpcpStatus, VDown, Head(c2)), o1);
    assert Play(cfg, a, c, i, 1, r, c2, deep) == o2;
    var o3 := Prefixed(Offer(a, i, LcpStatus, VDown, Head(cs)), o2);
    assert Play(cfg, a, Downs(i + 1, k), i, 1, r, cs, deep) == o3;
    hide Play, Head, Tail;
    assert o3.items == StopItems(a, i, cs)[1..] + o.items;
  }

  lemma PlayStopEnd(cfg: Config, a: Tid, i: nat, k: Prog, r: Row, cs: seq<Choice>, deep: bool)
    ensures var o := Play(cfg, a, k, i, 1, r, StopRest(cs), deep);
            Play(cfg, a, Mark(NCleared(i), Unlock(i, Downs(i + 1, k))), i, 2, r, cs, deep) == o.(items := StopItems(a, i, cs) + o.items)
  {
    PlayDowns(cfg, a, i, k, r, cs, deep);
    var o := Play(cfg, a, k, i, 1, r, StopRest(cs), deep);
    hide Downs, StopRest;
    var o1 := Play(cfg, a, Downs(i + 1, k), i, 1, r, cs, deep);
    assert Play(cfg, a, Unlock(i, Downs(i + 1, k)), i, 2, r, cs, deep) == o1;
    assert Play(cfg, a, Mark(NCleared(i), Unlock(i, Downs(i + 1, k))), i, 2, r, cs, deep) == Prefixed(Noted(NCleared(i)), o1);
    hide Play, Head, Tail;
    var x := StopItems(a, i, cs);
    assert x == [x[0]] + x[1..];
    assert [x[0]] + (x[1..] + o.items) == x + o.items;
  }

  lemma PlayStopMiddle(cfg: Config, a: Tid, i: nat, p: Prog, r: Row, cs: seq<Choice>, deep: bool)
    ensures Play(cfg, a, Upd(i, ClearDns, Upd(i, SetIp6Local(""), Upd(i, SetIp6Remote(""), p))), i, 2, r, cs, deep)
         == Play(cfg, a, p, i, 2, r.(dns0 := ZERO_ADDR, dns1 := ZERO_ADDR, ip6Local := "", ip6Remote := ""), cs, deep)
  {
    hide Play;
    var r1 := r.(dns0 := ZERO_ADDR, dns1 := ZERO_ADDR);
    PlayUpd(cfg, a, i, 2, ClearDns, Upd(i, SetIp6Local(""), Upd(i, SetIp6Remote(""), p)), r, cs, deep);
    PlayUpd(cfg, a, i, 2, SetIp6Local(""), Upd(i, SetIp6Remote(""), p), r1, cs, deep);
    PlayUpd(cfg, a, i, 2, SetIp6Remote(""), p, r1.(ip6Local := ""), cs, deep);
  }

  lemma PlayStopClear(cfg: Config, a: Tid, i: nat, k: Prog, r: Row, cs: seq<Choice>, deep: bool)
    ensures var o := Play(cfg, a, k, i, 1, ClearedRow(r), StopRest(cs), deep);
            Play(cfg, a, StopClear(i, k), i, 2, r, cs, deep) == o.(items := StopItems(a, i, cs) + o.items)
  {
    hide Play, SetState, Downs, StopRest, StopItems;
    var p := Mark(NCleared(i), Unlock(i, Downs(i + 1, k)));
    PlayStopEnd(cfg, a, i, k, ClearedRow(r), cs, deep);
    var p3 := Upd(i, ClearDns, Upd(i, SetIp6Local(""), Upd(i, SetIp6Remote(""), p)));
    var r1 := r.(status := Down, conn := Unconfigured);
    var r3 := r1.(local := ZERO_ADDR, remote := ZERO_ADDR);
    PlaySetState(cfg, a, i, 2, Down, Unconfigured, Upd(i, SetLocal(ZERO_ADDR), Upd(i, SetRemote(ZERO_ADDR), p3)), r, cs, deep);
    PlayUpd(cfg, a, i, 2, SetLocal(ZERO_ADDR), Upd(i, SetRemote(ZERO_ADDR), p3), r1, cs, deep);
    PlayUpd(cfg, a, i, 2, SetRemote(ZERO_ADDR), p3, r1.(local := ZERO_ADDR), cs, deep);
    PlayStopMiddle(cfg, a, i, p, r3, cs, deep);
  }

  lemma PlayStopBody(cfg: Config, a: Tid, i: nat, k: Prog, r: Row, cs: seq<Choice>, deep: bool)
    ensures Play(cfg, a, StopBody(cfg, i, k), i, 2, r, cs, deep)
         == Play(cfg, a, StopClear(i, k), i, 2, r.(enabled := false, pid := if cfg.daemon then 0 else r.pid), cs, deep)
  {
    hide Play, StopClear;
    PlayUpd(cfg, a, i, 2, SetEnabled(false), StopClear(i, k), r, cs, deep);
    PlayUpd(cfg, a, i, 2, SetEnabled(false), Upd(i, SetPid(0), StopClear(i, k)), r, cs, deep);
    PlayUpd(cfg, a, i, 2, SetPid(0), StopClear(i, k), r.(enabled := false), cs, deep);
  }

  lemma PlayStop(cfg: Config, a: Tid, i: nat, k: Prog, bad: Prog, r: Row, cs: seq<Choice>, deep: bool)
    ensures var o := Play(cfg, a, k, i, 1, StoppedRow(cfg, r), StopRest(cs), deep);
            Play(cfg, a, Stop(cfg, i + 1, k, bad), i, 1, r, cs, deep) == o.(items := StopItems(a, i, cs) + o.items)
  {
    hide StopBody, StopClear, StopRest, StopItems;
    PlayLock(cfg, a, i, StopBody(cfg, i, k), bad, r, cs, deep);
    hide Play;
    var r1 := r.(enabled := false, pid := if cfg.daemon then 0 else r.pid);
    PlayStopBody(cfg, a, i, k, r, cs, deep);
    PlayStopClear(cfg, a, i, k, r1, cs, deep);
    assert ClearedRow(r1) == StoppedRow(cfg, r);
  }

  lemma PlayLock(cfg: Config, a: Tid, i: nat, k: Prog, bad: Prog, r: Row, cs: seq<Choice>, deep: bool)
    ensures Play(cfg, a, Lock(i, k, bad), i, 1, r, cs, deep) == Play(cfg, a, k, i, 2, r, cs, deep)
  {
  }

  lemma PlayJump(cfg: Config, a: Tid, i: nat, c: Code, r: Row, cs: seq<Choice>)
    ensures Play(cfg, a, Jump(i, c), i, 1, r, cs, true) == Play(cfg, a, CodeBody(cfg, c, i + 1), i, 1, r, cs, false)
  {
  }

  lemma PlayEnable(cfg: Config, a: Tid, i: nat, on: bool, r: Row, cs: seq<Choice>)
    ensures Play(cfg, a, Jump(i, CEnable(i, on)), i, 1, r, cs, true) == ApiOutcome(cfg, a, Enable(i, on), r, cs)
  {
    PlayJump(cfg, a, i, CEnable(i, on), r, cs);
    hide Play, ApiLeave, SendStart, Stop, StopRest, StopItems, StoppedRow;
    if on {
      PlaySendStart(cfg, a, i, r, cs, false);
    } else {
      PlayStop(cfg, a, i, ApiLeave(i), ApiLeave(i), r, cs, false);
      PlayApiLeave(cfg, a, i, StoppedRow(cfg, r), StopRest(cs), false);
      assert StopItems(a, i, cs) + [] == StopItems(a, i, cs);
    }
  }

  lemma PlayReset(cfg: Config, a: Tid, i: nat, r: Row, cs: seq<Choice>)
    requires r.enabled
    ensures Play(cfg, a, Jump(i, CReset(i)), i, 1, r, cs, true) == ApiOutcome(cfg, a, Reset(i, true), r, cs)
  {
    PlayJump(cfg, a, i, CReset(i), r, cs);
    hide Play, ApiLeave, SendStart, Stop, StopRest, StopItems;
    var k, later := SendStart(i + 1, ApiLeave(i)), StopRest(cs);
    PlayStop(cfg, a, i, k, ApiLeave(i), r, cs, false);
    PlaySendStart(cfg, a, i, StoppedRow(cfg, r), later, false);
  }

  /** Every API operation's section. */
  lemma PlayApi(cfg: Config, a: Tid, op: ApiOp, r: Row, cs: seq<Choice>)
    ensures Play(cfg, a, ApiBody(op), op.i, 1, r, cs, true) == ApiOutcome(cfg, a, op, r, cs)
  {
    var i := op.i;
    match op
    case Enable(_, on) => PlayEnable(cfg, a, i, on, r, cs);
    case Reset(_, on) =>
      PlayApiLeave(cfg, a, i, r, cs, true);
      hide ApiLeave;
      if on && r.enabled {
        PlayReset(cfg, a, i, r, cs);
      }
      assert Play(cfg, a, ApiBody(op), i, 1, r, cs, true)
          == Play(cfg, a, if r.enabled && on then Jump(i, CReset(i)) else ApiLeave(i), i, 1, r, cs, true);
    case GetEntry(_) =>
      hide Play;
      PlayUpd(cfg, a, i, 1, SetInst(i + 1), ApiLeave(i), r, cs, true);
      PlayApiLeave(cfg, a, i, r.(inst := i + 1), cs, true);
    case Read(_) => PlayApiLeave(cfg, a, i, r, cs, true);
  }

  // ------------------------------------------------------------- scanning

  lemma PlayScan(cfg: Config, i: nat, m: Msg, r: Row, cs: seq<Choice>)
    ensures Play(cfg, Ev, Body(cfg, EScan(i, m)), i, 1, r, cs, true)
         == Outcome([], r, if r.pid == m.pid then Dispatch(i + 1, m) else ScanFrom(cfg, i + 1, m), cs)
  {
    hide Dispatch, ScanFrom;
    assert Play(cfg, Ev, Unlock(i, ScanFrom(cfg, i + 1, m)), i, 1, r, cs, true) == Outcome([], r, ScanFrom(cfg, i + 1, m), cs);
    assert Play(cfg, Ev, Jump(i, CFound(i, m)), i, 1, r, cs, true) == Play(cfg, Ev, Unlock(i, Dispatch(i + 1, m)), i, 1, r, cs, false);
  }
}
