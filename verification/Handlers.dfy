/** Every handler keeps the discipline: entered with a free row in agreement, it
    leaves it in agreement on every path. */
module Handlers {
  import opened CText
  import opened Ipcp
  import opened Paths
  import opened Program
  import opened Machine
  import opened Invariant
  import Tokens
  import VendorScan
  import WanLookup

  predicate PlainUpdate(u: Update) {
    !u.SetInst? && !u.SetWan? && !u.SetVirt?
  }

  /** One update in front of a program that is in order. */
  lemma Before(cfg: Config, t: Tid, u: Update, k: Prog, i: nat, d: nat, v: View)
    requires ValidConfig(cfg) && i < cfg.n && PlainUpdate(u) && v.row.inst == i + 1 && d > 0
    requires u.SetPid? ==> u.p == 0
    requires u.SetAuth? ==> u.a != NoAuth
    requires Inside(cfg, t, k, i, d, v.(row := Apply(v.row, u)))
    ensures Inside(cfg, t, Upd(i, u, k), i, d, v)
  {
  }

  lemma LeaveOk(cfg: Config, i: nat, v: View)
    requires ValidConfig(cfg) && i < cfg.n && Agrees(cfg, i, v)
    ensures Inside(cfg, Ev, Leave(i), i, 1, v)
  {
  }

  lemma SendLeaveOk(cfg: Config, i: nat, what: Payload, v: View)
    requires ValidConfig(cfg) && i < cfg.n && Agrees(cfg, i, AfterOffer(cfg, v, what))
    requires what.Set? && what.val == VUp ==> Mapped(cfg, i, v.row)
    ensures Inside(cfg, Ev, Send(ToRow(i), what, Leave(i), Leave(i)), i, 1, v)
  {
    LeaveOk(cfg, i, AfterOffer(cfg, v, what));
  }

  /** Announcing the state the row is in. */
  lemma NotifyOk(cfg: Config, i: nat, x: Verdict, v: View)
    requires ValidConfig(cfg) && i < cfg.n && Agrees(cfg, i, v.(link := Some(x)))
    requires x == VUp ==> Mapped(cfg, i, v.row)
    ensures Inside(cfg, Ev, Notify(i, x), i, 1, v)
  {
    var v1 := AfterOffer(cfg, v, Set(LcpStatus, x));
    assert v1 == v.(link := Some(x));
    assert AfterOffer(cfg, v1, Set(LinkStatus, x)) == v1;
    SendLeaveOk(cfg, i, Set(LinkStatus, x), v1);
    LeaveOk(cfg, i, v1);
  }

  /** A silent change of state neither raises Status nor records a lost link. */
  lemma SilentOk(cfg: Config, i: nat, c: Conn, v: View)
    requires ValidConfig(cfg) && i < cfg.n && Agrees(cfg, i, v) && c in {Connecting, Authenticating, Disconnecting}
    ensures Inside(cfg, Ev, SetState(i, Down, c, Leave(i)), i, 1, v)
  {
    var v1 := v.(row := v.row.(status := Down));
    var v2 := v1.(row := v1.row.(conn := c));
    LeaveOk(cfg, i, v2);
    assert Inside(cfg, Ev, Upd(i, SetConn(c), Leave(i)), i, 1, v1);
  }

  lemma DownNotifiedOk(cfg: Config, i: nat, s: Status, c: Conn, v: View)
    requires ValidConfig(cfg) && i < cfg.n && Agrees(cfg, i, v) && s != Up && c != Connected
    ensures Inside(cfg, Ev, SetState(i, s, c, Notify(i, VDown)), i, 1, v)
  {
    var v1 := v.(row := v.row.(status := s));
    var v2 := v1.(row := v1.row.(conn := c));
    NotifyOk(cfg, i, VDown, v2);
    assert Inside(cfg, Ev, Upd(i, SetConn(c), Notify(i, VDown)), i, 1, v1);
  }

  lemma UpOk(cfg: Config, i: nat, v: View)
    requires ValidConfig(cfg) && i < cfg.n && Agrees(cfg, i, v) && Mapped(cfg, i, v.row)
    ensures Inside(cfg, Ev, SetState(i, Up, Connected, Upd(i, SetError(ErrorNone), Notify(i, VUp))), i, 1, v)
  {
    var v1 := v.(row := v.row.(status := Up));
    var v2 := v1.(row := v1.row.(conn := Connected));
    var v3 := v2.(row := v2.row.(lastError := ErrorNone));
    hide Inside, Notify;
    NotifyOk(cfg, i, VUp, v3);
    var p := Upd(i, SetError(ErrorNone), Notify(i, VUp));
    Before(cfg, Ev, SetError(ErrorNone), Notify(i, VUp), i, 1, v2);
    Before(cfg, Ev, SetConn(Connected), p, i, 1, v1);
    Before(cfg, Ev, SetStatus(Up), Upd(i, SetConn(Connected), p), i, 1, v);
  }

  lemma DownOk(cfg: Config, i: nat, m: Msg, v: View)
    requires ValidConfig(cfg) && i < cfg.n && Agrees(cfg, i, v)
    ensures Inside(cfg, Ev, DownBody(i, m), i, 1, v)
  {
    hide Inside;
    var e := ErrorOf(m.exitStatus);
    var v1 := v.(row := v.row.(sru := 0));
    var v2 := v1.(row := v1.row.(srd := 0));
    var v3 := v2.(row := v2.row.(status := Down));
    var v4 := v3.(row := v3.row.(conn := Disconnected));
    var v5 := v4.(row := v4.row.(lastError := e));
    assert Agrees(cfg, i, v5.(link := Some(VDown)));
    hide Agrees, Mapped, ErrorOf;
    NotifyOk(cfg, i, VDown, v5);
    hide Notify;
    var p4 := Upd(i, SetError(e), Notify(i, VDown));
    Before(cfg, Ev, SetError(e), Notify(i, VDown), i, 1, v4);
    var p3 := Upd(i, SetConn(Disconnected), p4);
    Before(cfg, Ev, SetConn(Disconnected), p4, i, 1, v3);
    var p2 := Upd(i, SetStatus(Down), p3);
    Before(cfg, Ev, SetStatus(Down), p3, i, 1, v2);
    Before(cfg, Ev, SetSrd(0), p2, i, 1, v1);
    Before(cfg, Ev, SetSru(0), Upd(i, SetSrd(0), p2), i, 1, v);
  }

  lemma AuthOk(cfg: Config, i: nat, m: Msg, v: View)
    requires ValidConfig(cfg) && i < cfg.n && Agrees(cfg, i, v)
    ensures Inside(cfg, Ev, AuthBody(i, m), i, 1, v)
  {
    LeaveOk(cfg, i, v);
    LeaveOk(cfg, i, v.(row := v.row.(auth := if m.authProto == "PAP" then Pap else Chap)));
  }

  lemma RatesOk(cfg: Config, i: nat, m: Msg, v: View)
    requires ValidConfig(cfg) && i < cfg.n && Agrees(cfg, i, v)
    ensures Inside(cfg, Ev, Upd(i, SetSru(0), Upd(i, SetSrd(0), RatesBody(i, m))), i, 1, v)
  {
    var r := VendorScan.VendorRates(m.vendor);
    hide VendorScan.VendorRates, Inside;
    var v1 := v.(row := v.row.(sru := 0));
    var v2 := v1.(row := v1.row.(srd := 0));
    var v3 := v2.(row := v2.row.(sru := r.sru));
    var v4 := v3.(row := v3.row.(srd := r.srd));
    assert Agrees(cfg, i, v2) && Agrees(cfg, i, v4);
    hide Agrees, AuthBody, Mapped;
    AuthOk(cfg, i, m, v2);
    AuthOk(cfg, i, m, v4);
    Before(cfg, Ev, SetSrd(r.srd), AuthBody(i, m), i, 1, v3);
    Before(cfg, Ev, SetSru(r.sru), Upd(i, SetSrd(r.srd), AuthBody(i, m)), i, 1, v2);
    Before(cfg, Ev, SetSrd(0), RatesBody(i, m), i, 1, v1);
    Before(cfg, Ev, SetSru(0), Upd(i, SetSrd(0), RatesBody(i, m)), i, 1, v);
  }

  lemma StateOk(cfg: Config, i: nat, m: Msg, v: View)
    requires ValidConfig(cfg) && i < cfg.n && Agrees(cfg, i, v) && Mapped(cfg, i, v.row)
    ensures Inside(cfg, Ev, StateBody(i, m), i, 1, v)
  {
    match m.state
    case IfUnconfigured => DownNotifiedOk(cfg, i, Error, Unconfigured, v);
    case IfConnecting => SilentOk(cfg, i, Connecting, v);
    case IfAuthenticating => SilentOk(cfg, i, Authenticating, v);
    case IfUp => UpOk(cfg, i, v);
    case IfDisconnecting => SilentOk(cfg, i, Disconnecting, v);
    case IfDisconnected => DownOk(cfg, i, m, v);
    case IfDown => DownOk(cfg, i, m, v);
    case LcpAuthCompleted => RatesOk(cfg, i, m, v);
    case AuthFailed => DownNotifiedOk(cfg, i, Down, AuthenticationFailed, v);
    case _ => DownNotifiedOk(cfg, i, Down, Disconnected, v);
  }

  // ------------------------------------------------------------- IPCP

  /** Agreement apart from the addresses, which are being rewritten. */
  predicate Rest(cfg: Config, i: nat, v: View)
    requires ValidConfig(cfg) && i < cfg.n
  {
    Agrees(cfg, i, v.(ipcp := Some(VDown)))
  }

  lemma RejectOk(cfg: Config, i: nat, v: View)
    requires ValidConfig(cfg) && i < cfg.n && Rest(cfg, i, v)
    ensures Inside(cfg, Ev, Reject(i), i, 1, v)
  {
    SendLeaveOk(cfg, i, Set(IpcpStatus, VDown), v);
  }

  lemma IpcpUpOk(cfg: Config, i: nat, m: IpcpMsg, v: View)
    requires ValidConfig(cfg) && i < cfg.n && Rest(cfg, i, v) && Mapped(cfg, i, v.row)
    requires v.row.Addresses() == Parse(m)
    ensures Inside(cfg, Ev, IpcpUp(i, m), i, 1, v)
  {
    hide Parse;
    SendLeaveOk(cfg, i, Set(IpcpStatus, VUp), v.(note := Some(NCompleted(i, m))));
  }

  lemma ParsedDns(m: IpcpMsg)
    ensures Parse(m).dns0 == ParseDns(m.nameserver, 0) && Parse(m).dns1 == ParseDns(m.nameserver, 1)
    ensures |Tokens.Toks(m.nameserver, ',')| <= 1 ==> ParseDns(m.nameserver, 1) == ZERO_ADDR
  {
  }

  lemma IpcpDnsOk(cfg: Config, i: nat, m: IpcpMsg, v: View)
    requires ValidConfig(cfg) && i < cfg.n && Rest(cfg, i, v) && Mapped(cfg, i, v.row)
    requires v.row.Addresses() == Parse(m).(dns0 := ZERO_ADDR, dns1 := ZERO_ADDR)
    ensures Inside(cfg, Ev, IpcpDns(i, m), i, 1, v)
  {
    ParsedDns(m);
    hide ParseDns, Parse, Tokens.Toks, Inside;
    var d0, d1 := ParseDns(m.nameserver, 0), ParseDns(m.nameserver, 1);
    var two := |Tokens.Toks(m.nameserver, ',')| > 1;
    var v1 := v.(row := v.row.(dns0 := d0));
    var v2 := v1.(row := v1.row.(dns1 := d1));
    assert v2.row.Addresses() == Parse(m);
    assert Rest(cfg, i, v1) && Rest(cfg, i, v2);
    hide Agrees;
    if two {
      IpcpUpOk(cfg, i, m, v2);
      Before(cfg, Ev, SetDns1(d1), IpcpUp(i, m), i, 1, v1);
      Before(cfg, Ev, SetDns0(d0), Upd(i, SetDns1(d1), IpcpUp(i, m)), i, 1, v);
    } else {
      assert v1.row == v2.row;
      IpcpUpOk(cfg, i, m, v1);
      Before(cfg, Ev, SetDns0(d0), IpcpUp(i, m), i, 1, v);
    }
  }

  lemma IpcpRemoteOk(cfg: Config, i: nat, m: IpcpMsg, v: View)
    requires ValidConfig(cfg) && i < cfg.n && Rest(cfg, i, v) && Mapped(cfg, i, v.row)
    requires v.row.Addresses() == IpcpData(ParseIp4(m.ip), ZERO_ADDR, ZERO_ADDR, ZERO_ADDR)
    ensures Inside(cfg, Ev, IpcpRemote(i, m), i, 1, v)
  {
    hide ParseIp4, Tokens.Toks, ParseDns, AtMostFourParts;
    var v1 := v.(row := v.row.(remote := ParseIp4(m.gateway)));
    if AtMostFourParts(m.gateway) && Tokens.Toks(m.nameserver, ',') != [] {
      IpcpDnsOk(cfg, i, m, v1);
    } else {
      RejectOk(cfg, i, v1);
    }
  }

  lemma IpcpAfterLocalOk(cfg: Config, i: nat, m: IpcpMsg, v: View)
    requires ValidConfig(cfg) && i < cfg.n && Rest(cfg, i, v) && Mapped(cfg, i, v.row)
    requires v.row.Addresses() == IpcpData(ParseIp4(m.ip), ZERO_ADDR, ZERO_ADDR, ZERO_ADDR)
    ensures Inside(cfg, Ev, if AtMostFourParts(m.ip) then IpcpRemote(i, m) else Reject(i), i, 1, v)
  {
    hide Inside, Rest, ParseIp4, AtMostFourParts;
    if AtMostFourParts(m.ip) {
      IpcpRemoteOk(cfg, i, m, v);
    } else {
      RejectOk(cfg, i, v);
    }
  }

  lemma IpcpOk(cfg: Config, i: nat, m: IpcpMsg, v: View)
    requires ValidConfig(cfg) && i < cfg.n && Agrees(cfg, i, v) && Mapped(cfg, i, v.row)
    ensures Inside(cfg, Ev, IpcpBody(i, m), i, 1, v)
  {
    hide ParseIp4, Parse, AtMostFourParts, Inside;
    var v1 := v.(row := v.row.(local := ZERO_ADDR));
    var v2 := v1.(row := v1.row.(remote := ZERO_ADDR));
    var v3 := v2.(row := v2.row.(dns0 := ZERO_ADDR, dns1 := ZERO_ADDR));
    var v4 := v3.(row := v3.row.(local := ParseIp4(m.ip)));
    assert Rest(cfg, i, v4) && Mapped(cfg, i, v4.row);
    hide Inside, Agrees, Mapped, Rest;
    IpcpAfterLocalOk(cfg, i, m, v4);
    var k := if AtMostFourParts(m.ip) then IpcpRemote(i, m) else Reject(i);
    hide IpcpRemote, Reject;
    var p3 := Upd(i, SetLocal(ParseIp4(m.ip)), k);
    Before(cfg, Ev, SetLocal(ParseIp4(m.ip)), k, i, 1, v3);
    Before(cfg, Ev, ClearDns, p3, i, 1, v2);
    Before(cfg, Ev, SetRemote(ZERO_ADDR), Upd(i, ClearDns, p3), i, 1, v1);
    Before(cfg, Ev, SetLocal(ZERO_ADDR), Upd(i, SetRemote(ZERO_ADDR), Upd(i, ClearDns, p3)), i, 1, v);
  }

  lemma Ipv6cpOk(cfg: Config, i: nat, m: Msg, v: View)
    requires ValidConfig(cfg) && i < cfg.n && Agrees(cfg, i, v) && Mapped(cfg, i, v.row)
    ensures Inside(cfg, Ev, Ipv6cpBody(i, m), i, 1, v)
  {
    if m.state == Ipv6cpCompleted {
      Ipv6cpRemoteOk(cfg, i, m, v);
      Ipv6cpRemoteOk(cfg, i, m, v.(row := v.row.(ip6Local := ClipIfId(m.local6))));
    } else {
      SendLeaveOk(cfg, i, Set(Ipv6cpStatus, VDown), v);
    }
  }

  lemma Ipv6cpRemoteOk(cfg: Config, i: nat, m: Msg, v: View)
    requires ValidConfig(cfg) && i < cfg.n && Agrees(cfg, i, v) && Mapped(cfg, i, v.row)
    ensures Inside(cfg, Ev, Ipv6cpRemote(i, m), i, 1, v)
  {
    SendLeaveOk(cfg, i, Set(Ipv6cpStatus, VUp), v);
    var v1 := v.(row := v.row.(ip6Remote := ClipIfId(m.remote6)));
    SendLeaveOk(cfg, i, Set(Ipv6cpStatus, VUp), v1);
  }

  // ------------------------------------------------------------- launching a client

  lemma SpawnOk(cfg: Config, i: nat, slot: WanLookup.Outcome, pid: nat, v: View)
    requires ValidConfig(cfg) && i < cfg.n && slot == cfg.slot[i] && slot.Found?
    requires Agrees(cfg, i, v) && v.row.auth != NoAuth
    ensures Inside(cfg, Ev, SpawnBody(i, slot, pid), i, 1, v)
  {
    var v1 := v.(row := v.row.(pid := pid));
    var v2 := v1.(row := v1.row.(wan := slot.iface));
    var v3 := v2.(row := v2.row.(virt := slot.virt));
    assert Agrees(cfg, i, v3);
    assert Inside(cfg, Ev, Unlock(i, Done), i, 1, v3);
    assert Inside(cfg, Ev, Upd(i, SetVirt(slot.virt), Unlock(i, Done)), i, 1, v2);
    assert Inside(cfg, Ev, Upd(i, SetWan(slot.iface), Upd(i, SetVirt(slot.virt), Unlock(i, Done))), i, 1, v1);
  }

  lemma StartOk(cfg: Config, i: nat, slot: WanLookup.Outcome, pid: nat, v: View)
    requires ValidConfig(cfg) && i < cfg.n && slot == cfg.slot[i] && slot.Found?
    requires Agrees(cfg, i, v)
    ensures Inside(cfg, Ev, StartBody(i, slot, pid), i, 1, v)
  {
    hide SpawnBody;
    var v1 := v.(row := v.row.(pid := 0));
    var out := Unlock(i, Done);
    assert Agrees(cfg, i, v1);
    assert Inside(cfg, Ev, out, i, 1, v) && Inside(cfg, Ev, out, i, 1, v1);
    var p := Choose(SpawnBody(i, slot, pid), out);
    if v.row.auth != NoAuth {
      SpawnOk(cfg, i, slot, pid, v1);
      assert Inside(cfg, Ev, p, i, 1, v1);
      assert Inside(cfg, Ev, Choose(p, out), i, 1, v1);
    }
    assert Inside(cfg, Ev, TestAuth(i, Choose(p, out), out), i, 1, v1);
  }

  // ------------------------------------------------------------- the API

  lemma SendStartOk(cfg: Config, a: Tid, i: nat, v: View)
    requires ValidConfig(cfg) && i < cfg.n && a.Api? && Agrees(cfg, i, v)
    ensures Inside(cfg, a, SendStart(i + 1, ApiLeave(i)), i, 1, v)
  {
    var v1 := v.(row := v.row.(enabled := true));
    assert Agrees(cfg, i, v1);
    LeftTwice(cfg, a, i, v);
    LeftTwice(cfg, a, i, v1);
    hide Agrees;
    EnabledOk(cfg, a, i, Unlock(i, ApiLeave(i)), v);
  }

  lemma LeftTwice(cfg: Config, a: Tid, i: nat, v: View)
    requires ValidConfig(cfg) && i < cfg.n && a.Api? && Agrees(cfg, i, v)
    ensures Inside(cfg, a, Unlock(i, ApiLeave(i)), i, 2, v)
  {
    hide Agrees;
    assert v.row.inst == i + 1 by { InstOf(cfg, i, v); }
    assert Inside(cfg, a, ApiLeave(i), i, 1, v);
  }

  lemma InstOf(cfg: Config, i: nat, v: View)
    requires ValidConfig(cfg) && i < cfg.n && Agrees(cfg, i, v)
    ensures v.row.inst == i + 1
  {
  }

  lemma EnabledOk(cfg: Config, a: Tid, i: nat, k: Prog, v: View)
    requires ValidConfig(cfg) && i < cfg.n && v.row.inst == i + 1
    requires Inside(cfg, a, k, i, 2, v) && Inside(cfg, a, k, i, 2, v.(row := v.row.(enabled := true)))
    ensures Inside(cfg, a, Send(ToRow(i), Launch, Upd(i, SetEnabled(true), k), k), i, 2, v)
  {
    hide Agrees, Outside;
    Before(cfg, a, SetEnabled(true), k, i, 2, v);
  }

  lemma OfferOk(cfg: Config, a: Tid, i: nat, param: Param, k: Prog, v: View)
    requires ValidConfig(cfg) && i < cfg.n && v.row.inst == i + 1
    requires Inside(cfg, a, k, i, 1, AfterOffer(cfg, v, Set(param, VDown)))
    ensures Inside(cfg, a, Send(ToInst(i + 1), Set(param, VDown), k, k), i, 1, v)
  {
    hide Agrees, AfterOffer;
  }

  lemma DownsOk(cfg: Config, a: Tid, i: nat, k: Prog, v: View)
    requires ValidConfig(cfg) && i < cfg.n && v.row.inst == i + 1
    requires Inside(cfg, a, k, i, 1, v.(link := Some(VDown), ipcp := Some(VDown)))
    ensures Inside(cfg, a, Downs(i + 1, k), i, 1, v)
  {
    hide Agrees, Inside;
    var v1 := v.(link := Some(VDown));
    var v2 := v1.(ipcp := Some(VDown));
    var d := Send(ToInst(i + 1), Set(Ipv6cpStatus, VDown), k, k);
    OfferOk(cfg, a, i, Ipv6cpStatus, k, v2);
    var c := Send(ToInst(i + 1), Set(IpcpStatus, VDown), d, d);
    OfferOk(cfg, a, i, IpcpStatus, d, v1);
    OfferOk(cfg, a, i, LcpStatus, c, v);
  }

  lemma StopEndOk(cfg: Config, a: Tid, i: nat, k: Prog, v: View)
    requires ValidConfig(cfg) && i < cfg.n && v.row.inst == i + 1
    requires Inside(cfg, a, k, i, 1, View(v.row.(ip6Local := "", ip6Remote := ""), Some(VDown), Some(VDown), Some(NCleared(i))))
    ensures Inside(cfg, a, Upd(i, SetIp6Local(""), Upd(i, SetIp6Remote(""), Mark(NCleared(i), Unlock(i, Downs(i + 1, k))))), i, 2, v)
  {
    hide Agrees;
    var v1 := v.(row := v.row.(ip6Local := ""));
    var v2 := v1.(row := v1.row.(ip6Remote := ""));
    var v3 := v2.(note := Some(NCleared(i)));
    DownsOk(cfg, a, i, k, v3);
    hide Downs;
    var p := Mark(NCleared(i), Unlock(i, Downs(i + 1, k)));
    NoteOk(cfg, a, i, Downs(i + 1, k), v2);
    hide Inside;
    Before(cfg, a, SetIp6Remote(""), p, i, 2, v1);
    Before(cfg, a, SetIp6Local(""), Upd(i, SetIp6Remote(""), p), i, 2, v);
  }

  lemma NoteOk(cfg: Config, a: Tid, i: nat, k: Prog, v: View)
    requires ValidConfig(cfg) && i < cfg.n && v.row.inst == i + 1
    requires Inside(cfg, a, k, i, 1, v.(note := Some(NCleared(i))))
    ensures Inside(cfg, a, Mark(NCleared(i), Unlock(i, k)), i, 2, v)
  {
    hide Agrees;
    assert Inside(cfg, a, Unlock(i, k), i, 2, v.(note := Some(NCleared(i))));
  }

  lemma StopClearOk(cfg: Config, a: Tid, i: nat, k: Prog, v: View)
    requires ValidConfig(cfg) && i < cfg.n && v.row.inst == i + 1
    requires Inside(cfg, a, k, i, 1, View(ClearedRow(v.row), Some(VDown), Some(VDown), Some(NCleared(i))))
    ensures Inside(cfg, a, StopClear(i, k), i, 2, v)
  {
    hide Agrees, Inside, Downs;
    var v1 := v.(row := v.row.(status := Down));
    var v2 := v1.(row := v1.row.(conn := Unconfigured));
    var v3 := v2.(row := v2.row.(local := ZERO_ADDR));
    var v4 := v3.(row := v3.row.(remote := ZERO_ADDR));
    var v5 := v4.(row := v4.row.(dns0 := ZERO_ADDR, dns1 := ZERO_ADDR));
    assert v5.row.(ip6Local := "", ip6Remote := "") == ClearedRow(v.row);
    StopEndOk(cfg, a, i, k, v5);
    var p5 := Upd(i, SetIp6Local(""), Upd(i, SetIp6Remote(""), Mark(NCleared(i), Unlock(i, Downs(i + 1, k)))));
    var p4 := Upd(i, ClearDns, p5);
    Before(cfg, a, ClearDns, p5, i, 2, v4);
    var p3 := Upd(i, SetRemote(ZERO_ADDR), p4);
    Before(cfg, a, SetRemote(ZERO_ADDR), p4, i, 2, v3);
    var p2 := Upd(i, SetLocal(ZERO_ADDR), p3);
    Before(cfg, a, SetLocal(ZERO_ADDR), p3, i, 2, v2);
    var p1 := Upd(i, SetConn(Unconfigured), p2);
    Before(cfg, a, SetConn(Unconfigured), p2, i, 2, v1);
    Before(cfg, a, SetStatus(Down), p1, i, 2, v);
  }

  /** A stop followed by `k`, under the caller's lock. */
  lemma ClearedAgrees(cfg: Config, i: nat, v: View, r: Row)
    requires ValidConfig(cfg) && i < cfg.n && Agrees(cfg, i, v)
    requires r in {v.row.(enabled := false), v.row.(enabled := false, pid := 0)}
    ensures Agrees(cfg, i, View(ClearedRow(r), Some(VDown), Some(VDown), Some(NCleared(i))))
  {
  }

  lemma StopOk(cfg: Config, a: Tid, i: nat, k: Prog, bad: Prog, v: View)
    requires ValidConfig(cfg) && i < cfg.n && a.Api? && v.row.inst == i + 1
    requires forall w: View :: Agrees(cfg, i, w) ==> Inside(cfg, a, k, i, 1, w)
    requires Agrees(cfg, i, v)
    ensures Inside(cfg, a, Stop(cfg, i + 1, k, bad), i, 1, v)
  {
    StopBodyOk(cfg, a, i, k, v);
    hide Agrees, StopBody;
  }

  lemma StopBodyOk(cfg: Config, a: Tid, i: nat, k: Prog, v: View)
    requires ValidConfig(cfg) && i < cfg.n && a.Api? && v.row.inst == i + 1
    requires forall w: View :: Agrees(cfg, i, w) ==> Inside(cfg, a, k, i, 1, w)
    requires Agrees(cfg, i, v)
    ensures Inside(cfg, a, StopBody(cfg, i, k), i, 2, v)
  {
    hide Agrees, Inside, StopClear;
    var v1 := v.(row := v.row.(enabled := false));
    var v2 := v1.(row := v1.row.(pid := 0));
    ClearedAgrees(cfg, i, v, v1.row);
    ClearedAgrees(cfg, i, v, v2.row);
    StopClearOk(cfg, a, i, k, v1);
    StopClearOk(cfg, a, i, k, v2);
    Before(cfg, a, SetPid(0), StopClear(i, k), i, 2, v1);
    Before(cfg, a, SetEnabled(false), StopClear(i, k), i, 2, v);
    Before(cfg, a, SetEnabled(false), Upd(i, SetPid(0), StopClear(i, k)), i, 2, v);
  }

  lemma ApiLeaveOk(cfg: Config, a: Tid, i: nat, v: View)
    requires ValidConfig(cfg) && i < cfg.n && a.Api? && Agrees(cfg, i, v)
    ensures Inside(cfg, a, ApiLeave(i), i, 1, v)
  {
  }

  lemma CodeBodyOk(cfg: Config, t: Tid, i: nat, c: Code, v: View)
    requires ValidConfig(cfg) && i < cfg.n && CodeOk(cfg, t, i, c) && Agrees(cfg, i, v)
    requires c.CFound? ==> v.row.pid == c.m.pid
    ensures Inside(cfg, t, CodeBody(cfg, c, i + 1), i, 1, v)
  {
    match c
    case CFound(_, m) =>
    case CEnable(_, on) =>
      if on {
        SendStartOk(cfg, t, i, v);
      } else {
        forall w: View | Agrees(cfg, i, w)
          ensures Inside(cfg, t, ApiLeave(i), i, 1, w)
        {
          ApiLeaveOk(cfg, t, i, w);
        }
        StopOk(cfg, t, i, ApiLeave(i), ApiLeave(i), v);
      }
    case CReset(_) =>
      forall w: View | Agrees(cfg, i, w)
        ensures Inside(cfg, t, SendStart(i + 1, ApiLeave(i)), i, 1, w)
      {
        SendStartOk(cfg, t, i, w);
      }
      StopOk(cfg, t, i, SendStart(i + 1, ApiLeave(i)), ApiLeave(i), v);
  }

  lemma ApiOk(cfg: Config, a: Tid, op: ApiOp, v: View)
    requires ValidConfig(cfg) && op.i < cfg.n && a.Api? && Agrees(cfg, op.i, v)
    ensures Inside(cfg, a, ApiBody(op), op.i, 1, v)
  {
    ApiLeaveOk(cfg, a, op.i, v);
    match op
    case Enable(i, on) =>
    case Reset(i, on) =>
      if on {
        assert Inside(cfg, a, Jump(i, CReset(i)), i, 1, v);
      }
    case GetEntry(i) => ApiLeaveOk(cfg, a, i, v.(row := v.row.(inst := i + 1)));
    case Read(i) =>
  }

  /** Whatever a thread enters, it is in order once the lock is taken. */
  lemma BodyOk(cfg: Config, t: Tid, e: Entry, v: View)
    requires ValidConfig(cfg) && EntryOk(cfg, t, e) && 0 <= RowOf(e) < cfg.n
    requires Agrees(cfg, RowOf(e), v) && (NeedsMapped(Enter(e)).Some? ==> Mapped(cfg, RowOf(e), v.row))
    ensures Inside(cfg, t, Body(cfg, e), RowOf(e), 1, v)
  {
    var r := RowOf(e);
    match e
    case EScan(i, m) =>
      assert Inside(cfg, t, Unlock(i, ScanFrom(cfg, i + 1, m)), i, 1, v);
      if v.row.pid == m.pid {
        assert Inside(cfg, t, Jump(i, CFound(i, m)), i, 1, v);
      }
    case EState(_, m) => StateOk(cfg, r, m, v);
    case EIpcp(_, m) => IpcpOk(cfg, r, m.ipcp, v);
    case EIpv6cp(_, m) => Ipv6cpOk(cfg, r, m, v);
    case ESlot(ev) => assert Inside(cfg, t, Unlock(r, WanSet(ev, Done)), r, 1, v);
    case EStart(_, slot, pid) => StartOk(cfg, r, slot, pid, v);
    case EApi(op) => ApiOk(cfg, t, op, v);
  }
}
