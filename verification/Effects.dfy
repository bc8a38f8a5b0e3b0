/** What each critical section does, in fields and events: from taking an
    interface's lock to releasing it, in every interleaving and for every outcome of
    its sends. */
module Effects {
  import opened CText
  import opened Ipcp
  import opened Paths
  import opened Program
  import opened Machine
  import opened Invariant
  import opened Discipline
  import opened Sections
  import opened Outcomes
  import ResetOrder
  import VendorScan
  import WanLookup

  /** Thread t has just locked the row of e, and the run takes it to the release. */
  ghost predicate SectionRun(cfg: Config, s: State, ls: seq<Label>, t: Tid, e: Entry) {
    && Inv(cfg, s) && ValidTid(s, t) && 0 <= RowOf(e) < cfg.n
    && Th(s, t) == Thread(Body(cfg, e), Holds(RowOf(e), 1))
    && CanRun(cfg, s, ls) && Holding(cfg, s, ls, t)
    && ValidTid(After(cfg, s, ls), t) && Th(After(cfg, s, ls), t).hold == NoHold
  }

  /** The row changed from r to r', and exactly these items were recorded under the
      lock. */
  ghost predicate Did(s: State, s': State, i: nat, r': Row, items: seq<Item>) {
    i < |s'.rows| && s'.rows[i] == r' && Under(s'.log, i) == Under(s.log, i) + items
  }

  lemma SectionDid(cfg: Config, s: State, ls: seq<Label>, t: Tid, e: Entry, o: Outcome)
    requires SectionRun(cfg, s, ls, t, e)
    requires RowOf(e) < |s.rows| ==>
               o == Play(cfg, t, Body(cfg, e), RowOf(e), 1, s.rows[RowOf(e)], Answers(cfg, s, ls, t), true)
    ensures |s.rows| == cfg.n && Did(s, After(cfg, s, ls), RowOf(e), o.row, o.items)
    ensures Th(After(cfg, s, ls), t).prog == o.next
  {
    hide Inv, Body, Play, Under, Holding, Answers, CanRun, After;
    RowCount(cfg, s);
    ResetOrder.Atomic(cfg, s, ls, t, e);
  }

  lemma RowCount(cfg: Config, s: State)
    requires Inv(cfg, s)
    ensures |s.rows| == cfg.n
  {
    hide RowOk, ThreadOk;
  }

  // ------------------------------------------------------------- switching off and on

  /** Stopping, in fields and events. */
  lemma StopMeans(cfg: Config, a: Tid, i: nat, r: Row, cs: seq<Choice>)
    ensures StoppedRow(cfg, r) ==
            r.(enabled := false, pid := if cfg.daemon then 0 else r.pid, status := Down, conn := Unconfigured,
               local := [0, 0, 0, 0], remote := [0, 0, 0, 0], dns0 := [0, 0, 0, 0], dns1 := [0, 0, 0, 0],
               ip6Local := "", ip6Remote := "")
    ensures StopItems(a, i, cs) ==
            [Noted(NCleared(i)),
             Offered(a, BusSet(i + 1, LcpStatus, VDown), true, Head(cs).b),
             Offered(a, BusSet(i + 1, IpcpStatus, VDown), true, Head(Tail(cs)).b),
             Offered(a, BusSet(i + 1, Ipv6cpStatus, VDown), true, Head(Tail(Tail(cs))).b)]
  {
  }

  /** Switching an interface off, whatever becomes of each send: exactly the clear and
      the three Downs, in this order; the row is disabled, down, unconfigured, without
      addresses and identifiers, in the daemon build without a client, and otherwise
      as it was. */
  lemma Disabled(cfg: Config, s: State, ls: seq<Label>, k: nat, i: nat) returns (b1: bool, b2: bool, b3: bool)
    requires SectionRun(cfg, s, ls, Api(k), EApi(Enable(i, false)))
    ensures i < |s.rows| && Th(After(cfg, s, ls), Api(k)).prog == Done
    ensures Did(s, After(cfg, s, ls), i,
                s.rows[i].(enabled := false, pid := if cfg.daemon then 0 else s.rows[i].pid, status := Down, conn := Unconfigured,
                           local := [0, 0, 0, 0], remote := [0, 0, 0, 0], dns0 := [0, 0, 0, 0], dns1 := [0, 0, 0, 0],
                           ip6Local := "", ip6Remote := ""),
                [Noted(NCleared(i)),
                 Offered(Api(k), BusSet(i + 1, LcpStatus, VDown), true, b1),
                 Offered(Api(k), BusSet(i + 1, IpcpStatus, VDown), true, b2),
                 Offered(Api(k), BusSet(i + 1, Ipv6cpStatus, VDown), true, b3)])
  {
    hide Inv, Holding, Answers, CanRun, After, Play, Did, StoppedRow, StopItems, ApiBody;
    RowCount(cfg, s);
    var op, cs := Enable(i, false), Answers(cfg, s, ls, Api(k));
    PlayApi(cfg, Api(k), op, s.rows[i], cs);
    SectionDid(cfg, s, ls, Api(k), EApi(op), ApiOutcome(cfg, Api(k), op, s.rows[i], cs));
    StopMeans(cfg, Api(k), i, s.rows[i], cs);
    b1, b2, b3 := Head(cs).b, Head(Tail(cs)).b, Head(Tail(Tail(cs))).b;
  }

  /** Switching it on: exactly one start event is offered, and the row is enabled if
      it was accepted, and otherwise as it was. */
  lemma StartAsked(cfg: Config, s: State, ls: seq<Label>, k: nat, i: nat) returns (took: bool)
    requires SectionRun(cfg, s, ls, Api(k), EApi(Enable(i, true)))
    ensures i < |s.rows| && Th(After(cfg, s, ls), Api(k)).prog == Done
    ensures Did(s, After(cfg, s, ls), i, if took then s.rows[i].(enabled := true) else s.rows[i],
                [Offered(Api(k), Exec(i + 1), true, took)])
  {
    hide Inv, Holding, Answers, CanRun, After, Play, Did, ApiBody;
    RowCount(cfg, s);
    var op, cs := Enable(i, true), Answers(cfg, s, ls, Api(k));
    PlayApi(cfg, Api(k), op, s.rows[i], cs);
    SectionDid(cfg, s, ls, Api(k), EApi(op), ApiOutcome(cfg, Api(k), op, s.rows[i], cs));
    took := Head(cs).b;
    assert s.rows[i].(enabled := took || s.rows[i].enabled) == if took then s.rows[i].(enabled := true) else s.rows[i];
  }

  /** A reset, whatever becomes of each send: refused without a trace unless the row
      is enabled and a reset is asked for; otherwise what switching off does, then
      one start event, and the row is enabled again exactly if that was accepted. */
  lemma WasReset(cfg: Config, s: State, ls: seq<Label>, k: nat, i: nat, on: bool)
      returns (b1: bool, b2: bool, b3: bool, took: bool)
    requires SectionRun(cfg, s, ls, Api(k), EApi(Reset(i, on)))
    ensures i < |s.rows| && Th(After(cfg, s, ls), Api(k)).prog == Done
    ensures !on || !s.rows[i].enabled ==> Did(s, After(cfg, s, ls), i, s.rows[i], [])
    ensures on && s.rows[i].enabled ==>
              Did(s, After(cfg, s, ls), i,
                  s.rows[i].(enabled := took, pid := if cfg.daemon then 0 else s.rows[i].pid, status := Down, conn := Unconfigured,
                             local := [0, 0, 0, 0], remote := [0, 0, 0, 0], dns0 := [0, 0, 0, 0], dns1 := [0, 0, 0, 0],
                             ip6Local := "", ip6Remote := ""),
                  [Noted(NCleared(i)),
                   Offered(Api(k), BusSet(i + 1, LcpStatus, VDown), true, b1),
                   Offered(Api(k), BusSet(i + 1, IpcpStatus, VDown), true, b2),
                   Offered(Api(k), BusSet(i + 1, Ipv6cpStatus, VDown), true, b3),
                   Offered(Api(k), Exec(i + 1), true, took)])
  {
    hide Inv, Holding, Answers, CanRun, After, Play, Did, StoppedRow, StopItems, ApiBody;
    RowCount(cfg, s);
    var op, cs := Reset(i, on), Answers(cfg, s, ls, Api(k));
    PlayApi(cfg, Api(k), op, s.rows[i], cs);
    SectionDid(cfg, s, ls, Api(k), EApi(op), ApiOutcome(cfg, Api(k), op, s.rows[i], cs));
    StopMeans(cfg, Api(k), i, s.rows[i], cs);
    b1, b2, b3, took := Head(cs).b, Head(Tail(cs)).b, Head(Tail(Tail(cs))).b, Head(StopRest(cs)).b;
    assert on && s.rows[i].enabled ==>
        ApiOutcome(cfg, Api(k), op, s.rows[i], cs).items
        == [Noted(NCleared(i)), Offered(Api(k), BusSet(i + 1, LcpStatus, VDown), true, b1),
            Offered(Api(k), BusSet(i + 1, IpcpStatus, VDown), true, b2),
            Offered(Api(k), BusSet(i + 1, Ipv6cpStatus, VDown), true, b3), Offered(Api(k), Exec(i + 1), true, took)];
  }

  /** Renumbering and reading leave no trace. */
  lemma OnlyLooked(cfg: Config, s: State, ls: seq<Label>, k: nat, op: ApiOp)
    requires SectionRun(cfg, s, ls, Api(k), EApi(op)) && (op.GetEntry? || op.Read?)
    ensures op.i < |s.rows| && Did(s, After(cfg, s, ls), op.i, s.rows[op.i], [])
  {
    hide Holding, Answers, CanRun, After, Play, Did, ApiBody, ThreadOk;
    RowCount(cfg, s);
    assert RowOk(cfg, s, op.i);
    var cs := Answers(cfg, s, ls, Api(k));
    PlayApi(cfg, Api(k), op, s.rows[op.i], cs);
    SectionDid(cfg, s, ls, Api(k), EApi(op), ApiOutcome(cfg, Api(k), op, s.rows[op.i], cs));
  }

  // ------------------------------------------------------------- link state

  /** What a reported state leaves in the row. */
  lemma StateMeans(r: Row, m: Msg)
    ensures StateRow(r, m) ==
            r.(status := match m.state
                         case IfUp => Up
                         case IfUnconfigured => Error
                         case LcpAuthCompleted => r.status
                         case _ => Down,
               conn := match m.state
                       case IfUnconfigured => Unconfigured
                       case IfConnecting => Connecting
                       case IfAuthenticating => Authenticating
                       case IfUp => Connected
                       case IfDisconnecting => Disconnecting
                       case AuthFailed => AuthenticationFailed
                       case LcpAuthCompleted => r.conn
                       case _ => Disconnected,
               lastError := match m.state
                            case IfUp => ErrorNone
                            case IfDisconnected => ErrorOf(m.exitStatus)
                            case IfDown => ErrorOf(m.exitStatus)
                            case _ => r.lastError,
               sru := if m.state in {IfDisconnected, IfDown} then 0
                      else if m.state == LcpAuthCompleted then VendorScan.VendorRates(m.vendor).sru else r.sru,
               srd := if m.state in {IfDisconnected, IfDown} then 0
                      else if m.state == LcpAuthCompleted then VendorScan.VendorRates(m.vendor).srd else r.srd,
               auth := if m.state != LcpAuthCompleted || m.authProto == "" then r.auth
                       else if m.authProto == "PAP" then Pap else Chap)
  {
    hide VendorScan.VendorRates, ErrorOf;
  }

  /** The reasons a client gives for its exit: 5 is a user's request, 11 and 19 a
      failed authentication of either side, 16 a hang-up. */
  lemma ErrorMeans(exitStatus: int)
    ensures ErrorOf(exitStatus) == UserDisconnect <==> exitStatus == 5
    ensures ErrorOf(exitStatus) == AuthenticationFailure <==> exitStatus == 11 || exitStatus == 19
    ensures ErrorOf(exitStatus) == IspTimeOut <==> exitStatus == 16
    ensures ErrorOf(exitStatus) == ErrorUnknown <==> exitStatus !in {5, 11, 16, 19}
  {
  }

  /** A reported state, in its handler: Up is announced for IfUp and for nothing else;
      nothing is announced on the way up, on the way down and with the completed
      authentication; every other state is announced Down. Two parameters are offered,
      the second only behind an accepted first. The row ends as StateMeans says. */
  lemma StateTold(cfg: Config, s: State, ls: seq<Label>, inst: int, m: Msg) returns (b1: bool, b2: bool)
    requires SectionRun(cfg, s, ls, Ev, EState(inst, m))
    ensures 1 <= inst <= |s.rows| && After(cfg, s, ls).ev.prog == Receive
    ensures Did(s, After(cfg, s, ls), inst - 1, StateRow(s.rows[inst - 1], m),
                if m.state in {IfConnecting, IfAuthenticating, IfDisconnecting, LcpAuthCompleted} then []
                else
                  [Offered(Ev, BusSet(inst, LcpStatus, if m.state == IfUp then VUp else VDown), true, b1)]
                  + (if b1 then [Offered(Ev, BusSet(inst, LinkStatus, if m.state == IfUp then VUp else VDown), true, b2)] else []))
  {
    hide Inv, Holding, Answers, CanRun, After, Play, Did, StateBody, StateRow;
    RowCount(cfg, s);
    var i, cs := inst - 1, Answers(cfg, s, ls, Ev);
    PlayState(cfg, i, m, s.rows[i], cs, true);
    SectionDid(cfg, s, ls, Ev, EState(inst, m), StateOutcome(i, m, s.rows[i], cs));
    b1, b2 := Head(cs).b, Head(Tail(cs)).b;
  }

  // ------------------------------------------------------------- IPCP and IPv6CP

  /** An IPCP message in its handler, accepted or not: the fields it leaves. What it
      offers is ResetOrder.OneVerdict. */
  lemma AddressesLeft(cfg: Config, s: State, ls: seq<Label>, inst: int, m: Msg)
    requires SectionRun(cfg, s, ls, Ev, EIpcp(inst, m)) && m.ipcp.ip != "" && m.ipcp.gateway != "" && m.ipcp.nameserver != ""
    ensures 1 <= inst <= |s.rows| == |After(cfg, s, ls).rows|
    ensures var x, r, r' := m.ipcp, s.rows[inst - 1], After(cfg, s, ls).rows[inst - 1];
            && r' == r.(local := r'.local, remote := r'.remote, dns0 := r'.dns0, dns1 := r'.dns1)
            && r'.local == ParseIp4(x.ip)
            && r'.remote == (if AtMostFourParts(x.ip) then ParseIp4(x.gateway) else [0, 0, 0, 0])
            && (Acceptable(x) ==> r'.Addresses() == Parse(x))
            && (!Acceptable(x) ==> r'.dns0 == [0, 0, 0, 0] && r'.dns1 == [0, 0, 0, 0])
  {
    hide Inv, Holding, Answers, CanRun, After, Play, Under, IpcpBody, IpcpItems, Acceptable, ParseIp4, ParseDns, AtMostFourParts;
    RowCount(cfg, s);
    var i, cs, s' := inst - 1, Answers(cfg, s, ls, Ev), After(cfg, s, ls);
    PlayIpcp(cfg, i, m.ipcp, s.rows[i], cs, true);
    ResetOrder.Atomic(cfg, s, ls, Ev, EIpcp(inst, m));
    if Acceptable(m.ipcp) {
      ResetOrder.AcceptedRow(s.rows[i], m.ipcp);
    }
  }

  /** At most 45 characters of an identifier are kept. */
  lemma ClipMeans(t: string)
    ensures ClipIfId(t) <= t && |ClipIfId(t)| == if |t| <= 45 then |t| else 45
  {
  }

  /** An IPv6CP message in its handler: exactly one IPv6CP verdict is offered, Up if
      and only if it reports completion; then the identifiers it gives are stored, up
      to 45 characters, and one it does not give is kept; nothing else changes. */
  lemma Ipv6cpTold(cfg: Config, s: State, ls: seq<Label>, inst: int, m: Msg) returns (took: bool)
    requires SectionRun(cfg, s, ls, Ev, EIpv6cp(inst, m))
    ensures 1 <= inst <= |s.rows| && After(cfg, s, ls).ev.prog == Receive
    ensures var r := s.rows[inst - 1];
            Did(s, After(cfg, s, ls), inst - 1,
                if m.state != Ipv6cpCompleted then r
                else r.(ip6Local := if m.local6 == "" then r.ip6Local else if |m.local6| <= 45 then m.local6 else m.local6[..45],
                        ip6Remote := if m.remote6 == "" then r.ip6Remote else if |m.remote6| <= 45 then m.remote6 else m.remote6[..45]),
                [Offered(Ev, BusSet(inst, Ipv6cpStatus, if m.state == Ipv6cpCompleted then VUp else VDown), true, took)])
  {
    hide Inv, Holding, Answers, CanRun, After, Play, Did, Ipv6cpBody;
    RowCount(cfg, s);
    var i, cs := inst - 1, Answers(cfg, s, ls, Ev);
    PlayIpv6cp(cfg, i, m, s.rows[i], cs, true);
    SectionDid(cfg, s, ls, Ev, EIpv6cp(inst, m), Ipv6cpOutcome(i, m, s.rows[i], cs));
    took := Head(cs).b;
  }

  // ------------------------------------------------------------- launching

  /** What the launch is told from outside, in order: whether the old client lives,
      whether there are credentials, whether the lower layer's name is known. */
  lemma LaunchMeans(slot: WanLookup.Outcome, pid: nat, r: Row, cs: seq<Choice>)
    requires slot.Found?
    ensures var lives, credentials, lower := Head(cs).b && r.pid != 0, Head(Tail(cs)).b, Head(Tail(Tail(cs))).b;
            var o := StartOutcome(slot, pid, r, cs);
            && o.items == [] && o.next == Done
            && o.row == (if lives then r
                         else if r.auth != NoAuth && credentials && lower then r.(pid := pid, wan := slot.iface, virt := slot.virt)
                         else r.(pid := 0))
  {
  }

  /** The launch section: a new client and its slot are stored if and only if the old
      client is gone, an authentication protocol is configured, and both answers are
      good; a living client is left alone; a refused launch leaves no client and the
      slot as it was. Nothing is offered. */
  lemma Launched(cfg: Config, s: State, ls: seq<Label>, inst: int, slot: WanLookup.Outcome, pid: nat)
      returns (lives: bool, credentials: bool, lower: bool)
    requires SectionRun(cfg, s, ls, Ev, EStart(inst, slot, pid)) && slot.Found?
    ensures 1 <= inst <= |s.rows| && After(cfg, s, ls).ev.prog == Done
    ensures var cs := Answers(cfg, s, ls, Ev);
            lives == (Head(cs).b && s.rows[inst - 1].pid != 0) && credentials == Head(Tail(cs)).b && lower == Head(Tail(Tail(cs))).b
    ensures var r := s.rows[inst - 1];
            Did(s, After(cfg, s, ls), inst - 1,
                if lives then r
                else if r.auth != NoAuth && credentials && lower then r.(pid := pid, wan := slot.iface, virt := slot.virt)
                else r.(pid := 0), [])
  {
    hide Inv, Holding, Answers, CanRun, After, Play, Did, StartBody, StartOutcome;
    RowCount(cfg, s);
    var i, cs := inst - 1, Answers(cfg, s, ls, Ev);
    PlayStart(cfg, i, slot, pid, s.rows[i], cs, true);
    SectionDid(cfg, s, ls, Ev, EStart(inst, slot, pid), StartOutcome(slot, pid, s.rows[i], cs));
    LaunchMeans(slot, pid, s.rows[i], cs);
    lives, credentials, lower := Head(cs).b && s.rows[i].pid != 0, Head(Tail(cs)).b, Head(Tail(Tail(cs))).b;
  }
}
