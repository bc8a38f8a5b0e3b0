/** From a message to the next receive, in every interleaving: the event thread
    touches only the lowest row that carries the message's pid when it is tested,
    offers exactly what the message asks for, with the row's lock or without, and
    the row shows what it offers. */
module Routing {
  import opened CText
  import opened Ipcp
  import opened Paths
  import opened Program
  import opened Machine
  import opened Invariant
  import opened Discipline
  import opened Bounds
  import opened History
  import opened Sections
  import opened Outcomes
  import Alone
  import Handlers
  import Progress
  import Safety
  import Tokens
  import VendorScan

  // ------------------------------------------------------------- what handlers may do

  function IpcpVerdict(m: IpcpMsg): Verdict {
    if Acceptable(m) then VUp else VDown
  }

  /** What is still to be offered: nothing, one parameter, or the link state, which
      takes a second parameter behind an accepted first. */
  datatype Due = Nothing | One(param: Param, v: Verdict) | Links(v: Verdict) | SecondLink(v: Verdict)

  /** What a routed message asks for. */
  function DueOf(m: Msg): Due {
    match m.state
    case IpcpCompleted => One(IpcpStatus, IpcpVerdict(m.ipcp))
    case IpcpFailed => One(IpcpStatus, VDown)
    case Ipv6cpCompleted => One(Ipv6cpStatus, VUp)
    case Ipv6cpFailed => One(Ipv6cpStatus, VDown)
    case IfUp => Links(VUp)
    case OtherState => Nothing
    case IfConnecting => Nothing
    case IfAuthenticating => Nothing
    case IfDisconnecting => Nothing
    case LcpAuthCompleted => Nothing
    case _ => Links(VDown)
  }

  predicate ForLink(m: Msg) {
    m.state !in {IpcpCompleted, IpcpFailed, Ipv6cpCompleted, Ipv6cpFailed, OtherState}
  }

  /** The event is the one that is due. */
  predicate Pays(o: Due, param: Param, v: Verdict) {
    match o
    case Nothing => false
    case One(q, x) => param == q && v == x
    case Links(x) => param == LcpStatus && v == x
    case SecondLink(x) => param == LinkStatus && v == x
  }

  function AfterPaid(o: Due, took: bool): Due {
    if o.Links? && took then SecondLink(o.v) else Nothing
  }

  /** What the row shows when an event about it is offered. */
  predicate Shown(m: Msg, r: Row, param: Param, v: Verdict) {
    if param in {LcpStatus, LinkStatus} then
      if v == VUp then r.status == Up && r.conn == Connected
      else r.status != Up && r.conn in {Unconfigured, Disconnected, AuthenticationFailed}
    else if v == VDown then true
    else if param == IpcpStatus then r.Addresses() == Parse(m.ipcp)
    else
      && (m.local6 != "" ==> r.ip6Local == if |m.local6| <= 45 then m.local6 else m.local6[..45])
      && (m.remote6 != "" ==> r.ip6Remote == if |m.remote6| <= 45 then m.remote6 else m.remote6[..45])
  }

  /** On every path p, started on row r at k, writes only that row, leaves its pid
      alone, and offers exactly what is due, about the row's interface, at moments
      when the row shows it. */
  predicate Handles(p: Prog, k: nat, m: Msg, o: Due, r: Row) {
    match p
    case Receive => o == Nothing
    case Enter(EState(inst, x)) => inst == k + 1 && x == m && ForLink(m) && o == DueOf(m)
    case Enter(EIpcp(inst, x)) => inst == k + 1 && x == m && AllPresent(m.ipcp) && o == One(IpcpStatus, IpcpVerdict(m.ipcp))
    case Enter(EIpv6cp(inst, x)) => inst == k + 1 && x == m && m.state in {Ipv6cpCompleted, Ipv6cpFailed} && o == DueOf(m)
    case Jump(i, CFound(j, x)) => i == j == k && x == m && o == DueOf(m)
    case Unlock(i, q) => i == k && Handles(q, k, m, o, r)
    case Upd(i, u, q) => i == k && !u.SetPid? && Handles(q, k, m, o, Apply(r, u))
    case Mark(note, q) => note.i == k && Handles(q, k, m, o, r)
    case Send(to, Set(param, v), ok, fail) =>
      && (to == ToInst(k + 1) || to == ToRow(k))
      && Pays(o, param, v) && Shown(m, r, param, v)
      && Handles(ok, k, m, AfterPaid(o, true), r) && Handles(fail, k, m, AfterPaid(o, false), r)
    case _ => false
  }

  lemma HandlesLeave(k: nat, m: Msg, r: Row)
    ensures Handles(Leave(k), k, m, Nothing, r)
  {
  }

  lemma HandlesSend(k: nat, m: Msg, param: Param, v: Verdict, o: Due, r: Row)
    requires Pays(o, param, v) && !o.Links? && Shown(m, r, param, v)
    ensures Handles(Send(ToRow(k), Set(param, v), Leave(k), Leave(k)), k, m, o, r)
  {
    hide Leave, Shown;
    HandlesLeave(k, m, r);
  }

  lemma HandlesNotify(k: nat, m: Msg, v: Verdict, r: Row)
    requires Shown(m, r, LcpStatus, v)
    ensures Handles(Notify(k, v), k, m, Links(v), r)
  {
    hide Leave;
    HandlesLeave(k, m, r);
    HandlesSend(k, m, LinkStatus, v, SecondLink(v), r);
  }

  lemma HandlesUpd(k: nat, m: Msg, u: Update, q: Prog, o: Due, r: Row)
    requires !u.SetPid? && Handles(q, k, m, o, Apply(r, u))
    ensures Handles(Upd(k, u, q), k, m, o, r)
  {
  }

  lemma HandlesSetState(k: nat, m: Msg, s: Status, c: Conn, q: Prog, o: Due, r: Row)
    requires Handles(q, k, m, o, r.(status := s, conn := c))
    ensures Handles(SetState(k, s, c, q), k, m, o, r)
  {
    hide Handles;
    HandlesUpd(k, m, SetConn(c), q, o, r.(status := s));
    HandlesUpd(k, m, SetStatus(s), Upd(k, SetConn(c), q), o, r);
  }

  /** A silent change of state, and an announced one. */
  lemma HandlesQuiet(k: nat, m: Msg, c: Conn, r: Row)
    ensures Handles(SetState(k, Down, c, Leave(k)), k, m, Nothing, r)
  {
    hide Handles, Leave, SetState;
    HandlesLeave(k, m, r.(status := Down, conn := c));
    HandlesSetState(k, m, Down, c, Leave(k), Nothing, r);
  }

  lemma HandlesLower(k: nat, m: Msg, s: Status, c: Conn, r: Row)
    requires s != Up && c in {Unconfigured, Disconnected, AuthenticationFailed}
    ensures Handles(SetState(k, s, c, Notify(k, VDown)), k, m, Links(VDown), r)
  {
    hide Handles, Notify, SetState;
    HandlesNotify(k, m, VDown, r.(status := s, conn := c));
    HandlesSetState(k, m, s, c, Notify(k, VDown), Links(VDown), r);
  }

  lemma HandlesState(k: nat, m: Msg, r: Row)
    requires ForLink(m)
    ensures Handles(StateBody(k, m), k, m, DueOf(m), r)
  {
    hide Handles, Leave, Notify, SetState, RatesBody, DownBody;
    match m.state
    case IfUnconfigured => HandlesLower(k, m, Error, Unconfigured, r);
    case IfConnecting => HandlesQuiet(k, m, Connecting, r);
    case IfAuthenticating => HandlesQuiet(k, m, Authenticating, r);
    case IfUp => HandlesRaise(k, m, r);
    case IfDisconnecting => HandlesQuiet(k, m, Disconnecting, r);
    case IfDisconnected => HandlesLost(k, m, r);
    case IfDown => HandlesLost(k, m, r);
    case LcpAuthCompleted => HandlesRates(k, m, r);
    case AuthFailed => HandlesLower(k, m, Down, AuthenticationFailed, r);
    case _ => HandlesLower(k, m, Down, Disconnected, r);
  }

  lemma HandlesRaise(k: nat, m: Msg, r: Row)
    ensures Handles(SetState(k, Up, Connected, Upd(k, SetError(ErrorNone), Notify(k, VUp))), k, m, Links(VUp), r)
  {
    hide Handles, Notify, SetState;
    var r1 := r.(status := Up, conn := Connected);
    HandlesNotify(k, m, VUp, r1.(lastError := ErrorNone));
    HandlesUpd(k, m, SetError(ErrorNone), Notify(k, VUp), Links(VUp), r1);
    HandlesSetState(k, m, Up, Connected, Upd(k, SetError(ErrorNone), Notify(k, VUp)), Links(VUp), r);
  }

  lemma HandlesLost(k: nat, m: Msg, r: Row)
    ensures Handles(DownBody(k, m), k, m, Links(VDown), r)
  {
    hide Handles, Notify, SetState, ErrorOf;
    var e := ErrorOf(m.exitStatus);
    var r1 := r.(sru := 0, srd := 0);
    var r2 := r1.(status := Down, conn := Disconnected);
    HandlesNotify(k, m, VDown, r2.(lastError := e));
    var p := Upd(k, SetError(e), Notify(k, VDown));
    HandlesUpd(k, m, SetError(e), Notify(k, VDown), Links(VDown), r2);
    var q := SetState(k, Down, Disconnected, p);
    HandlesSetState(k, m, Down, Disconnected, p, Links(VDown), r1);
    HandlesUpd(k, m, SetSrd(0), q, Links(VDown), r.(sru := 0));
    HandlesUpd(k, m, SetSru(0), Upd(k, SetSrd(0), q), Links(VDown), r);
  }

  lemma HandlesAuth(k: nat, m: Msg, r: Row)
    ensures Handles(AuthBody(k, m), k, m, Nothing, r)
  {
    hide Handles, Leave;
    var u := SetAuth(if m.authProto == "PAP" then Pap else Chap);
    HandlesLeave(k, m, r);
    HandlesLeave(k, m, Apply(r, u));
    HandlesUpd(k, m, u, Leave(k), Nothing, r);
  }

  lemma HandlesRates(k: nat, m: Msg, r: Row)
    ensures Handles(Upd(k, SetSru(0), Upd(k, SetSrd(0), RatesBody(k, m))), k, m, Nothing, r)
  {
    hide Handles, AuthBody, VendorScan.VendorRates;
    var a, x := AuthBody(k, m), VendorScan.VendorRates(m.vendor);
    var r1 := r.(sru := 0, srd := 0);
    HandlesAuth(k, m, r1);
    HandlesAuth(k, m, r1.(sru := x.sru, srd := x.srd));
    HandlesUpd(k, m, SetSrd(x.srd), a, Nothing, r1.(sru := x.sru));
    HandlesUpd(k, m, SetSru(x.sru), Upd(k, SetSrd(x.srd), a), Nothing, r1);
    HandlesUpd(k, m, SetSrd(0), RatesBody(k, m), Nothing, r.(sru := 0));
    HandlesUpd(k, m, SetSru(0), Upd(k, SetSrd(0), RatesBody(k, m)), Nothing, r);
  }

  lemma HandlesIpcpUp(k: nat, m: Msg, r: Row)
    requires r.Addresses() == Parse(m.ipcp)
    ensures Handles(IpcpUp(k, m.ipcp), k, m, One(IpcpStatus, VUp), r)
  {
    hide Leave, Parse;
    HandlesSend(k, m, IpcpStatus, VUp, One(IpcpStatus, VUp), r);
  }

  lemma HandlesReject(k: nat, m: Msg, r: Row)
    ensures Handles(Reject(k), k, m, One(IpcpStatus, VDown), r)
  {
    hide Leave;
    HandlesSend(k, m, IpcpStatus, VDown, One(IpcpStatus, VDown), r);
  }

  lemma HandlesDns(k: nat, m: Msg, r: Row)
    requires r.Addresses() == Parse(m.ipcp).(dns0 := ZERO_ADDR, dns1 := ZERO_ADDR)
    ensures Handles(IpcpDns(k, m.ipcp), k, m, One(IpcpStatus, VUp), r)
  {
    Handlers.ParsedDns(m.ipcp);
    hide Handles, IpcpUp, ParseDns, Parse, Tokens.Toks;
    var x, o := m.ipcp, One(IpcpStatus, VUp);
    var d0, d1 := ParseDns(x.nameserver, 0), ParseDns(x.nameserver, 1);
    var r1 := r.(dns0 := d0);
    assert r1.(dns1 := d1).Addresses() == Parse(x);
    if |Tokens.Toks(x.nameserver, ',')| > 1 {
      HandlesIpcpUp(k, m, r1.(dns1 := d1));
      HandlesUpd(k, m, SetDns1(d1), IpcpUp(k, x), o, r1);
      HandlesUpd(k, m, SetDns0(d0), Upd(k, SetDns1(d1), IpcpUp(k, x)), o, r);
    } else {
      assert r1 == r1.(dns1 := d1);
      HandlesIpcpUp(k, m, r1);
      HandlesUpd(k, m, SetDns0(d0), IpcpUp(k, x), o, r);
    }
  }

  lemma HandlesRemote(k: nat, m: Msg, r: Row)
    requires AllPresent(m.ipcp) && AtMostFourParts(m.ipcp.ip)
    requires r.Addresses() == IpcpData(ParseIp4(m.ipcp.ip), ZERO_ADDR, ZERO_ADDR, ZERO_ADDR)
    ensures Handles(IpcpRemote(k, m.ipcp), k, m, One(IpcpStatus, IpcpVerdict(m.ipcp)), r)
  {
    hide Handles, IpcpDns, Reject, ParseIp4, ParseDns, AtMostFourParts, Tokens.Toks;
    var x, g := m.ipcp, ParseIp4(m.ipcp.gateway);
    var r1 := r.(remote := g);
    if AtMostFourParts(x.gateway) && Tokens.Toks(x.nameserver, ',') != [] {
      HandlesDns(k, m, r1);
      HandlesUpd(k, m, SetRemote(g), IpcpDns(k, x), One(IpcpStatus, VUp), r);
    } else {
      HandlesReject(k, m, r1);
      HandlesUpd(k, m, SetRemote(g), Reject(k), One(IpcpStatus, VDown), r);
    }
  }

  lemma HandlesIpcp(k: nat, m: Msg, r: Row)
    requires AllPresent(m.ipcp)
    ensures Handles(IpcpBody(k, m.ipcp), k, m, One(IpcpStatus, IpcpVerdict(m.ipcp)), r)
  {
    hide Handles, IpcpRemote, Reject, ParseIp4, ParseDns, AtMostFourParts, Tokens.Toks;
    var x, o := m.ipcp, One(IpcpStatus, IpcpVerdict(m.ipcp));
    var l := SetLocal(ParseIp4(x.ip));
    var r1 := r.(local := ZERO_ADDR);
    var r2 := r1.(remote := ZERO_ADDR);
    var r3 := r2.(dns0 := ZERO_ADDR, dns1 := ZERO_ADDR);
    var r4 := Apply(r3, l);
    if AtMostFourParts(x.ip) {
      HandlesRemote(k, m, r4);
    } else {
      HandlesReject(k, m, r4);
    }
    var q := if AtMostFourParts(x.ip) then IpcpRemote(k, x) else Reject(k);
    HandlesUpd(k, m, l, q, o, r3);
    HandlesUpd(k, m, ClearDns, Upd(k, l, q), o, r2);
    HandlesUpd(k, m, SetRemote(ZERO_ADDR), Upd(k, ClearDns, Upd(k, l, q)), o, r1);
    HandlesUpd(k, m, SetLocal(ZERO_ADDR), Upd(k, SetRemote(ZERO_ADDR), Upd(k, ClearDns, Upd(k, l, q))), o, r);
  }

  lemma HandlesIpv6cp(k: nat, m: Msg, r: Row)
    requires m.state in {Ipv6cpCompleted, Ipv6cpFailed}
    ensures Handles(Ipv6cpBody(k, m), k, m, DueOf(m), r)
  {
    hide Handles, Leave;
    if m.state == Ipv6cpCompleted {
      var r1 := if m.local6 == "" then r else r.(ip6Local := ClipIfId(m.local6));
      var r2 := if m.remote6 == "" then r1 else r1.(ip6Remote := ClipIfId(m.remote6));
      HandlesSend(k, m, Ipv6cpStatus, VUp, One(Ipv6cpStatus, VUp), r2);
      if m.remote6 != "" {
        HandlesUpd(k, m, SetIp6Remote(ClipIfId(m.remote6)), Ipv6cpUp(k), One(Ipv6cpStatus, VUp), r1);
      }
      if m.local6 != "" {
        HandlesUpd(k, m, SetIp6Local(ClipIfId(m.local6)), Ipv6cpRemote(k, m), One(Ipv6cpStatus, VUp), r);
      }
    } else {
      HandlesSend(k, m, Ipv6cpStatus, VDown, One(Ipv6cpStatus, VDown), r);
    }
  }

  /** Routing owes what the message asks for, whichever way it is sent. */
  lemma HandlesDispatch(k: nat, m: Msg, r: Row)
    ensures Handles(Dispatch(k + 1, m), k, m, DueOf(m), r)
  {
    hide AtMostFourParts, Tokens.Toks, Parse;
  }

  /** Without the lock it does not matter what the row holds. */
  lemma HandlesUnlocked(cfg: Config, p: Prog, k: nat, m: Msg, o: Due, r: Row, r': Row)
    requires Outside(cfg, Ev, p) && Handles(p, k, m, o, r)
    ensures Handles(p, k, m, o, r')
  {
    hide Parse;
  }

  // ------------------------------------------------------------- stages

  predicate NoneBelow(rows: seq<Row>, pid: int, k: nat) {
    forall j :: 0 <= j < k && j < |rows| ==> rows[j].pid != pid
  }

  /** Where the event thread is with a message: looking for its row, or handling it
      for row k with o still to be offered; or with none. */
  datatype Stage =
    | Away
    | Scan(i: nat, m: Msg)
    | Handle(k: nat, m: Msg, o: Due)

  ghost predicate StageOk(cfg: Config, s: State, st: Stage) {
    match st
    case Away => s.ev.prog == Receive || Ends(s.ev.prog, ToDone) || Delivering(s.ev.prog).Some?
    case Scan(i, m) =>
      && m.pid != 0 && i <= cfg.n && NoneBelow(s.rows, m.pid, i)
      && (s.ev.prog == ScanFrom(cfg, i, m)
          || (i < cfg.n && s.ev.prog == Body(cfg, EScan(i, m)))
          || (i > 0 && s.ev.prog == Unlock(i - 1, ScanFrom(cfg, i, m))))
    case Handle(k, m, o) =>
      && m.pid != 0 && k < |s.rows| && NoneBelow(s.rows, m.pid, k)
      && (s.rows[k].pid == m.pid || s.rows[k].pid == 0)
      && Handles(s.ev.prog, k, m, o, s.rows[k])
  }

  // ------------------------------------------------------------- steps of the API threads

  lemma EvHolds(cfg: Config, s: State)
    requires Inv(cfg, s) && s.ev.hold.Holds?
    ensures 0 <= s.ev.hold.row < |s.locks| && s.locks[s.ev.hold.row] == Held(Ev, s.ev.hold.depth)
  {
    hide RowOk, Inside, QueueOk;
    assert ThreadOk(cfg, s, Ev);
  }

  /** An API thread never gives a row another client, and leaves the row alone that
      the event thread has locked. */
  lemma ApiPids(cfg: Config, s: State, t: Tid, c: Choice)
    requires Inv(cfg, s) && Ready(s, t, c) && t.Api?
    ensures var s' := Execute(cfg, s, t, c);
            && |s'.rows| == |s.rows| && s'.ev == s.ev
            && (forall j :: 0 <= j < |s.rows| ==> s'.rows[j].pid == s.rows[j].pid || s'.rows[j].pid == 0)
            && (forall j :: 0 <= j < |s.rows| && s.ev.hold.Holds? && s.ev.hold.row == j ==> s'.rows[j] == s.rows[j])
  {
    hide RowOk, ThreadOk, QueueOk, Execute, Ready, Apply, Mapped, Slotted, Vouched, Owed;
    RowsStep(cfg, s, t, c);
    OtherThreads(cfg, s, t, c);
    if Th(s, t).prog.Upd? {
      Safety.UpdateKnows(cfg, s, t);
      if s.ev.hold.Holds? {
        EvHolds(cfg, s);
      }
    }
  }

  /** A handler that holds a lock holds its row's. */
  lemma HandlerHolds(cfg: Config, s: State, k: nat, m: Msg, o: Due)
    requires Inv(cfg, s) && k < |s.rows| && Handles(s.ev.prog, k, m, o, s.rows[k])
    ensures if s.ev.hold.Holds? then s.ev.hold.row == k else Outside(cfg, Ev, s.ev.prog)
  {
    hide RowOk, QueueOk, Agrees, Shown, LastOffered, LastNote, UpdateOk, EntryOk;
    assert ThreadOk(cfg, s, Ev);
  }

  lemma ApiStage(cfg: Config, s: State, t: Tid, c: Choice, st: Stage)
    requires Inv(cfg, s) && Ready(s, t, c) && t.Api? && StageOk(cfg, s, st)
    ensures StageOk(cfg, Execute(cfg, s, t, c), st)
  {
    hide Inv, Execute, Ready, Handles, Ends, Delivering, ScanFrom, Body, Outside;
    ApiPids(cfg, s, t, c);
    if st.Handle? {
      HandlerHolds(cfg, s, st.k, st.m, st.o);
      if s.ev.hold.NoHold? {
        HandlesUnlocked(cfg, s.ev.prog, st.k, st.m, st.o, s.rows[st.k], Execute(cfg, s, t, c).rows[st.k]);
      }
    }
  }

  // ------------------------------------------------------------- steps of the event thread

  lemma NextProg(cfg: Config, s: State, c: Choice)
    requires Ready(s, Ev, c)
    ensures var s', p := Execute(cfg, s, Ev, c), s.ev.prog;
            match p
            case Unlock(_, k) => s'.ev.prog == k
            case Upd(_, _, k) => s'.ev.prog == k
            case Mark(_, k) => s'.ev.prog == k
            case Send(_, _, ok, fail) => s'.ev.prog == if c.b then ok else fail
            case TestPid(i, pid, yes, no) => s'.ev.prog == if s.rows[i].pid == pid then yes else no
            case Enter(e) => s'.ev.prog == if InTable(s, RowOf(e)) then Body(cfg, e) else NoRow(e)
            case Jump(i, code) => s'.ev.prog == CodeBody(cfg, code, s.rows[i].inst)
            case _ => true
  {
    hide Apply, Body, CodeBody, NoRow, Take, StatusName, EventOf, Deliver;
  }

  /** A step of the event thread that is not a send, and not an update or a note. */
  lemma SilentStep(cfg: Config, s: State, c: Choice)
    requires Ready(s, Ev, c) && !s.ev.prog.Send? && !s.ev.prog.Upd? && !s.ev.prog.Mark?
    ensures Execute(cfg, s, Ev, c).rows == s.rows && Execute(cfg, s, Ev, c).log == s.log
  {
    RowsStep(cfg, s, Ev, c);
    LogStep(cfg, s, Ev, c);
    hide Execute, Ready;
  }

  /** One history item about row k, by the event thread. */
  predicate About(x: Item, k: nat) {
    if x.Offered? then x.from == Ev && x.ev.inst == k + 1 else x.note.i == k
  }

  /** The event thread's step changed at most row `found` and wrote at most one item,
      about it; with no row found, it did neither. */
  ghost predicate StepOk(s: State, s': State, found: Option<nat>) {
    && |s'.rows| == |s.rows|
    && (forall j :: 0 <= j < |s.rows| && found != Some(j) ==> s'.rows[j] == s.rows[j])
    && (s'.log == s.log || (found.Some? && exists x :: s'.log == s.log + [x] && About(x, found.value)))
  }

  /** The row whose pid test succeeds in the event thread's next step. */
  function Match(s: State): Option<nat> {
    var p := s.ev.prog;
    if p.TestPid? && p.i < |s.rows| && s.rows[p.i].pid == p.pid then Some(p.i) else None
  }

  function Found(st: Stage): Option<nat> {
    if st.Handle? then Some(st.k) else None
  }

  /** An offered event, and whether it was accepted. */
  datatype Sent = Sent(ev: Event, took: bool)

  /** Everything the event thread offered. */
  function EvOffers(log: seq<Item>): seq<Sent> {
    if log == [] then []
    else
      var x := log[|log| - 1];
      if x.Offered? && x.from == Ev then EvOffers(log[..|log| - 1]) + [Sent(x.ev, x.took)] else EvOffers(log[..|log| - 1])
  }

  lemma EvOffersGrows(log: seq<Item>, x: Item)
    ensures EvOffers(log + [x]) == if x.Offered? && x.from == Ev then EvOffers(log) + [Sent(x.ev, x.took)] else EvOffers(log)
  {
    assert (log + [x])[..|log|] == log;
  }

  /** Offering x about row k pays all of o but o'. */
  predicate Settles(k: nat, o: Due, x: seq<Sent>, o': Due)
    decreases |x|
  {
    if x == [] then o' == o
    else
      && x[0].ev.BusSet? && x[0].ev.inst == k + 1 && Pays(o, x[0].ev.param, x[0].ev.val)
      && Settles(k, AfterPaid(o, x[0].took), x[1..], o')
  }

  /** One step with message m: the stage moves on, a match is the lowest row with
      the pid and brings what the message asks for, a send is of something the row
      shows, and what is due is neither lost nor invented. */
  ghost predicate Moves(cfg: Config, s: State, s': State, st: Stage, st': Stage, m: Msg) {
    && StageOk(cfg, s', st') && !st'.Away? && st'.m == m
    && StepOk(s, s', Found(st))
    && Found(st') == (if Found(st).Some? then Found(st) else Match(s))
    && SendShows(s, Found(st), m)
    && (st.Scan? ==> EvOffers(s'.log) == EvOffers(s.log))
    && (st.Scan? && st'.Handle? ==>
          s.rows[st'.k].pid == m.pid && NoneBelow(s.rows, m.pid, st'.k) && st'.o == DueOf(m))
    && (st.Handle? ==> exists x :: EvOffers(s'.log) == EvOffers(s.log) + x && Settles(st.k, st.o, x, st'.o))
  }

  /** If the event thread sends next, the row it has found shows what it sends. */
  ghost predicate SendShows(s: State, found: Option<nat>, m: Msg) {
    s.ev.prog.Send? ==>
      && found.Some? && found.value < |s.rows| && s.ev.prog.what.Set?
      && Shown(m, s.rows[found.value], s.ev.prog.what.param, s.ev.prog.what.val)
  }

  lemma NothingSent(a: seq<Sent>, k: nat, o: Due)
    ensures a == a + [] && Settles(k, o, [], o)
  {
  }

  lemma ScanStep(cfg: Config, s: State, c: Choice, i: nat, m: Msg) returns (st': Stage)
    requires Inv(cfg, s) && Ready(s, Ev, c) && StageOk(cfg, s, Scan(i, m)) && s.ev.prog != Receive
    ensures Moves(cfg, s, Execute(cfg, s, Ev, c), Scan(i, m), st', m)
  {
    hide Inv, Execute, Ready, EvOffers, Ends, Delivering;
    Alone.Sizes(cfg, s);
    NextProg(cfg, s, c);
    var p, s' := s.ev.prog, Execute(cfg, s, Ev, c);
    if p.Enter? {
      Progress.EntryInTable(cfg, s, Ev, p.e);
    }
    SilentStep(cfg, s, c);
    st' := if p.TestPid? then (if s.rows[i].pid == m.pid then Handle(i, m, DueOf(m)) else Scan(i + 1, m)) else Scan(i, m);
  }

  lemma UnderLock(cfg: Config, s: State, i: nat)
    requires Inv(cfg, s) && s.ev.prog.Jump? && s.ev.prog.i == i
    ensures i < cfg.n == |s.rows| && s.rows[i].inst == i + 1
  {
    hide Agrees, ViewOf;
    assert ThreadOk(cfg, s, Ev);
    assert RowOk(cfg, s, i);
  }

  /** Steps of a handler that write nothing. */
  lemma HandleSilent(cfg: Config, s: State, c: Choice, k: nat, m: Msg, o: Due) returns (st': Stage)
    requires Inv(cfg, s) && Ready(s, Ev, c) && StageOk(cfg, s, Handle(k, m, o))
    requires s.ev.prog.Enter? || s.ev.prog.Jump? || s.ev.prog.Unlock?
    ensures Moves(cfg, s, Execute(cfg, s, Ev, c), Handle(k, m, o), st', m)
  {
    hide Inv, Execute, Ready, EvOffers, Body, CodeBody, Ends, Delivering;
    NextProg(cfg, s, c);
    SilentStep(cfg, s, c);
    var p, s' := s.ev.prog, Execute(cfg, s, Ev, c);
    if p.Enter? {
      Progress.EntryInTable(cfg, s, Ev, p.e);
      HandlesEntry(cfg, p.e, k, m, o, s.rows[k]);
    } else if p.Jump? {
      UnderLock(cfg, s, k);
      HandlesDispatch(k, m, s.rows[k]);
      HandlesFound(cfg, k, m, o, s.rows[k]);
    }
    st' := Handle(k, m, o);
    NothingSent(EvOffers(s.log), k, o);
  }

  lemma HandlesEntry(cfg: Config, e: Entry, k: nat, m: Msg, o: Due, r: Row)
    requires Handles(Enter(e), k, m, o, r)
    ensures RowOf(e) == k && Handles(Body(cfg, e), k, m, o, r)
  {
    hide StateBody, IpcpBody, Ipv6cpBody, IpcpVerdict;
    match e
    case EState(_, x) => HandlesState(k, m, r);
    case EIpcp(_, x) => HandlesIpcp(k, m, r);
    case EIpv6cp(_, x) => HandlesIpv6cp(k, m, r);
  }

  lemma HandlesFound(cfg: Config, k: nat, m: Msg, o: Due, r: Row)
    requires Handles(Dispatch(k + 1, m), k, m, o, r)
    ensures Handles(CodeBody(cfg, CFound(k, m), k + 1), k, m, o, r)
  {
    hide Dispatch, Shown;
  }

  /** Steps of a handler that update the row or note something. */
  lemma HandleWrite(cfg: Config, s: State, c: Choice, k: nat, m: Msg, o: Due) returns (st': Stage)
    requires Inv(cfg, s) && Ready(s, Ev, c) && StageOk(cfg, s, Handle(k, m, o)) && (s.ev.prog.Upd? || s.ev.prog.Mark?)
    ensures Moves(cfg, s, Execute(cfg, s, Ev, c), Handle(k, m, o), st', m)
  {
    hide Inv, Execute, Ready, EvOffers, Ends, Delivering;
    NextProg(cfg, s, c);
    RowsStep(cfg, s, Ev, c);
    LogStep(cfg, s, Ev, c);
    var p, s' := s.ev.prog, Execute(cfg, s, Ev, c);
    st' := Handle(k, m, o);
    if p.Mark? {
      EvOffersGrows(s.log, Noted(p.note));
      assert About(Noted(p.note), k);
    } else {
      assert Apply(s.rows[k], p.u).pid == s.rows[k].pid;
    }
    NothingSent(EvOffers(s.log), k, o);
    hide Apply;
  }

  /** Every send of a handler is about its row. */
  lemma HandleSend(cfg: Config, s: State, c: Choice, k: nat, m: Msg, o: Due) returns (st': Stage)
    requires Inv(cfg, s) && Ready(s, Ev, c) && StageOk(cfg, s, Handle(k, m, o)) && s.ev.prog.Send?
    ensures Moves(cfg, s, Execute(cfg, s, Ev, c), Handle(k, m, o), st', m)
  {
    hide Inv, Execute, Ready, EvOffers, Ends, Delivering, ScanFrom, Shown;
    var p := s.ev.prog;
    RowNumber(cfg, s, k);
    assert p.what.Set? && (p.to == ToInst(k + 1) || p.to == ToRow(k));
    var x := EvSend(cfg, s, c, k);
    st' := Handle(k, m, AfterPaid(o, c.b));
    var y := Sent(BusSet(k + 1, p.what.param, p.what.val), c.b);
    assert [y][1..] == [] && Settles(k, AfterPaid(o, c.b), [], st'.o);
    assert Settles(k, o, [y], st'.o);
  }

  /** A send of the event thread about row k. */
  lemma EvSend(cfg: Config, s: State, c: Choice, k: nat) returns (x: Item)
    requires Ready(s, Ev, c) && s.ev.prog.Send? && s.ev.prog.what.Set? && k < |s.rows| && s.rows[k].inst == k + 1
    requires s.ev.prog.to == ToInst(k + 1) || s.ev.prog.to == ToRow(k)
    ensures var s', p := Execute(cfg, s, Ev, c), s.ev.prog;
            && s'.rows == s.rows && s'.ev.prog == (if c.b then p.ok else p.fail)
            && s'.log == s.log + [x] && About(x, k)
            && EvOffers(s'.log) == EvOffers(s.log) + [Sent(BusSet(k + 1, p.what.param, p.what.val), c.b)]
  {
    var p := s.ev.prog;
    var e, next := EventOf(s, p.to, p.what), if c.b then p.ok else p.fail;
    assert e == EventFor(k, p.what);
    SendIs(cfg, s, Ev, c);
    SendRows(s, e, c.b, next);
    SendLogged(s, Ev, e, c.b, next);
    x := Offered(Ev, e, s.ev.hold.Holds? && s.ev.hold.row == e.inst - 1, c.b);
    EvOffersGrows(s.log, x);
    hide Execute, Ready, SendTo, EventOf, EvOffers;
  }

  lemma SendRows(s: State, e: Event, took: bool, next: Prog)
    ensures SendTo(s, Ev, e, took, next).rows == s.rows && SendTo(s, Ev, e, took, next).ev.prog == next
  {
  }

  lemma RowNumber(cfg: Config, s: State, k: nat)
    requires Inv(cfg, s) && k < |s.rows|
    ensures k < cfg.n && s.rows[k].inst == k + 1
  {
    hide ThreadOk, Agrees, ViewOf;
    assert RowOk(cfg, s, k);
  }

  lemma HandleStep(cfg: Config, s: State, c: Choice, k: nat, m: Msg, o: Due) returns (st': Stage)
    requires Inv(cfg, s) && Ready(s, Ev, c) && StageOk(cfg, s, Handle(k, m, o)) && s.ev.prog != Receive
    ensures Moves(cfg, s, Execute(cfg, s, Ev, c), Handle(k, m, o), st', m)
  {
    var p := s.ev.prog;
    assert Handles(p, k, m, o, s.rows[k]);
    hide Inv, Execute, StageOk, Moves;
    if p.Send? {
      st' := HandleSend(cfg, s, c, k, m, o);
    } else if p.Upd? || p.Mark? {
      st' := HandleWrite(cfg, s, c, k, m, o);
    } else {
      st' := HandleSilent(cfg, s, c, k, m, o);
    }
  }

  // ------------------------------------------------------------- one message, all interleavings

  predicate EvSteps(l: Label) {
    l.Poll? || l.BeginMsg? || (l.Run? && l.t == Ev)
  }

  /** The event thread does not go on from the receive in this run. */
  predicate Busy(cfg: Config, s: State, ls: seq<Label>)
    requires CanRun(cfg, s, ls)
    decreases ls
  {
    ls == [] || (!(EvSteps(ls[0]) && s.ev.prog == Receive) && Busy(cfg, Next(cfg, s, ls[0]), ls[1..]))
  }

  /** The row the event thread finds in the run, unless it has found one. */
  function FoundIn(cfg: Config, s: State, ls: seq<Label>, found: Option<nat>): Option<nat>
    requires CanRun(cfg, s, ls)
    decreases ls
  {
    if ls == [] then found
    else FoundIn(cfg, Next(cfg, s, ls[0]), ls[1..], if EvSteps(ls[0]) && found.None? then Match(s) else found)
  }

  /** In every step of the event thread: nothing is touched or offered before a row
      is found; the row found carries the pid and no lower row does; from then on
      only that row is touched, every event offered is about it, and the row shows
      what is offered. */
  ghost predicate Routed(cfg: Config, s: State, ls: seq<Label>, m: Msg, found: Option<nat>)
    requires CanRun(cfg, s, ls)
    decreases ls
  {
    ls == [] ||
    var s' := Next(cfg, s, ls[0]);
    if EvSteps(ls[0]) then
      var now := if found.None? then Match(s) else found;
      && StepOk(s, s', found) && SendShows(s, found, m)
      && (found.None? && now.Some? ==>
            now.value < |s.rows| && s.rows[now.value].pid == m.pid && NoneBelow(s.rows, m.pid, now.value))
      && Routed(cfg, s', ls[1..], m, now)
    else Routed(cfg, s', ls[1..], m, found)
  }

  /** The stage at the end of the run, and what was offered up to it. */
  ghost predicate Arrives(cfg: Config, s: State, s': State, st: Stage, st': Stage, m: Msg, found: Option<nat>, x: seq<Sent>) {
    && StageOk(cfg, s', st') && !st'.Away? && st'.m == m && Found(st') == found
    && EvOffers(s'.log) == EvOffers(s.log) + x
    && (st.Handle? ==> st'.Handle? && st'.k == st.k && Settles(st.k, st.o, x, st'.o))
    && (st.Scan? && st'.Handle? ==> Settles(st'.k, DueOf(m), x, st'.o))
    && (st'.Scan? ==> x == [])
  }

  lemma OneStep(cfg: Config, s: State, l: Label, st: Stage) returns (st': Stage)
    requires Inv(cfg, s) && Enabled(cfg, s, l) && !st.Away? && StageOk(cfg, s, st) && !(EvSteps(l) && s.ev.prog == Receive)
    ensures EvSteps(l) ==> Moves(cfg, s, Next(cfg, s, l), st, st', st.m)
    ensures !EvSteps(l) ==> st' == st && StageOk(cfg, Next(cfg, s, l), st) && EvOffers(Next(cfg, s, l).log) == EvOffers(s.log)
  {
    st' := st;
    match l
    case Run(t, c) =>
      if t != Ev {
        ApiStage(cfg, s, t, c, st);
        ApiOffers(cfg, s, t, c);
      } else if st.Scan? {
        st' := ScanStep(cfg, s, c, st.i, st.m);
      } else {
        st' := HandleStep(cfg, s, c, st.k, st.m, st.o);
      }
      hide Inv, Execute, StageOk, Moves, EvOffers;
    case BeginApi(k, op) =>
      hide Inv, Handles, Body, EvOffers, Ends, Delivering;
    case _ =>
      NotDone(cfg, s, st);
      assert false;
  }

  lemma NotDone(cfg: Config, s: State, st: Stage)
    requires !st.Away? && StageOk(cfg, s, st)
    ensures s.ev.prog != Done
  {
  }

  lemma ApiOffers(cfg: Config, s: State, t: Tid, c: Choice)
    requires Ready(s, t, c) && t.Api?
    ensures EvOffers(Execute(cfg, s, t, c).log) == EvOffers(s.log)
  {
    var p := Th(s, t).prog;
    if p.Send? {
      var e, k := EventOf(s, p.to, p.what), if c.b then p.ok else p.fail;
      SendLogged(s, t, e, c.b, k);
      EvOffersGrows(s.log, Offered(t, e, Th(s, t).hold.Holds? && Th(s, t).hold.row == e.inst - 1, c.b));
      assert Execute(cfg, s, t, c) == SendTo(s, t, e, c.b, k);
    } else {
      LogStep(cfg, s, t, c);
      if p.Mark? {
        EvOffersGrows(s.log, Noted(p.note));
      }
    }
    hide Execute, Ready, SendTo, EventOf, EvOffers;
  }

  lemma {:induction false} SettlesOn(k: nat, o: Due, x: seq<Sent>, o1: Due, y: seq<Sent>, o2: Due)
    requires Settles(k, o, x, o1) && Settles(k, o1, y, o2)
    ensures Settles(k, o, x + y, o2)
    decreases |x|
  {
    if x == [] {
      assert x + y == y;
    } else {
      SettlesOn(k, AfterPaid(o, x[0].took), x[1..], o1, y, o2);
      assert (x + y)[1..] == x[1..] + y && (x + y)[0] == x[0];
    }
  }

  lemma ArrivesOn(cfg: Config, s: State, s1: State, s': State, st: Stage, st1: Stage, st': Stage, m: Msg, found: Option<nat>, y: seq<Sent>)
      returns (x: seq<Sent>)
    requires (Moves(cfg, s, s1, st, st1, m) || (st1 == st && EvOffers(s1.log) == EvOffers(s.log))) && !st.Away? && st.m == m
    requires Arrives(cfg, s1, s', st1, st', m, found, y)
    ensures Arrives(cfg, s, s', st, st', m, found, x)
  {
    hide StageOk, EvOffers, DueOf, StepOk, SendShows, Settles, NoneBelow, Match;
    x := y;
    if st.Handle? && !(st1 == st && EvOffers(s1.log) == EvOffers(s.log)) {
      var z :| EvOffers(s1.log) == EvOffers(s.log) + z && Settles(st.k, st.o, z, st1.o);
      assert st1.Handle? && st1.k == st.k;
      x := z + y;
      SettlesOn(st.k, st.o, z, st1.o, y, st'.o);
      assert EvOffers(s.log) + z + y == EvOffers(s.log) + (z + y);
    }
  }

  /** What Routed asks of one step of the event thread. */
  lemma RoutedStep(cfg: Config, s: State, s1: State, st: Stage, st1: Stage, m: Msg)
    requires Moves(cfg, s, s1, st, st1, m) && !st.Away?
    ensures StepOk(s, s1, Found(st)) && SendShows(s, Found(st), m)
    ensures Found(st1) == (if Found(st).None? then Match(s) else Found(st))
    ensures Found(st).None? && Found(st1).Some? ==>
              && Found(st1).value < |s.rows| && s.rows[Found(st1).value].pid == m.pid
              && NoneBelow(s.rows, m.pid, Found(st1).value)
  {
    hide EvOffers, DueOf, Handles, Match, Settles, SendShows;
  }

  lemma {:induction false} RoutedRun(cfg: Config, s: State, ls: seq<Label>, st: Stage) returns (st': Stage, x: seq<Sent>)
    requires Inv(cfg, s) && CanRun(cfg, s, ls) && Busy(cfg, s, ls) && !st.Away? && StageOk(cfg, s, st)
    ensures Routed(cfg, s, ls, st.m, Found(st))
    ensures Arrives(cfg, s, After(cfg, s, ls), st, st', st.m, FoundIn(cfg, s, ls, Found(st)), x)
    decreases ls
  {
    hide Inv, StageOk, EvOffers, DueOf, Next, Enabled, StepOk, Match, NoneBelow, SendShows;
    if ls == [] {
      st', x := st, [];
      if st.Handle? {
        NothingSent(EvOffers(s.log), st.k, st.o);
      }
      assert EvOffers(s.log) + [] == EvOffers(s.log);
      return;
    }
    var l, s1 := ls[0], Next(cfg, s, ls[0]);
    InvNext(cfg, s, l);
    var st1 := OneStep(cfg, s, l, st);
    if EvSteps(l) {
      RoutedStep(cfg, s, s1, st, st1, st.m);
    }
    var y: seq<Sent>;
    st', y := RoutedRun(cfg, s1, ls[1..], st1);
    x := ArrivesOn(cfg, s, s1, After(cfg, s, ls), st, st1, st', st.m, FoundIn(cfg, s, ls, Found(st)), y);
  }

  /** What it means that nothing is left of what a message asks for. */
  lemma Settled(k: nat, m: Msg, x: seq<Sent>)
    requires Settles(k, DueOf(m), x, Nothing)
    ensures m.state in {IpcpCompleted, IpcpFailed} ==>
              |x| == 1 && x[0].ev == BusSet(k + 1, IpcpStatus, if m.state == IpcpCompleted && Acceptable(m.ipcp) then VUp else VDown)
    ensures m.state in {Ipv6cpCompleted, Ipv6cpFailed} ==>
              |x| == 1 && x[0].ev == BusSet(k + 1, Ipv6cpStatus, if m.state == Ipv6cpCompleted then VUp else VDown)
    ensures m.state in {OtherState, IfConnecting, IfAuthenticating, IfDisconnecting, LcpAuthCompleted} ==> x == []
    ensures ForLink(m) && m.state !in {IfConnecting, IfAuthenticating, IfDisconnecting, LcpAuthCompleted} ==>
              var v := if m.state == IfUp then VUp else VDown;
              && |x| >= 1 && x[0].ev == BusSet(k + 1, LcpStatus, v)
              && (if x[0].took then |x| == 2 && x[1].ev == BusSet(k + 1, LinkStatus, v) else |x| == 1)
  {
    hide Acceptable;
    if x != [] && x[1..] != [] {
      assert Settles(k, AfterPaid(AfterPaid(DueOf(m), x[0].took), x[1].took), x[1..][1..], Nothing);
    }
  }

  /** One message, from its arrival up to and including the next receive point, in
      every interleaving with every other thread: the event thread touches only the
      lowest row that carries the message's pid at the moment of the test. Back at
      the receive: with no row found none carries the pid and nothing was offered;
      otherwise the message was answered about that row and in no other way. A
      routed IPCP message has been answered by exactly one IPCP verdict, Up if and
      only if it reports completion and is acceptable; an IPv6CP message by exactly
      one IPv6CP verdict, Up if and only if it reports completion; a state of the
      link by both link parameters, the second behind an accepted first, Up for IfUp
      and Down for every other state that is announced; the states on the way up and
      down, the completed authentication and other messages by nothing. */
  lemma MessageInAnyInterleaving(cfg: Config, s: State, m: Msg, ls: seq<Label>)
    requires Reachable(cfg, s) && Enabled(cfg, s, BeginMsg(m))
    requires CanRun(cfg, Next(cfg, s, BeginMsg(m)), ls) && Busy(cfg, Next(cfg, s, BeginMsg(m)), ls)
    ensures var s1 := Next(cfg, s, BeginMsg(m));
            var s', k := After(cfg, s1, ls), FoundIn(cfg, s1, ls, None);
            && (!m.stateChange ==> s1.ev.prog == Receive)
            && (m.stateChange ==> Routed(cfg, s1, ls, m, None))
            && (m.stateChange && s'.ev.prog == Receive ==>
                  && NoneBelow(s'.rows, m.pid, if k.Some? then k.value else cfg.n)
                  && EvOffers(s.log) <= EvOffers(s'.log)
                  && var x := EvOffers(s'.log)[|EvOffers(s.log)|..];
                     && (k.None? ==> x == [])
                     && (k.Some? && m.state in {IpcpCompleted, IpcpFailed} ==>
                           && |x| == 1
                           && x[0].ev == BusSet(k.value + 1, IpcpStatus, if m.state == IpcpCompleted && Acceptable(m.ipcp) then VUp else VDown))
                     && (k.Some? && m.state in {Ipv6cpCompleted, Ipv6cpFailed} ==>
                           |x| == 1 && x[0].ev == BusSet(k.value + 1, Ipv6cpStatus, if m.state == Ipv6cpCompleted then VUp else VDown))
                     && (m.state in {OtherState, IfConnecting, IfAuthenticating, IfDisconnecting, LcpAuthCompleted} ==> x == [])
                     && (k.Some? && m.state in {IfUp, IfDown, IfUnconfigured, IfPendingDisconnect, IfDisconnected, LcpEchoFailed, AuthFailed} ==>
                           var v := if m.state == IfUp then VUp else VDown;
                           && |x| >= 1 && x[0].ev == BusSet(k.value + 1, LcpStatus, v)
                           && (if x[0].took then |x| == 2 && x[1].ev == BusSet(k.value + 1, LinkStatus, v) else |x| == 1)))
  {
    hide Inv, Reachable, EvOffers, Routed, Busy, CanRun, After, FoundIn, DueOf, Settles, Acceptable;
    InvReachable(cfg, s);
    var l := BeginMsg(m);
    InvNext(cfg, s, l);
    var s1 := Next(cfg, s, l);
    Begins(cfg, s, m);
    if m.stateChange {
      var st', x := RoutedRun(cfg, s1, ls, Scan(0, m));
      var s' := After(cfg, s1, ls);
      AtReceive(cfg, s', st');
      assert (EvOffers(s.log) + x)[|EvOffers(s.log)|..] == x;
      if s'.ev.prog == Receive && st'.Handle? {
        Settled(st'.k, m, x);
      }
    }
    hide StageOk;
  }

  lemma Begins(cfg: Config, s: State, m: Msg)
    requires Inv(cfg, s) && Enabled(cfg, s, BeginMsg(m))
    ensures var s1 := Next(cfg, s, BeginMsg(m));
            s1.log == s.log && if m.stateChange then StageOk(cfg, s1, Scan(0, m)) else s1.ev.prog == Receive
  {
    hide RowOk, ThreadOk, QueueOk, Body;
  }

  lemma AtReceive(cfg: Config, s: State, st: Stage)
    requires !st.Away? && StageOk(cfg, s, st)
    ensures s.ev.prog == Receive ==>
              (st.Handle? ==> st.o == Nothing) && NoneBelow(s.rows, st.m.pid, if st.Handle? then st.k else cfg.n)
  {
    if st.Scan? && st.i < cfg.n {
      assert ScanFrom(cfg, st.i, st.m).Enter?;
    }
  }

  // ------------------------------------------------------------- reachable states

  lemma AwayStep(cfg: Config, s: State, c: Choice)
    requires Inv(cfg, s) && Hist(s) && Ready(s, Ev, c) && StageOk(cfg, s, Away)
    ensures StageOk(cfg, Execute(cfg, s, Ev, c), Away)
  {
    var p := s.ev.prog;
    if p.Receive? {
      AwayReceive(cfg, s, c);
    } else if Delivering(p).Some? {
      DeliveryStep(cfg, s, c);
      assert Ends(Done, ToDone);
    } else {
      NextShape(cfg, s, Ev, c, ToDone);
    }
    hide Inv, Hist, Execute, Ready, Ends, Delivering;
  }

  lemma AwayReceive(cfg: Config, s: State, c: Choice)
    requires Inv(cfg, s) && Ready(s, Ev, c) && s.ev.prog == Receive
    ensures StageOk(cfg, Execute(cfg, s, Ev, c), Away)
  {
    if s.queue != [] {
      assert s.queue[0].inst > 0;
      DeliverShape(cfg, s.queue[0], c.b, c.pid);
    }
    assert Ends(Done, ToDone);
    hide Inv, Ends, Delivering, Deliver, InHand;
  }

  lemma AwayPoll(cfg: Config, s: State, c: Choice)
    requires Inv(cfg, s) && s.queue != []
    ensures StageOk(cfg, Dequeue(cfg, s, c), Away)
  {
    assert s.queue[0].inst > 0;
    DeliverShape(cfg, s.queue[0], c.b, c.pid);
    hide Inv, Ends, Delivering, Deliver, InHand;
  }

  lemma StageNext(cfg: Config, s: State, l: Label, st: Stage) returns (st': Stage)
    requires Inv(cfg, s) && Hist(s) && StageOk(cfg, s, st) && Enabled(cfg, s, l)
    ensures StageOk(cfg, Next(cfg, s, l), st')
  {
    st' := st;
    match l
    case Poll(c) =>
      st' := Away;
      AwayPoll(cfg, s, c);
    case BeginMsg(m) =>
      st' := if m.stateChange then Scan(0, m) else Away;
      hide Inv, Hist, Body, Handles, Ends, Delivering;
    case Run(t, c) =>
      if t == Ev && (st.Away? || s.ev.prog == Receive) {
        st' := Away;
        AwayAgain(cfg, s, st);
        AwayStep(cfg, s, c);
      } else if st.Away? {
        AwayOthers(cfg, s, l);
      } else {
        st' := OneStep(cfg, s, l, st);
      }
      hide Inv, Hist, Execute, Ready, StageOk, StepOk;
    case BeginApi(_, _) =>
      if st.Away? {
        AwayOthers(cfg, s, l);
      } else {
        st' := OneStep(cfg, s, l, st);
      }
      hide Inv, Hist, Next, Enabled, StageOk, StepOk;
  }

  lemma AwayAgain(cfg: Config, s: State, st: Stage)
    requires StageOk(cfg, s, st) && (st.Away? || s.ev.prog == Receive)
    ensures StageOk(cfg, s, Away)
  {
    hide Handles, Body, ScanFrom, Ends;
  }

  lemma AwayOthers(cfg: Config, s: State, l: Label)
    requires Inv(cfg, s) && Enabled(cfg, s, l) && !EvSteps(l) && StageOk(cfg, s, Away)
    ensures StageOk(cfg, Next(cfg, s, l), Away)
  {
    match l
    case Run(t, c) => ApiStage(cfg, s, t, c, Away);
      hide Inv, Execute, Ready;
    case BeginApi(k, op) => hide Inv, Ends, Delivering;
  }

  lemma {:induction false} StageRun(cfg: Config, s: State, ls: seq<Label>, st: Stage) returns (st': Stage)
    requires Inv(cfg, s) && Hist(s) && StageOk(cfg, s, st) && CanRun(cfg, s, ls)
    ensures StageOk(cfg, After(cfg, s, ls), st')
    decreases ls
  {
    hide Inv, Hist, StageOk, Next, Enabled;
    st' := st;
    if ls != [] {
      InvNext(cfg, s, ls[0]);
      HistNext(cfg, s, ls[0]);
      var st1 := StageNext(cfg, s, ls[0], st);
      st' := StageRun(cfg, Next(cfg, s, ls[0]), ls[1..], st1);
    }
  }

  lemma StageReachable(cfg: Config, s: State) returns (st: Stage)
    requires Reachable(cfg, s)
    ensures StageOk(cfg, s, st)
  {
    hide Inv, Hist, Next, Enabled, CanRun, After, Initial;
    var s0: State, ls: seq<Label> :| Initial(cfg, s0) && CanRun(cfg, s0, ls) && s == After(cfg, s0, ls);
    InvInitial(cfg, s0);
    HistInitial(cfg, s0);
    assert StageOk(cfg, s0, Away) by { StartsAway(cfg, s0); }
    st := StageRun(cfg, s0, ls, Away);
  }

  lemma StartsAway(cfg: Config, s: State)
    requires Initial(cfg, s)
    ensures StageOk(cfg, s, Away)
  {
    assert Ends(Done, ToDone);
  }

  /** In every reachable state: while the event thread looks for a message's row at
      row i, or is about to enter its handler for an interface, no lower row carries
      the message's pid; and the interface's own row carries it, unless it has been
      stopped meanwhile. */
  lemma NoLowerMatch(cfg: Config, s: State)
    requires Reachable(cfg, s)
    ensures match s.ev.prog
            case Enter(EScan(i, m)) => NoneBelow(s.rows, m.pid, i)
            case Jump(i, CFound(_, m)) => NoneBelow(s.rows, m.pid, i)
            case Enter(EState(inst, m)) => inst >= 1 && Kept(s.rows, m.pid, inst - 1)
            case Enter(EIpcp(inst, m)) => inst >= 1 && Kept(s.rows, m.pid, inst - 1)
            case Enter(EIpv6cp(inst, m)) => inst >= 1 && Kept(s.rows, m.pid, inst - 1)
            case _ => true
  {
    hide Reachable, DueOf, StateBody, IpcpBody, Ipv6cpBody, StartBody, StopBody;
    var st := StageReachable(cfg, s);
  }

  predicate Kept(rows: seq<Row>, pid: int, k: nat) {
    NoneBelow(rows, pid, k) && k < |rows| && (rows[k].pid == pid || rows[k].pid == 0)
  }
}
