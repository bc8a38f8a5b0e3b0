/** The end-to-end agreement holds exactly when no two interfaces share a parameter
    of the WAN manager: if two do, one can be told Down in the other's name. */
module Collision {
  import opened CText
  import opened Ipcp
  import opened Paths
  import opened Program
  import opened Machine
  import opened Invariant
  import opened Discipline
  import opened Bounds
  import opened Sections
  import opened Alone
  import opened Outcomes
  import opened Manager
  import opened HandlerRuns
  import opened Agreement
  import Progress
  import ResetOrder
  import Scenarios
  import WanLookup

  /** What the data model and the WAN manager should agree on. */
  ghost predicate Agreed(cfg: Config, s: State, i: nat)
    requires ValidConfig(cfg) && i < cfg.n && i < |s.rows|
  {
    && (s.rows[i].status == Up ==>
          && Mapped(cfg, i, s.rows[i])
          && SlotKey(cfg, i, LcpStatus) in s.wan && s.wan[SlotKey(cfg, i, LcpStatus)] == VUp)
    && (cfg.slot[i].Found? && SlotKey(cfg, i, LcpStatus) in s.wan
        && s.rows[i].conn in {Unconfigured, Disconnected, AuthenticationFailed} ==>
          s.wan[SlotKey(cfg, i, LcpStatus)] == VDown)
    && (cfg.slot[i].Found? && SlotKey(cfg, i, IpcpStatus) in s.wan && s.wan[SlotKey(cfg, i, IpcpStatus)] == VUp ==>
          && LastNote(s.log, i).Some? && LastNote(s.log, i).value.NCompleted?
          && s.rows[i].Addresses() == Parse(LastNote(s.log, i).value.msg))
  }

  /** They agree about every interface whenever everything sent has arrived and
      nothing is going on. */
  ghost predicate AlwaysAgreed(cfg: Config)
    requires ValidConfig(cfg)
  {
    forall s: State, i: nat :: Reachable(cfg, s) && s.clean && Progress.Idle(s) && i < cfg.n && i < |s.rows| ==> Agreed(cfg, s, i)
  }

  // ------------------------------------------------------------- quiet states

  const NOBODY: Thread := Thread(Done, NoHold)

  ghost predicate Quiet(cfg: Config, s: State) {
    && Reachable(cfg, s) && Inv(cfg, s) && AllFree(s) && |s.rows| == cfg.n
    && s.api == [NOBODY] && s.ev == NOBODY && s.queue == [] && s.clean
  }

  lemma StartQuiet(cfg: Config)
    requires ValidConfig(cfg)
    ensures Quiet(cfg, Scenarios.Start(cfg))
  {
    Scenarios.StartsFresh(cfg);
    InvInitial(cfg, Scenarios.Start(cfg));
  }

  /** The API asks for a client. */
  lemma Asked(cfg: Config, s: State, i: nat) returns (s': State)
    requires Quiet(cfg, s) && i < cfg.n
    ensures Reachable(cfg, s') && Inv(cfg, s') && AllFree(s') && s'.api == [NOBODY] && s'.ev == NOBODY && s'.clean
    ensures s'.rows == s.rows[i := s.rows[i].(enabled := true)] && s'.queue == [Exec(i + 1)] && s'.wan == s.wan
  {
    hide Inv, Reachable, CanRun, After;
    var op, cs := Enable(i, true), [Choice(true, 0)];
    var ls := ApiRuns(cfg, s, 0, op, cs);
    ResetOrder.ReachableRuns(cfg, s, ls);
    s' := After(cfg, s, ls);
    var x := LaunchItem(Api(0), i, cs[0]);
    TakenOne(x);
    assert ApiOutcome(cfg, Api(0), op, s.rows[i], cs) == Outcome([x], s.rows[i].(enabled := true), Done, []);
    hide ApiOutcome, Taken;
    assert Th(s', Api(0)) == s'.api[0];
  }

  /** The event thread launches it. */
  lemma LaunchOn(cfg: Config, t: WanLookup.WanTable, s: State, i: nat, pid: nat) returns (s': State)
    requires ValidConfig(cfg) && Quiet(cfg, s) && i < cfg.n && cfg.slot[i].Found? && cfg.slot[i] == WanLookup.Lookup(t, i + 1)
    requires s.rows[i].auth == Pap
    ensures Quiet(cfg, s') && s'.wan == s.wan
    ensures s'.rows == s.rows[i := LaunchedRow(cfg, s.rows[i], i, pid)]
  {
    hide Inv, Reachable, CanRun, After, WanLookup.Lookup, HandleTurn, TurnWan, StartOutcome, StatusName, Taken;
    var s1 := Asked(cfg, s, i);
    var cs := [Choice(false, 0), Choice(true, 0), Choice(true, 0)];
    var ls := LaunchRuns(cfg, s1, t, pid, cs);
    ResetOrder.ReachableRuns(cfg, s1, ls);
    s' := After(cfg, s1, ls);
    TurnIs(cfg, Handled(SharedOf(s1), cs), s1.wan, t, pid);
    StartsWell(cfg.slot[i], pid, s1.rows[i]);
    assert s1.queue[1..] == [];
  }

  lemma StartsWell(slot: WanLookup.Outcome, pid: nat, r: Row)
    requires slot.Found? && r.auth == Pap
    ensures StartOutcome(slot, pid, r, [Choice(false, 0), Choice(true, 0), Choice(true, 0)])
         == Outcome([], r.(pid := pid, wan := slot.iface, virt := slot.virt), Done, [])
    ensures Taken([]) == []
  {
  }

  function ReportedState(m: Msg): Verdict {
    if m.state == IfUp then VUp else VDown
  }

  lemma TwoItems(i: nat, v: Verdict, cs: seq<Choice>)
    requires cs == [Choice(true, 0), Choice(true, 0)]
    ensures Taken(LinkItems(i, v, cs)) == [BusSet(i + 1, LcpStatus, v), BusSet(i + 1, LinkStatus, v)]
    ensures AllTook(LinkItems(i, v, cs))
  {
    TakenLink(i, v, cs);
    hide Taken;
    assert Head(Tail(cs)) == cs[1];
  }

  lemma ReportHandled(sh: Shared, i: nat, m: Msg, cs: seq<Choice>)
    requires i < |sh.rows| && m.stateChange && m.state in {IfUp, IfDown} && FirstWithPid(sh.rows, m.pid, 0) == Some(i)
    ensures HandleMessage(sh, m, cs).sh ==
            var items := LinkItems(i, ReportedState(m), cs);
            sh.(rows := sh.rows[i := StateRow(sh.rows[i], m)], queue := sh.queue + Taken(items), log := sh.log + items)
  {
    hide FirstWithPid, StateRow, LinkItems, Taken;
  }

  /** A client reports that its link is up, or down. */
  lemma Reported(cfg: Config, s: State, i: nat, m: Msg) returns (s': State)
    requires Quiet(cfg, s) && i < cfg.n && m.stateChange && m.pid != 0 && m.state in {IfUp, IfDown}
    requires FirstWithPid(s.rows, m.pid, 0) == Some(i)
    ensures Reachable(cfg, s') && Inv(cfg, s') && AllFree(s') && s'.api == [NOBODY] && s'.ev == Thread(Receive, NoHold) && s'.clean
    ensures s'.rows == s.rows[i := StateRow(s.rows[i], m)] && s'.wan == s.wan
    ensures s'.queue == [BusSet(i + 1, LcpStatus, ReportedState(m)), BusSet(i + 1, LinkStatus, ReportedState(m))]
  {
    var cs := [Choice(true, 0), Choice(true, 0)];
    hide Inv, Reachable, CanRun, After, FirstWithPid, StateRow;
    var ls := MessageRuns(cfg, s, m, cs);
    ResetOrder.ReachableRuns(cfg, s, ls);
    s' := After(cfg, s, ls);
    var items := LinkItems(i, ReportedState(m), cs);
    TwoItems(i, ReportedState(m), cs);
    ReportHandled(SharedOf(s), i, m, cs);
    hide HandleMessage, LinkItems, Taken, AllTook;
    assert s'.log == s.log + items;
    assert s'.log[|s.log|..] == items;
  }

  /** One queued parameter is told. */
  lemma ToldOne(cfg: Config, s: State, i: nat, param: Param, v: Verdict) returns (s': State)
    requires Reachable(cfg, s) && Inv(cfg, s) && AllFree(s) && s.api == [NOBODY] && s.clean && |s.rows| == cfg.n && i < cfg.n
    requires s.ev.hold == NoHold && s.ev.prog in {Receive, Done} && s.queue != [] && s.queue[0] == BusSet(i + 1, param, v)
    ensures Reachable(cfg, s') && Inv(cfg, s') && AllFree(s') && s'.api == [NOBODY] && s'.ev == NOBODY && s'.clean
    ensures s'.rows == s.rows && s'.queue == s.queue[1..]
    ensures s'.wan == s.wan[StatusName(cfg.unified, param, s.rows[i].wan, s.rows[i].virt) := v]
  {
    hide Inv, Reachable, CanRun, After, StatusName;
    var ls := TellRuns(cfg, s, [Choice(true, 0)]);
    ResetOrder.ReachableRuns(cfg, s, ls);
    s' := After(cfg, s, ls);
  }

  /** A report, told to the WAN manager. */
  lemma Delivered(cfg: Config, s: State, i: nat, m: Msg) returns (s': State)
    requires Quiet(cfg, s) && i < cfg.n && m.stateChange && m.pid != 0 && m.state in {IfUp, IfDown}
    requires FirstWithPid(s.rows, m.pid, 0) == Some(i)
    ensures Quiet(cfg, s') && s'.rows == s.rows[i := StateRow(s.rows[i], m)]
    ensures var r, v := s.rows[i], ReportedState(m);
            s'.wan == s.wan[StatusName(cfg.unified, LcpStatus, r.wan, r.virt) := v][StatusName(cfg.unified, LinkStatus, r.wan, r.virt) := v]
  {
    hide Inv, Reachable, StatusName, FirstWithPid;
    var r, v := s.rows[i], ReportedState(m);
    assert StateRow(r, m).wan == r.wan && StateRow(r, m).virt == r.virt;
    hide StateRow;
    var s1 := Reported(cfg, s, i, m);
    var s2 := ToldOne(cfg, s1, i, LcpStatus, v);
    assert s2.queue == [BusSet(i + 1, LinkStatus, v)];
    s' := ToldOne(cfg, s2, i, LinkStatus, v);
    assert s2.queue[1..] == [];
  }

  // ------------------------------------------------------------- the collision

  function Report(pid: nat, state: PppState): Msg {
    Msg(true, pid, state, 0, "", "", IpcpMsg("", "", ""), "", "")
  }

  const PID_I: nat := 7
  const PID_J: nat := 8

  /** Two launched clients. */
  lemma BothLaunched(cfg: Config, t: WanLookup.WanTable, i: nat, j: nat) returns (s: State)
    requires ValidConfig(cfg) && i < j < cfg.n && cfg.slot[i].Found? && cfg.slot[j].Found?
    requires cfg.slot[i] == WanLookup.Lookup(t, i + 1) && cfg.slot[j] == WanLookup.Lookup(t, j + 1)
    ensures Quiet(cfg, s) && Mapped(cfg, i, s.rows[i]) && Mapped(cfg, j, s.rows[j])
    ensures FirstWithPid(s.rows, PID_I, 0) == Some(i) && FirstWithPid(s.rows, PID_J, 0) == Some(j)
  {
    StartQuiet(cfg);
    var s0 := Scenarios.Start(cfg);
    assert forall k :: 0 <= k < cfg.n ==> s0.rows[k] == Scenarios.FirstRow(k);
    hide Quiet, Scenarios.Start, WanLookup.Lookup, FirstWithPid, Mapped;
    QuietRows(cfg, s0);
    assert s0.rows[i].auth == Pap && s0.rows[j].auth == Pap;
    var s1 := LaunchOn(cfg, t, s0, i, PID_I);
    s := LaunchOn(cfg, t, s1, j, PID_J);
    LaunchedRows(cfg, s0.rows, i, j);
  }

  function LaunchedRow(cfg: Config, r: Row, i: nat, pid: nat): Row
    requires ValidConfig(cfg) && i < cfg.n && cfg.slot[i].Found?
  {
    r.(enabled := true, pid := pid, wan := cfg.slot[i].iface, virt := cfg.slot[i].virt)
  }

  lemma LaunchedRows(cfg: Config, rows: seq<Row>, i: nat, j: nat)
    requires ValidConfig(cfg) && i < j < cfg.n == |rows| && cfg.slot[i].Found? && cfg.slot[j].Found?
    requires forall k :: 0 <= k < cfg.n ==> rows[k] == Scenarios.FirstRow(k)
    ensures var rows' := rows[i := LaunchedRow(cfg, rows[i], i, PID_I)][j := LaunchedRow(cfg, rows[j], j, PID_J)];
            && Mapped(cfg, i, rows'[i]) && Mapped(cfg, j, rows'[j])
            && FirstWithPid(rows', PID_I, 0) == Some(i) && FirstWithPid(rows', PID_J, 0) == Some(j)
  {
    hide FirstWithPid;
    TwoPids(rows[i := LaunchedRow(cfg, rows[i], i, PID_I)][j := LaunchedRow(cfg, rows[j], j, PID_J)], i, j);
  }

  lemma TwoPids(rows: seq<Row>, i: nat, j: nat)
    requires i < j < |rows|
    requires forall k :: 0 <= k < |rows| ==> rows[k].pid == if k == i then PID_I else if k == j then PID_J else 0
    ensures FirstWithPid(rows, PID_I, 0) == Some(i) && FirstWithPid(rows, PID_J, 0) == Some(j)
  {
    FirstInRange(rows, PID_I, 0);
    FirstInRange(rows, PID_J, 0);
    assert rows[i].pid == PID_I && rows[j].pid == PID_J;
    hide FirstWithPid;
  }

  lemma QuietRows(cfg: Config, s: State)
    requires Quiet(cfg, s)
    ensures |s.rows| == cfg.n
  {
  }

  lemma PidsKept(rows: seq<Row>, i: nat, r: Row, pid: int, j: nat)
    requires i < |rows| && r.pid == rows[i].pid && FirstWithPid(rows, pid, 0) == Some(j)
    ensures FirstWithPid(rows[i := r], pid, 0) == Some(j)
  {
    var after := rows[i := r];
    FirstInRange(rows, pid, 0);
    FirstInRange(after, pid, 0);
    assert forall k :: 0 <= k < |rows| ==> after[k].pid == rows[k].pid;
    assert after[j].pid == pid;
    hide FirstWithPid;
  }

  /** Two interfaces with one parameter between them: the first is up, the second
      then reports down, and the WAN manager believes the first one down. */
  lemma Misled(cfg: Config, t: WanLookup.WanTable, i: nat, j: nat) returns (s: State)
    requires ValidConfig(cfg) && i < j < cfg.n && cfg.slot[i].Found? && cfg.slot[j].Found?
    requires cfg.slot[i] == WanLookup.Lookup(t, i + 1) && cfg.slot[j] == WanLookup.Lookup(t, j + 1)
    requires SlotKey(cfg, i, LcpStatus) == SlotKey(cfg, j, LcpStatus)
    ensures Quiet(cfg, s) && s.rows[i].status == Up
    ensures SlotKey(cfg, i, LcpStatus) in s.wan && s.wan[SlotKey(cfg, i, LcpStatus)] == VDown
  {
    hide WanLookup.Lookup, FirstWithPid, Inv, Reachable, AllFree;
    var s0 := BothLaunched(cfg, t, i, j);
    var up, down := Report(PID_I, IfUp), Report(PID_J, IfDown);
    var r := StateRow(s0.rows[i], up);
    assert r.pid == s0.rows[i].pid && r.status == Up;
    PidsKept(s0.rows, i, r, PID_J, j);
    var s1 := Delivered(cfg, s0, i, up);
    s := Delivered(cfg, s1, j, down);
  }

  /** Agreement in every such state holds if and only if no two interfaces share a
      parameter. */
  lemma AgreedIffDistinct(n: nat, daemon: bool, unified: bool, t: WanLookup.WanTable)
    requires n <= MAX_INTERFACES
    ensures AlwaysAgreed(ConfigOf(n, daemon, unified, t)) <==> KeysDistinct(ConfigOf(n, daemon, unified, t))
  {
    hide Agreed, Reachable, Progress.Idle, WanLookup.Lookup, SlotKey;
    var cfg := ConfigOf(n, daemon, unified, t);
    if KeysDistinct(cfg) {
      forall s: State, i: nat | Reachable(cfg, s) && s.clean && Progress.Idle(s) && i < cfg.n && i < |s.rows|
        ensures Agreed(cfg, s, i)
      {
        DistinctAgreed(cfg, s, i);
      }
    } else {
      var i: nat, j: nat :| i < j < cfg.n && cfg.slot[i].Found? && cfg.slot[j].Found?
                             && SlotKey(cfg, i, LcpStatus) == SlotKey(cfg, j, LcpStatus);
      var s := Misled(cfg, t, i, j);
      QuietIdle(cfg, s);
      MisledDisagrees(cfg, s, i);
    }
  }

  lemma DistinctAgreed(cfg: Config, s: State, i: nat)
    requires ValidConfig(cfg) && KeysDistinct(cfg) && Reachable(cfg, s) && s.clean && Progress.Idle(s) && i < cfg.n && i < |s.rows|
    ensures Agreed(cfg, s, i)
  {
    hide Reachable, Progress.Idle, Mapped, SlotKey, KeysDistinct, LastOffered, LastNote, Parse;
    EndToEnd(cfg, s, i);
  }

  lemma MisledDisagrees(cfg: Config, s: State, i: nat)
    requires ValidConfig(cfg) && i < cfg.n && i < |s.rows| && cfg.slot[i].Found? && s.rows[i].status == Up
    requires SlotKey(cfg, i, LcpStatus) in s.wan && s.wan[SlotKey(cfg, i, LcpStatus)] == VDown
    ensures !Agreed(cfg, s, i)
  {
    hide SlotKey, Mapped;
  }

  lemma QuietIdle(cfg: Config, s: State)
    requires Quiet(cfg, s)
    ensures Reachable(cfg, s) && s.clean && Progress.Idle(s) && |s.rows| == cfg.n
  {
  }
}
