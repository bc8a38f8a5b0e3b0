/** The handlers as the source runs them: they update the interface records and
    the queue in place, under recursive locks. Each is specified by the outcome of
    its critical section. */
module Manager {
  import opened CText
  import opened Ipcp
  import opened StrTok
  import opened Entries
  import opened Paths
  import opened Program
  import opened Machine
  import opened Sections
  import opened Alone
  import opened Outcomes
  import Tokens
  import Effects
  import Instances
  import Persist
  import VendorScan
  import WanLookup

  /** Texts of a message are C strings. */
  predicate CTexts(m: IpcpMsg) {
    NUL !in m.ip && NUL !in m.gateway && NUL !in m.nameserver
  }

  class PppManager {
    const cfg: Config
    const table: seq<Interface>
    const tokens: Tokenizer
    var locks: seq<LockState>
    var queue: seq<Event>
    var wan: map<string, Verdict>
    /** What the outside answers to the calls that may fail, in order. */
    var answers: seq<Choice>
    ghost var log: seq<Item>

    /** Over the table start-up has made: nothing is queued and every lock is free. */
    constructor (c: Config, entries: seq<Interface>)
      requires ValidConfig(c) && |entries| == c.n && Distinct(entries)
      requires forall i :: 0 <= i < c.n ==> FreshRow(entries[i].View(), i)
      ensures Valid() && cfg == c && table == entries && queue == [] && log == [] && wan == map[]
      ensures forall i :: 0 <= i < cfg.n ==> locks[i] == Free && FreshRow(Rows()[i], i)
    {
      cfg, table := c, entries;
      tokens := new Tokenizer();
      locks := seq(c.n, i => Free);
      queue, wan, answers, log := [], map[], [], [];
      new;
      forall i | 0 <= i < c.n
        ensures table[i].inst == i + 1
      {
        assert FreshRow(entries[i].View(), i);
      }
    }

    /** The table is fixed, its entries are distinct and numbered by position. */
    ghost predicate Valid()
      reads this, table
    {
      && ValidConfig(cfg) && |table| == |locks| == cfg.n
      && (forall i, j :: 0 <= i < j < cfg.n ==> table[i] != table[j])
      && (forall i :: 0 <= i < cfg.n ==> table[i].inst == i + 1)
    }

    ghost function Rows(): (rs: seq<Row>)
      reads this, table
      ensures |rs| == |table| && forall i :: 0 <= i < |table| ==> rs[i] == table[i].View()
    {
      seq(|table|, i requires 0 <= i < |table| reads table => table[i].View())
    }

    /** The abstract value: what the threads share. */
    ghost function Snap(): Shared
      reads this, table
    {
      Shared(Rows(), locks, queue, log)
    }

    /** Only row i was written. */
    twostate lemma OneRow(i: nat)
      requires i < |table| && (forall x, y :: 0 <= x < y < |table| ==> table[x] != table[y])
      requires forall j :: 0 <= j < |table| && j != i ==> unchanged(table[j])
      ensures Rows() == old(Rows())[i := table[i].View()]
    {
    }

    // ----------------------------------------------------------- locks and the queue

    /** PppMgr_GetIfaceData_locked. A lock another thread holds would be waited for. */
    method GetIfaceDataLocked(t: Tid, inst: int) returns (e: Interface?)
      requires Valid() && (1 <= inst <= cfg.n ==> CanTake(locks[inst - 1], t))
      modifies this`locks
      ensures Valid()
      ensures if 1 <= inst <= cfg.n
              then e == table[inst - 1] && locks == old(locks)[inst - 1 := Take(old(locks[inst - 1]), t)]
              else e == null && locks == old(locks)
    {
      if inst <= 0 || cfg.n < inst {
        return null;
      }
      locks := locks[inst - 1 := Take(locks[inst - 1], t)];
      return table[inst - 1];
    }

    /** PppMgr_GetIfaceData_release, of the entry at index i. */
    method GetIfaceDataRelease(t: Tid, i: nat)
      requires Valid() && i < cfg.n && locks[i].Held? && locks[i].owner == t && locks[i].depth > 0
      modifies this`locks
      ensures Valid() && locks == old(locks)[i := if old(locks[i].depth) == 1 then Free else Held(t, old(locks[i].depth) - 1)]
    {
      locks := locks[i := if locks[i].depth == 1 then Free else Held(t, locks[i].depth - 1)];
    }

    ghost predicate OwnsRow(t: Tid, inst: int)
      reads this
    {
      1 <= inst <= |locks| && locks[inst - 1].Held? && locks[inst - 1].owner == t
    }

    /** PppMgr_SendDataToQ. With a full queue a send that will succeed waits. */
    method SendDataToQ(t: Tid, ev: Event) returns (ok: bool)
      requires Valid() && (Head(answers).b ==> |queue| < MAX_QUEUE_LENGTH)
      modifies this`queue, this`answers, this`log
      ensures Valid() && ok == Head(old(answers)).b && answers == Tail(old(answers))
      ensures queue == old(queue) + (if ok then [ev] else [])
      ensures log == old(log) + [Offered(t, ev, OwnsRow(t, ev.inst), ok)]
    {
      ok := answers != [] && answers[0].b;
      answers := if answers == [] then [] else answers[1..];
      if ok {
        queue := queue + [ev];
      }
      log := log + [Offered(t, ev, OwnsRow(t, ev.inst), ok)];
    }

    // ----------------------------------------------------------- socket messages

    /** PppMgr_getIfaceDataWithPid: the lowest row with this pid. */
    method GetIfaceDataWithPid(pid: int) returns (inst: int)
      requires Valid() && (forall i :: 0 <= i < cfg.n ==> locks[i] == Free)
      modifies this`locks
      ensures Valid() && locks == old(locks)
      ensures match FirstWithPid(Rows(), pid, 0)
              case None => inst == -1
              case Some(i) => inst == i + 1
    {
      inst := -1;
      var i := 1;
      while i <= cfg.n
        invariant 1 <= i <= cfg.n + 1 && Valid() && locks == old(locks) && inst == -1
        invariant FirstWithPid(Rows(), pid, 0) == FirstWithPid(Rows(), pid, i - 1)
      {
        var e := GetIfaceDataLocked(Ev, i);
        if e.pid == pid {
          inst := e.inst;
          GetIfaceDataRelease(Ev, i - 1);
          break;
        }
        GetIfaceDataRelease(Ev, i - 1);
        i := i + 1;
      }
    }

    /** The two link parameters are told one after the other, under the lock. */
    method TellLink(i: nat, v: Verdict) returns (ok: bool)
      requires Valid() && i < cfg.n && OwnsRow(Ev, i + 1) && |queue| + 2 <= MAX_QUEUE_LENGTH
      modifies this`queue, this`answers, this`log
      ensures Valid() && ok == (Head(old(answers)).b && Head(Tail(old(answers))).b)
      ensures queue == old(queue) + Taken(LinkItems(i, v, old(answers)))
      ensures log == old(log) + LinkItems(i, v, old(answers)) && answers == LinkRest(old(answers))
    {
      TakenLink(i, v, answers);
      ok := SendDataToQ(Ev, BusSet(i + 1, LcpStatus, v));
      if !ok {
        return;
      }
      ok := SendDataToQ(Ev, BusSet(i + 1, LinkStatus, v));
    }

    /** PppMgr_ProcessStateChangedMsg. */
    method ProcessStateChangedMsg(inst: int, m: Msg) returns (ok: bool)
      requires Valid() && (1 <= inst <= cfg.n ==> locks[inst - 1] == Free) && |queue| + 2 <= MAX_QUEUE_LENGTH
      modifies this`locks, this`queue, this`answers, this`log, table
      ensures Valid()
      ensures if 1 <= inst <= cfg.n
              then var o := StateOutcome(inst - 1, m, old(table[inst - 1].View()), old(answers));
                   Snap() == Played(old(Snap()), inst - 1, o) && answers == o.left
              else !ok && Snap() == old(Snap()) && answers == old(answers)
    {
      if inst <= 0 {
        return false;
      }
      var e := GetIfaceDataLocked(Ev, inst);
      if e == null {
        return false;
      }
      ghost var o := StateOutcome(inst - 1, m, e.View(), answers);
      hide Taken, StateOutcome;
      ok := StateSection(inst - 1, m);
      GetIfaceDataRelease(Ev, inst - 1);
      OneRow(inst - 1);
      PlayedIs(old(Snap()), Snap(), inst - 1, o);
    }

    /** The locked part of the state handler. */
    method StateSection(i: nat, m: Msg) returns (ok: bool)
      requires Valid() && i < cfg.n && OwnsRow(Ev, i + 1) && |queue| + 2 <= MAX_QUEUE_LENGTH
      modifies this`queue, this`answers, this`log, table[i]
      ensures Valid()
      ensures var o := StateOutcome(i, m, old(table[i].View()), old(answers));
              && table[i].View() == o.row && answers == o.left
              && queue == old(queue) + Taken(o.items) && log == old(log) + o.items
    {
      StateKeepsInst(table[i].View(), m);
      hide Taken, LinkItems, LinkRest, StateRow, StateVerdict;
      var link := StoreState(table[i], m);
      ok := true;
      if link.Some? {
        ok := TellLink(i, link.value);
      } else {
        NoneTaken();
      }
    }

    /** PppMgr_SetIPCPStatusDown and its two siblings. */
    method SetStatusDown(t: Tid, inst: int, param: Param) returns (ok: bool)
      requires Valid() && (Head(answers).b ==> |queue| < MAX_QUEUE_LENGTH)
      modifies this`queue, this`answers, this`log
      ensures Valid() && ok == Head(old(answers)).b && answers == Tail(old(answers))
      ensures queue == old(queue) + (if ok then [BusSet(inst, param, VDown)] else [])
      ensures log == old(log) + [Offered(t, BusSet(inst, param, VDown), OwnsRow(t, inst), ok)]
    {
      ok := SendDataToQ(t, BusSet(inst, param, VDown));
    }

    /** PppMgr_ProcessIpcpParams. The message is the handler's own copy: the
        tokenizer cuts it up. */
    method ProcessIpcpParams(inst: int, m: Msg) returns (ok: bool)
      requires Valid() && CTexts(m.ipcp) && (Head(answers).b ==> |queue| < MAX_QUEUE_LENGTH)
      requires 1 <= inst <= cfg.n ==> locks[inst - 1] == Free
      modifies this`locks, this`queue, this`answers, this`log, table, tokens
      ensures Valid()
      ensures var h := HandleIpcp(old(Snap()), inst, m, old(answers)); Snap() == h.sh && answers == h.left
    {
      hide Taken, IpcpOutcome, CTexts;
      if inst <= 0 {
        return false;
      }
      if m.state != IpcpCompleted || m.ipcp.ip == "" || m.ipcp.gateway == "" || m.ipcp.nameserver == "" {
        RejectUnlocked(inst);
        return false;
      }
      var e := GetIfaceDataLocked(Ev, inst);
      if e == null {
        return false;
      }
      ghost var o := IpcpOutcome(inst - 1, m.ipcp, e.View(), answers);
      ok := IpcpSection(inst - 1, m.ipcp);
      GetIfaceDataRelease(Ev, inst - 1);
      OneRow(inst - 1);
      PlayedIs(old(Snap()), Snap(), inst - 1, o);
    }

    /** The locked part of the IPCP handler. */
    method IpcpSection(i: nat, m: IpcpMsg) returns (ok: bool)
      requires Valid() && i < cfg.n && OwnsRow(Ev, i + 1) && CTexts(m) && AllPresent(m)
      requires Head(answers).b ==> |queue| < MAX_QUEUE_LENGTH
      modifies this`queue, this`answers, this`log, table[i], tokens
      ensures Valid()
      ensures var o := IpcpOutcome(i, m, old(table[i].View()), old(answers));
              && table[i].View() == o.row && answers == o.left
              && queue == old(queue) + Taken(o.items) && log == old(log) + o.items
    {
      IpcpKeepsInst(table[i].View(), m);
      hide Taken, IpcpRow, IpcpItems, Acceptable, CTexts;
      ok := StoreIpcp(tokens, table[i], m);
      ok := TellIpcp(i, m, ok);
    }

    /** The verdict on an IPCP message, told under the lock. */
    method TellIpcp(i: nat, m: IpcpMsg, stored: bool) returns (ok: bool)
      requires Valid() && i < cfg.n && OwnsRow(Ev, i + 1) && stored == Acceptable(m)
      requires Head(answers).b ==> |queue| < MAX_QUEUE_LENGTH
      modifies this`queue, this`answers, this`log
      ensures Valid() && answers == Tail(old(answers))
      ensures queue == old(queue) + Taken(IpcpItems(i, m, Head(old(answers)))) && log == old(log) + IpcpItems(i, m, Head(old(answers)))
    {
      TakenIpcp(i, m, Head(answers));
      hide Taken, Acceptable;
      if stored {
        log := log + [Noted(NCompleted(i, m))];
        ok := SendDataToQ(Ev, BusSet(table[i].inst, IpcpStatus, VUp));
      } else {
        var _ := SetStatusDown(Ev, table[i].inst, IpcpStatus);
        ok := false;
      }
    }

    /** The rejection of an IPCP message that is incomplete: no lock is taken. */
    method RejectUnlocked(inst: int)
      requires Valid() && (Head(answers).b ==> |queue| < MAX_QUEUE_LENGTH) && !OwnsRow(Ev, inst)
      modifies this`queue, this`answers, this`log
      ensures Valid()
      ensures var h := Rejected(old(Snap()), inst, old(answers)); Snap() == h.sh && answers == h.left
    {
      TakenOne(Offered(Ev, BusSet(inst, IpcpStatus, VDown), false, Head(answers).b));
      hide Taken;
      var _ := SetStatusDown(Ev, inst, IpcpStatus);
    }

    /** PppMgr_ProcessIpv6cpParams. */
    method ProcessIpv6cpParams(inst: int, m: Msg) returns (ok: bool)
      requires Valid() && (Head(answers).b ==> |queue| < MAX_QUEUE_LENGTH)
      requires 1 <= inst <= cfg.n ==> locks[inst - 1] == Free
      modifies this`locks, this`queue, this`answers, this`log, table
      ensures Valid()
      ensures if 1 <= inst <= cfg.n
              then var o := Ipv6cpOutcome(inst - 1, m, old(table[inst - 1].View()), old(answers));
                   Snap() == Played(old(Snap()), inst - 1, o) && answers == o.left
              else Snap() == old(Snap()) && answers == old(answers)
    {
      if inst <= 0 {
        return false;
      }
      var e := GetIfaceDataLocked(Ev, inst);
      if e == null {
        return true;
      }
      ghost var o := Ipv6cpOutcome(inst - 1, m, e.View(), answers);
      hide Taken, Ipv6cpOutcome;
      ok := Ipv6cpSection(inst - 1, m);
      GetIfaceDataRelease(Ev, inst - 1);
      OneRow(inst - 1);
      PlayedIs(old(Snap()), Snap(), inst - 1, o);
    }

    /** The locked part of the IPv6CP handler. */
    method Ipv6cpSection(i: nat, m: Msg) returns (ok: bool)
      requires Valid() && i < cfg.n && OwnsRow(Ev, i + 1) && (Head(answers).b ==> |queue| < MAX_QUEUE_LENGTH)
      modifies this`queue, this`answers, this`log, table[i]
      ensures Valid()
      ensures var o := Ipv6cpOutcome(i, m, old(table[i].View()), old(answers));
              && table[i].View() == o.row && answers == o.left
              && queue == old(queue) + Taken(o.items) && log == old(log) + o.items
    {
      TakenOne(Ipv6cpOutcome(i, m, table[i].View(), answers).items[0]);
      Ipv6cpKeepsInst(table[i].View(), m);
      hide Taken, Ipv6cpRow;
      StoreIpv6cp(table[i], m);
      if m.state == Ipv6cpCompleted {
        ok := SendDataToQ(Ev, BusSet(table[i].inst, Ipv6cpStatus, VUp));
      } else {
        var _ := SetStatusDown(Ev, table[i].inst, Ipv6cpStatus);
        ok := true;
      }
    }

    /** PppMgr_ProcessPppState: finds the interface by pid and routes the message. */
    method ProcessPppState(m: Msg) returns (ok: bool)
      requires Valid() && CTexts(m.ipcp) && |queue| + 2 <= MAX_QUEUE_LENGTH
      requires forall i :: 0 <= i < cfg.n ==> locks[i] == Free
      modifies this`locks, this`queue, this`answers, this`log, table, tokens
      ensures Valid()
      ensures var h := HandleMessage(old(Snap()), m, old(answers)); Snap() == h.sh && answers == h.left
    {
      if !m.stateChange {
        return false;
      }
      FirstInRange(Rows(), m.pid, 0);
      ghost var s0 := Snap();
      hide FirstWithPid, HandleRouted;
      var inst := GetIfaceDataWithPid(m.pid);
      assert Snap() == s0;
      if inst == -1 {
        return false;
      }
      ok := Route(inst, m);
    }

    /** The switch that routes a message to its handler. */
    method Route(inst: int, m: Msg) returns (ok: bool)
      requires Valid() && CTexts(m.ipcp) && |queue| + 2 <= MAX_QUEUE_LENGTH && 1 <= inst <= cfg.n && locks[inst - 1] == Free
      modifies this`locks, this`queue, this`answers, this`log, table, tokens
      ensures Valid()
      ensures var h := HandleRouted(old(Snap()), inst - 1, m, old(answers)); Snap() == h.sh && answers == h.left
    {
      hide Played, StateOutcome, Ipv6cpOutcome, HandleIpcp, HandleRouted, CTexts;
      RoutedIs(Snap(), inst - 1, m, answers);
      if m.state in {IpcpCompleted, IpcpFailed} {
        ok := ProcessIpcpParams(inst, m);
      } else if m.state in {Ipv6cpCompleted, Ipv6cpFailed} {
        ok := ProcessIpv6cpParams(inst, m);
      } else if m.state == OtherState {
        ok := false;
      } else {
        ok := ProcessStateChangedMsg(inst, m);
      }
    }

    // ----------------------------------------------------------- the API

    /** A lock that the calling thread already holds, or nobody. */
    ghost predicate Own(t: Tid, i: nat)
      requires i < |locks|
      reads this
    {
      locks[i].Held? && locks[i].owner == t && locks[i].depth > 0
    }

    /** PppMgr_SendPppdStartEventToQ, called by an API thread that holds the row. */
    method SendPppdStartEventToQ(a: Tid, inst: int) returns (ok: bool)
      requires Valid() && 1 <= inst <= cfg.n && Own(a, inst - 1) && (Head(answers).b ==> |queue| < MAX_QUEUE_LENGTH)
      modifies this`locks, this`queue, this`answers, this`log, table[inst - 1]
      ensures Valid() && locks == old(locks) && ok == Head(old(answers)).b && answers == Tail(old(answers))
      ensures var r, x := old(table[inst - 1].View()), [LaunchItem(a, inst - 1, Head(old(answers)))];
              && table[inst - 1].View() == r.(enabled := ok || r.enabled)
              && queue == old(queue) + Taken(x) && log == old(log) + x
    {
      var e := GetIfaceDataLocked(a, inst);
      TakenOne(LaunchItem(a, inst - 1, Head(answers)));
      hide Taken;
      ok := SendDataToQ(a, Exec(e.inst));
      if ok {
        e.enabled := true;
      }
      GetIfaceDataRelease(a, inst - 1);
    }

    /** PppMgr_StopPppClient, called by an API thread that holds the row: the Downs
        follow the release of the inner acquisition. */
    method StopPppClient(a: Tid, inst: int) returns (ok: bool)
      requires Valid() && 1 <= inst <= cfg.n && Own(a, inst - 1) && |queue| + 3 <= MAX_QUEUE_LENGTH
      modifies this`locks, this`queue, this`answers, this`log, table[inst - 1]
      ensures Valid() && locks == old(locks) && ok && answers == StopRest(old(answers)) && |queue| <= |old(queue)| + 3
      ensures table[inst - 1].View() == StoppedRow(cfg, old(table[inst - 1].View()))
      ensures var x := StopItems(a, inst - 1, old(answers)); queue == old(queue) + Taken(x) && log == old(log) + x
    {
      ghost var items := StopItems(a, inst - 1, answers);
      TakenStop(a, inst - 1, answers);
      assert items == [Noted(NCleared(inst - 1))] + items[1..];
      hide Taken, StoppedRow, StopItems;
      ClearStopped(a, inst);
      log := log + [Noted(NCleared(inst - 1))];
      TellDown(a, inst);
      return true;
    }

    /** The inner critical section of a stop. */
    method ClearStopped(a: Tid, inst: int)
      requires Valid() && 1 <= inst <= cfg.n && Own(a, inst - 1)
      modifies this`locks, table[inst - 1]
      ensures Valid() && locks == old(locks) && table[inst - 1].View() == StoppedRow(cfg, old(table[inst - 1].View()))
    {
      var e := GetIfaceDataLocked(a, inst);
      ClearEntry(e, cfg.daemon);
      GetIfaceDataRelease(a, inst - 1);
    }

    /** The three Downs of a stop, one after the other. */
    method TellDown(a: Tid, inst: int)
      requires Valid() && OwnsRow(a, inst) && |queue| + 3 <= MAX_QUEUE_LENGTH
      modifies this`queue, this`answers, this`log
      ensures Valid() && answers == StopRest(old(answers))
      ensures log == old(log) + StopItems(a, inst - 1, old(answers))[1..]
      ensures var cs := old(answers);
              queue == old(queue) + (DownIf(inst - 1, LcpStatus, Head(cs)) + DownIf(inst - 1, IpcpStatus, Head(Tail(cs)))
                                     + DownIf(inst - 1, Ipv6cpStatus, Head(Tail(Tail(cs)))))
    {
      var _ := SetStatusDown(a, inst, LcpStatus);
      var _ := SetStatusDown(a, inst, IpcpStatus);
      var _ := SetStatusDown(a, inst, Ipv6cpStatus);
    }

    /** PppMgr_EnableIf. */
    method EnableIf(a: Tid, inst: int, on: bool) returns (ok: bool)
      requires Valid() && 1 <= inst <= cfg.n && Own(a, inst - 1) && |queue| + 3 <= MAX_QUEUE_LENGTH
      modifies this`locks, this`queue, this`answers, this`log, table[inst - 1]
      ensures Valid() && locks == old(locks)
      ensures var o := ApiOutcome(cfg, a, Enable(inst - 1, on), old(table[inst - 1].View()), old(answers));
              && table[inst - 1].View() == o.row && answers == o.left
              && queue == old(queue) + Taken(o.items) && log == old(log) + o.items
    {
      hide Taken;
      if on {
        ok := SendPppdStartEventToQ(a, inst);
      } else {
        ok := StopPppClient(a, inst);
      }
    }

    /** PppDmlIfReset: stop, then ask for a start. */
    method IfReset(a: Tid, inst: int) returns (ok: bool)
      requires Valid() && 1 <= inst <= cfg.n && Own(a, inst - 1) && |queue| + 4 <= MAX_QUEUE_LENGTH && table[inst - 1].enabled
      modifies this`locks, this`queue, this`answers, this`log, table[inst - 1]
      ensures Valid() && locks == old(locks)
      ensures var o := ApiOutcome(cfg, a, Reset(inst - 1, true), old(table[inst - 1].View()), old(answers));
              && table[inst - 1].View() == o.row && answers == o.left
              && queue == old(queue) + Taken(o.items) && log == old(log) + o.items
    {
      ghost var r, cs := table[inst - 1].View(), answers;
      ghost var x, y := StopItems(a, inst - 1, cs), [LaunchItem(a, inst - 1, Head(StopRest(cs)))];
      assert !StoppedRow(cfg, r).enabled;
      TakenParts(x, y);
      ResetIs(cfg, a, inst - 1, r, cs);
      hide Taken, StopItems, StoppedRow, LaunchItem, StopRest, ApiOutcome;
      ok := StopPppClient(a, inst);
      if !ok {
        return;
      }
      ok := SendPppdStartEventToQ(a, inst);
      assert queue == old(queue) + (Taken(x) + Taken(y)) && log == old(log) + (x + y);
    }

    /** Interface_SetParamBoolValue, the two parameters that act. */
    method SetParamBoolValue(a: Tid, i: nat, name: string, value: bool) returns (ok: bool)
      requires Valid() && i < cfg.n && locks[i] == Free && |queue| + 4 <= MAX_QUEUE_LENGTH
      modifies this`locks, this`queue, this`answers, this`log, table
      ensures Valid()
      ensures var o := SetOutcome(cfg, a, i, name, value, old(table[i].View()), old(answers));
              Snap() == Played(old(Snap()), i, o) && answers == o.left
    {
      ghost var o := SetOutcome(cfg, a, i, name, value, table[i].View(), answers);
      hide SetOutcome, Taken;
      locks := locks[i := Take(locks[i], a)];
      ok := ActOn(a, i, name, value);
      GetIfaceDataRelease(a, i);
      OneRow(i);
      PlayedIs(old(Snap()), Snap(), i, o);
    }

    /** The setter's ladder, under the entry's lock. */
    method ActOn(a: Tid, i: nat, name: string, value: bool) returns (ok: bool)
      requires Valid() && i < cfg.n && Own(a, i) && |queue| + 4 <= MAX_QUEUE_LENGTH
      modifies this`locks, this`queue, this`answers, this`log, table[i]
      ensures Valid() && locks == old(locks)
      ensures var o := SetOutcome(cfg, a, i, name, value, old(table[i].View()), old(answers));
              && table[i].View() == o.row && answers == o.left
              && queue == old(queue) + Taken(o.items) && log == old(log) + o.items
    {
      ok := true;
      NoneTaken();
      ResetRefused(cfg, a, i, value, table[i].View(), answers);
      assert queue + [] == queue && log + [] == log;
      hide ApiOutcome, Taken;
      if name == "Enable" {
        ok := EnableIf(a, table[i].inst, value);
      }
      if name == "Reset" {
        if table[i].enabled && value {
          ok := IfReset(a, table[i].inst);
        } else {
          ok := false;
        }
      }
    }

    /** Interface_GetEntry numbers the entry again. */
    method GetEntry(a: Tid, i: nat) returns (inst: int)
      requires Valid() && i < cfg.n && locks[i] == Free
      modifies this`locks, table
      ensures Valid() && inst == i + 1 && Snap() == old(Snap())
    {
      locks := locks[i := Take(locks[i], a)];
      table[i].inst := i + 1;
      inst := table[i].inst;
      GetIfaceDataRelease(a, i);
      OneRow(i);
    }

    // ----------------------------------------------------------- delivering

    /** PppMgr_StartPppClient. It uses the row of its interface without a test. The
        outside gives the WAN manager's answers and the pid a new client gets. */
    method StartPppClient(inst: int, t: WanLookup.WanTable, newPid: nat) returns (ok: bool)
      requires Valid() && 1 <= inst <= cfg.n && locks[inst - 1] == Free
      modifies this`locks, this`answers, table[inst - 1]
      ensures Valid() && locks == old(locks)
      ensures var o := LaunchOutcome(t, inst, newPid, old(table[inst - 1].View()), old(answers));
              table[inst - 1].View() == o.row && answers == o.left
    {
      hide WanLookup.Lookup, StartOutcome, StatusName;
      var found, w, v := FindSlot(inst, t);
      if !found {
        return false;
      }
      var _ := GetIfaceDataLocked(Ev, inst);
      ok := LaunchSection(inst - 1, w, v, newPid);
      GetIfaceDataRelease(Ev, inst - 1);
    }

    /** The lookup as its caller judges it: both outputs must differ from -1. */
    method FindSlot(inst: nat, t: WanLookup.WanTable) returns (found: bool, w: int, v: int)
      ensures found == WanLookup.Lookup(t, inst).Found?
      ensures found ==> WanLookup.Lookup(t, inst) == WanLookup.Found(w, v) && w != -1 && v != -1
    {
      SlotsExist(t, inst);
      hide WanLookup.Lookup;
      var _, i, j := WanLookup.GetWanIfaceInstance(t, inst, -1, -1);
      found, w, v := i != -1 && j != -1, i, j;
    }

    /** The locked part of the launch. */
    method LaunchSection(i: nat, w: int, v: int, newPid: nat) returns (ok: bool)
      requires Valid() && i < cfg.n && w != -1 && v != -1
      modifies this`answers, table[i]
      ensures Valid()
      ensures var o := StartOutcome(WanLookup.Found(w, v), newPid, old(table[i].View()), old(answers));
              table[i].View() == o.row && answers == o.left
    {
      NothingStarted(WanLookup.Found(w, v), newPid, table[i].View(), answers);
      hide StartOutcome;
      ok := LaunchClient(table[i], w, v, newPid);
    }

    /** Asks the outside; no answer counts as a failure. */
    method Ask() returns (good: bool)
      modifies this`answers
      ensures good == Head(old(answers)).b && answers == Tail(old(answers))
    {
      good := answers != [] && answers[0].b;
      answers := if answers == [] then [] else answers[1..];
    }

    /** The launch, on the entry. */
    method LaunchClient(e: Interface, w: int, v: int, newPid: nat) returns (ok: bool)
      requires w != -1 && v != -1
      modifies this`answers, e
      ensures var o := StartOutcome(WanLookup.Found(w, v), newPid, old(e.View()), old(answers)); e.View() == o.row && answers == o.left
    {
      var alive := Ask();
      if alive && e.pid != 0 {
        return true;
      }
      e.pid := 0;
      if e.auth == NoAuth {
        return false;
      }
      var named := Ask();
      if !named {
        return false;
      }
      var lower := Ask();
      if !lower {
        return false;
      }
      e.pid := newPid;
      e.wan := w;
      e.virt := v;
      return true;
    }

    /** PppMgr_ProcessPppEvent for one event taken from the queue. */
    method ProcessPppEvent(ev: Event, t: WanLookup.WanTable, newPid: nat) returns (ok: bool)
      requires Valid() && 1 <= ev.inst <= cfg.n && locks[ev.inst - 1] == Free
      modifies this`locks, this`answers, this`wan, table[ev.inst - 1]
      ensures Valid() && locks == old(locks)
      ensures ev.BusSet? ==>
                var r := old(table[ev.inst - 1].View());
                && table[ev.inst - 1].View() == r && answers == Tail(old(answers))
                && wan == if Head(old(answers)).b then old(wan)[StatusName(cfg.unified, ev.param, r.wan, r.virt) := ev.val] else old(wan)
      ensures ev.Exec? ==>
                var o := LaunchOutcome(t, ev.inst, newPid, old(table[ev.inst - 1].View()), old(answers));
                table[ev.inst - 1].View() == o.row && answers == o.left && wan == old(wan)
    {
      hide LaunchOutcome, StatusName;
      match ev {
        case BusSet(inst, param, val) =>
          var w, v := -1, -1;
          var e := GetIfaceDataLocked(Ev, inst);
          if e != null {
            w, v := e.wan, e.virt;
            GetIfaceDataRelease(Ev, inst - 1);
          }
          ok := Ask();
          if ok {
            wan := wan[StatusName(cfg.unified, param, w, v) := val];
          }
        case Exec(inst) =>
          var _ := StartPppClient(inst, t, newPid);
          ok := true;
      }
    }

    /** One turn of the event thread: a message, if one is there, then an event, if
        one is queued. */
    method Turn(msg: Option<Msg>, t: WanLookup.WanTable, newPid: nat)
      requires Valid() && (msg.Some? ==> CTexts(msg.value.ipcp)) && |queue| + 2 <= MAX_QUEUE_LENGTH
      requires forall i :: 0 <= i < cfg.n ==> locks[i] == Free
      requires forall k :: 0 <= k < |queue| ==> 1 <= queue[k].inst <= cfg.n
      modifies this`locks, this`queue, this`answers, this`log, this`wan, table, tokens
      ensures Valid()
      ensures var h := if msg.Some? then HandleMessage(old(Snap()), msg.value, old(answers)) else Handled(old(Snap()), old(answers));
              HandleTurn(h, t, newPid) == Handled(Snap(), answers) && wan == TurnWan(cfg, h, old(wan))
    {
      if msg.Some? {
        OnlyTheMatch(Snap(), msg.value, answers);
        FirstInRange(Rows(), msg.value.pid, 0);
        hide HandleMessage, HandleTurn, TurnWan, FirstWithPid;
        var _ := ProcessPppState(msg.value);
      }
      hide HandleMessage;
      TakeNext(t, newPid);
    }

    /** mq_receive, and the delivery of what it gave. */
    method TakeNext(t: WanLookup.WanTable, newPid: nat)
      requires Valid() && (forall i :: 0 <= i < cfg.n ==> locks[i] == Free)
      requires queue != [] ==> 1 <= queue[0].inst <= cfg.n
      modifies this`locks, this`queue, this`answers, this`wan, table
      ensures Valid()
      ensures HandleTurn(Handled(old(Snap()), old(answers)), t, newPid) == Handled(Snap(), answers)
      ensures wan == TurnWan(cfg, Handled(old(Snap()), old(answers)), old(wan))
    {
      if queue != [] {
        var ev := queue[0];
        TurnIs(cfg, Handled(Snap(), answers), wan, t, newPid);
        hide HandleTurn, TurnWan, StatusName, LaunchOutcome;
        queue := queue[1..];
        var _ := ProcessPppEvent(ev, t, newPid);
        OneRow(ev.inst - 1);
      }
    }
  }

  // ------------------------------------------------------------- what handlers do

  /** A shared state, and the answers not asked for. */
  datatype Handled = Handled(sh: Shared, left: seq<Choice>)

  function PlayedBy(sh: Shared, i: nat, o: Outcome): Handled
    requires i < |sh.rows|
  {
    Handled(Played(sh, i, o), o.left)
  }

  /** A rejection that is told without the lock. */
  function Rejected(sh: Shared, inst: int, cs: seq<Choice>): Handled {
    var item := Offered(Ev, BusSet(inst, IpcpStatus, VDown), false, Head(cs).b);
    Handled(sh.(queue := sh.queue + Taken([item]), log := sh.log + [item]), Tail(cs))
  }

  function HandleIpcp(sh: Shared, inst: int, m: Msg, cs: seq<Choice>): Handled {
    if inst <= 0 then Handled(sh, cs)
    else if m.state != IpcpCompleted || !AllPresent(m.ipcp) then Rejected(sh, inst, cs)
    else if inst > |sh.rows| then Handled(sh, cs)
    else PlayedBy(sh, inst - 1, IpcpOutcome(inst - 1, m.ipcp, sh.rows[inst - 1], cs))
  }

  /** What a message does: nothing without a matching pid, otherwise what its
      handler does to the lowest row that matches. */
  function HandleMessage(sh: Shared, m: Msg, cs: seq<Choice>): Handled {
    if !m.stateChange || FirstWithPid(sh.rows, m.pid, 0).None? then Handled(sh, cs)
    else
      FirstInRange(sh.rows, m.pid, 0);
      HandleRouted(sh, FirstWithPid(sh.rows, m.pid, 0).value, m, cs)
  }

  function HandleRouted(sh: Shared, i: nat, m: Msg, cs: seq<Choice>): Handled
    requires i < |sh.rows|
  {
    match m.state
    case IpcpCompleted => HandleIpcp(sh, i + 1, m, cs)
    case IpcpFailed => HandleIpcp(sh, i + 1, m, cs)
    case Ipv6cpCompleted => PlayedBy(sh, i, Ipv6cpOutcome(i, m, sh.rows[i], cs))
    case Ipv6cpFailed => PlayedBy(sh, i, Ipv6cpOutcome(i, m, sh.rows[i], cs))
    case OtherState => Handled(sh, cs)
    case _ => PlayedBy(sh, i, StateOutcome(i, m, sh.rows[i], cs))
  }

  lemma RoutedIs(sh: Shared, i: nat, m: Msg, cs: seq<Choice>)
    requires i < |sh.rows|
    ensures HandleRouted(sh, i, m, cs) ==
            if m.state in {IpcpCompleted, IpcpFailed} then HandleIpcp(sh, i + 1, m, cs)
            else if m.state in {Ipv6cpCompleted, Ipv6cpFailed} then PlayedBy(sh, i, Ipv6cpOutcome(i, m, sh.rows[i], cs))
            else if m.state == OtherState then Handled(sh, cs)
            else PlayedBy(sh, i, StateOutcome(i, m, sh.rows[i], cs))
  {
    hide HandleIpcp, Ipv6cpOutcome, StateOutcome, Played;
  }

  /** What setting a parameter of interface i does; two names act. */
  function SetOutcome(cfg: Config, a: Tid, i: nat, name: string, value: bool, r: Row, cs: seq<Choice>): Outcome {
    if name == "Enable" then ApiOutcome(cfg, a, Enable(i, value), r, cs)
    else if name == "Reset" then ApiOutcome(cfg, a, Reset(i, value), r, cs)
    else Outcome([], r, Done, cs)
  }

  /** In fields and events: Enable starts or stops, Reset stops and starts an enabled
      interface if asked to, and other names do nothing. */
  lemma SettingMeans(cfg: Config, a: Tid, i: nat, name: string, value: bool, r: Row, cs: seq<Choice>)
    ensures var o := SetOutcome(cfg, a, i, name, value, r, cs);
            var b1, b2, b3, b4 := Head(cs).b, Head(Tail(cs)).b, Head(Tail(Tail(cs))).b, Head(Tail(Tail(Tail(cs)))).b;
            var off := r.(enabled := false, pid := if cfg.daemon then 0 else r.pid, status := Down, conn := Unconfigured,
                          local := [0, 0, 0, 0], remote := [0, 0, 0, 0], dns0 := [0, 0, 0, 0], dns1 := [0, 0, 0, 0],
                          ip6Local := "", ip6Remote := "");
            var downs := [Noted(NCleared(i)),
                          Offered(a, BusSet(i + 1, LcpStatus, VDown), true, b1),
                          Offered(a, BusSet(i + 1, IpcpStatus, VDown), true, b2),
                          Offered(a, BusSet(i + 1, Ipv6cpStatus, VDown), true, b3)];
            && (name == "Enable" && value ==>
                  o.items == [Offered(a, Exec(i + 1), true, b1)] && o.row == if b1 then r.(enabled := true) else r)
            && (name == "Enable" && !value ==> o.items == downs && o.row == off)
            && (name == "Reset" && value && r.enabled ==>
                  o.items == downs + [Offered(a, Exec(i + 1), true, b4)] && o.row == off.(enabled := b4))
            && (name == "Reset" && !(value && r.enabled) ==> o.items == [] && o.row == r && o.left == cs)
            && (name != "Enable" && name != "Reset" ==> o.items == [] && o.row == r && o.left == cs)
  {
    Effects.StopMeans(cfg, a, i, r, cs);
    hide StoppedRow, StopItems;
  }

  lemma ResetIs(cfg: Config, a: Tid, i: nat, r: Row, cs: seq<Choice>)
    requires r.enabled
    ensures var later := StopRest(cs);
            ApiOutcome(cfg, a, Reset(i, true), r, cs) ==
            Outcome(StopItems(a, i, cs) + [LaunchItem(a, i, Head(later))], StoppedRow(cfg, r).(enabled := Head(later).b), Done, Tail(later))
  {
  }

  lemma ResetRefused(cfg: Config, a: Tid, i: nat, value: bool, r: Row, cs: seq<Choice>)
    ensures !(r.enabled && value) ==> ApiOutcome(cfg, a, Reset(i, value), r, cs) == Outcome([], r, Done, cs)
  {
  }

  /** A launch: nothing without a WAN slot. */
  function LaunchOutcome(t: WanLookup.WanTable, inst: nat, newPid: nat, r: Row, cs: seq<Choice>): Outcome {
    var slot := WanLookup.Lookup(t, inst);
    if slot.Found? then StartOutcome(slot, newPid, r, cs) else Outcome([], r, Done, cs)
  }

  function HandleStart(sh: Shared, inst: int, t: WanLookup.WanTable, newPid: nat, cs: seq<Choice>): Handled
    requires 1 <= inst <= |sh.rows|
  {
    PlayedBy(sh, inst - 1, LaunchOutcome(t, inst, newPid, sh.rows[inst - 1], cs))
  }

  /** A turn with an event, in terms of the row it names. */
  lemma TurnIs(cfg: Config, h: Handled, wan: map<string, Verdict>, t: WanLookup.WanTable, newPid: nat)
    requires h.sh.queue != [] && 1 <= h.sh.queue[0].inst <= |h.sh.rows|
    ensures var ev, sh := h.sh.queue[0], h.sh.(queue := h.sh.queue[1..]);
            var r := sh.rows[ev.inst - 1];
            var o := LaunchOutcome(t, ev.inst, newPid, r, h.left);
            && HandleTurn(h, t, newPid)
               == (if ev.BusSet? then Handled(sh.(rows := sh.rows[ev.inst - 1 := r]), Tail(h.left))
                   else Handled(sh.(rows := sh.rows[ev.inst - 1 := o.row]), o.left))
            && TurnWan(cfg, h, wan)
               == (if ev.BusSet? && Head(h.left).b then wan[StatusName(cfg.unified, ev.param, r.wan, r.virt) := ev.val] else wan)
  {
    var ev, sh := h.sh.queue[0], h.sh.(queue := h.sh.queue[1..]);
    StartHandled(sh, ev.inst, t, newPid, h.left);
    SameRows(sh, ev.inst - 1);
    hide HandleStart, StatusName, LaunchOutcome;
  }

  lemma StartHandled(sh: Shared, inst: int, t: WanLookup.WanTable, newPid: nat, cs: seq<Choice>)
    requires 1 <= inst <= |sh.rows|
    ensures var o := LaunchOutcome(t, inst, newPid, sh.rows[inst - 1], cs);
            && o.items == [] && HandleStart(sh, inst, t, newPid, cs) == Handled(sh.(rows := sh.rows[inst - 1 := o.row]), o.left)
            && sh.queue + Taken([]) == sh.queue && sh.log + [] == sh.log
  {
    assert sh.queue + [] == sh.queue && sh.log + [] == sh.log;
    hide WanLookup.Lookup;
  }

  lemma SameRows(sh: Shared, i: nat)
    requires i < |sh.rows|
    ensures sh.rows[i := sh.rows[i]] == sh.rows
  {
  }

  lemma NothingStarted(slot: WanLookup.Outcome, pid: nat, r: Row, cs: seq<Choice>)
    requires slot.Found?
    ensures StartOutcome(slot, pid, r, cs).items == [] && StartOutcome(slot, pid, r, cs).row.inst == r.inst && Taken([]) == []
  {
  }

  lemma SlotsExist(t: WanLookup.WanTable, inst: nat)
    ensures WanLookup.Lookup(t, inst).Found? ==> WanLookup.Lookup(t, inst).iface >= 1 && WanLookup.Lookup(t, inst).virt >= 1
  {
    if WanLookup.Lookup(t, inst).Found? {
      WanLookup.SlotPositive(t, inst);
    }
  }

  /** The second half of a turn: the first queued event leaves the queue. */
  function HandleTurn(h: Handled, t: WanLookup.WanTable, newPid: nat): Handled {
    if h.sh.queue == [] then h
    else
      var ev, sh := h.sh.queue[0], h.sh.(queue := h.sh.queue[1..]);
      if ev.BusSet? then Handled(sh, Tail(h.left))
      else if 1 <= ev.inst <= |sh.rows| then HandleStart(sh, ev.inst, t, newPid, h.left)
      else h
  }

  /** The WAN manager's parameters after the second half of a turn. */
  function TurnWan(cfg: Config, h: Handled, wan: map<string, Verdict>): map<string, Verdict> {
    if h.sh.queue == [] || !h.sh.queue[0].BusSet? || !(1 <= h.sh.queue[0].inst <= |h.sh.rows|) || !Head(h.left).b then wan
    else
      var ev := h.sh.queue[0];
      var r := h.sh.rows[ev.inst - 1];
      wan[StatusName(cfg.unified, ev.param, r.wan, r.virt) := ev.val]
  }

  /** The row found is in the table, has the pid, and no earlier row has it. */
  lemma {:induction false} FirstInRange(rows: seq<Row>, pid: int, k: nat)
    ensures match FirstWithPid(rows, pid, k)
            case None => forall j :: k <= j < |rows| ==> rows[j].pid != pid
            case Some(i) => k <= i < |rows| && rows[i].pid == pid && forall j :: k <= j < i ==> rows[j].pid != pid
    decreases |rows| - k
  {
    if k < |rows| && rows[k].pid != pid {
      FirstInRange(rows, pid, k + 1);
    }
  }

  /** Row i is the only one that may have changed, every new event is about its
      interface, and nothing is taken back. */
  ghost predicate OnlyAbout(sh: Shared, sh': Shared, i: nat) {
    && |sh'.rows| == |sh.rows| && sh'.locks == sh.locks
    && (forall j :: 0 <= j < |sh.rows| && j != i ==> sh'.rows[j] == sh.rows[j])
    && sh.log <= sh'.log && sh.queue <= sh'.queue
    && (forall k :: |sh.log| <= k < |sh'.log| && sh'.log[k].Offered? ==> sh'.log[k].ev.inst == i + 1)
    && (forall k :: |sh.queue| <= k < |sh'.queue| ==> sh'.queue[k].inst == i + 1)
  }

  lemma {:induction false} TakenAbout(items: seq<Item>, inst: int)
    requires forall x :: x in items && x.Offered? ==> x.ev.inst == inst
    ensures forall k :: 0 <= k < |Taken(items)| ==> Taken(items)[k].inst == inst
  {
    if items != [] {
      TakenAbout(items[1..], inst);
    }
  }

  lemma PlayedAbout(sh: Shared, i: nat, o: Outcome)
    requires i < |sh.rows| && forall x :: x in o.items && x.Offered? ==> x.ev.inst == i + 1
    ensures OnlyAbout(sh, Played(sh, i, o), i)
  {
    TakenAbout(o.items, i + 1);
    hide Taken;
    var sh' := Played(sh, i, o);
    forall k | |sh.log| <= k < |sh'.log| && sh'.log[k].Offered?
      ensures sh'.log[k].ev.inst == i + 1
    {
      assert sh'.log[k] == o.items[k - |sh.log|];
    }
  }

  /** A message changes only the lowest row with the matching pid, and every event
      it offers is about that interface. */
  lemma OnlyTheMatch(sh: Shared, m: Msg, cs: seq<Choice>)
    ensures match FirstWithPid(sh.rows, m.pid, 0)
            case None => HandleMessage(sh, m, cs).sh == sh
            case Some(i) => OnlyAbout(sh, HandleMessage(sh, m, cs).sh, i)
  {
    FirstInRange(sh.rows, m.pid, 0);
    if FirstWithPid(sh.rows, m.pid, 0).Some? {
      RoutedAbout(sh, FirstWithPid(sh.rows, m.pid, 0).value, m, cs);
    }
    hide HandleRouted, FirstWithPid;
  }

  lemma RejectedAbout(sh: Shared, i: nat, cs: seq<Choice>)
    requires i < |sh.rows|
    ensures OnlyAbout(sh, Rejected(sh, i + 1, cs).sh, i)
  {
    TakenOne(Offered(Ev, BusSet(i + 1, IpcpStatus, VDown), false, Head(cs).b));
    hide Taken;
  }

  lemma RoutedAbout(sh: Shared, i: nat, m: Msg, cs: seq<Choice>)
    requires i < |sh.rows|
    ensures OnlyAbout(sh, HandleRouted(sh, i, m, cs).sh, i)
  {
    RoutedIs(sh, i, m, cs);
    PlayedAbout(sh, i, StateOutcome(i, m, sh.rows[i], cs));
    PlayedAbout(sh, i, Ipv6cpOutcome(i, m, sh.rows[i], cs));
    IpcpAbout(sh, i, m, cs);
    assert OnlyAbout(sh, sh, i);
    hide HandleRouted, HandleIpcp, Played, StateOutcome, Ipv6cpOutcome, OnlyAbout;
  }

  lemma IpcpAbout(sh: Shared, i: nat, m: Msg, cs: seq<Choice>)
    requires i < |sh.rows|
    ensures OnlyAbout(sh, HandleIpcp(sh, i + 1, m, cs).sh, i)
  {
    PlayedAbout(sh, i, IpcpOutcome(i, m.ipcp, sh.rows[i], cs));
    RejectedAbout(sh, i, cs);
    hide Played, IpcpOutcome, Rejected, AllPresent, OnlyAbout;
  }

  /** An IPCP message that is routed is answered by exactly one IPCP verdict, and
      it is Up exactly if the client reports completion and the message is
      acceptable. */
  lemma RoutedIpcpAnswered(sh: Shared, i: nat, m: Msg, cs: seq<Choice>)
    requires i < |sh.rows| && m.state in {IpcpCompleted, IpcpFailed}
    ensures var sh', up := HandleRouted(sh, i, m, cs).sh, m.state == IpcpCompleted && Acceptable(m.ipcp);
            var held := m.state == IpcpCompleted && AllPresent(m.ipcp);
            sh'.log == sh.log + ((if up then [Noted(NCompleted(i, m.ipcp))] else [])
              + [Offered(Ev, BusSet(i + 1, IpcpStatus, if up then VUp else VDown), held, Head(cs).b)])
  {
    hide IpcpRow, Taken, AtMostFourParts, Tokens.Toks;
    var x := [Offered(Ev, BusSet(i + 1, IpcpStatus, VDown), m.state == IpcpCompleted && AllPresent(m.ipcp), Head(cs).b)];
    assert [] + x == x;
  }

  lemma PlayedIs(sh: Shared, sh': Shared, i: nat, o: Outcome)
    requires i < |sh.rows| && sh'.rows == sh.rows[i := o.row] && sh'.locks == sh.locks
    requires sh'.queue == sh.queue + Taken(o.items) && sh'.log == sh.log + o.items
    ensures sh' == Played(sh, i, o)
  {
  }

  lemma NothingPlayed(sh: Shared, i: nat, cs: seq<Choice>)
    requires i < |sh.rows|
    ensures Played(sh, i, Outcome([], sh.rows[i], Done, cs)) == sh
  {
    assert sh.rows[i := sh.rows[i]] == sh.rows;
    assert sh.queue + [] == sh.queue && sh.log + [] == sh.log;
  }

  lemma TakenIpcp(i: nat, m: IpcpMsg, c: Choice)
    ensures Taken(IpcpItems(i, m, c)) == if !c.b then [] else [BusSet(i + 1, IpcpStatus, if Acceptable(m) then VUp else VDown)]
  {
    hide Acceptable;
    TakenOne(Noted(NCompleted(i, m)));
    TakenOne(Offer(Ev, i, IpcpStatus, VUp, c));
    TakenOne(Offer(Ev, i, IpcpStatus, VDown, c));
    TakenParts([Noted(NCompleted(i, m))], [Offer(Ev, i, IpcpStatus, VUp, c)]);
    assert [Noted(NCompleted(i, m)), Offer(Ev, i, IpcpStatus, VUp, c)] == [Noted(NCompleted(i, m))] + [Offer(Ev, i, IpcpStatus, VUp, c)];
  }

  function DownIf(i: nat, param: Param, c: Choice): seq<Event> {
    if c.b then [BusSet(i + 1, param, VDown)] else []
  }

  lemma TakenStop(a: Tid, i: nat, cs: seq<Choice>)
    ensures Taken(StopItems(a, i, cs)) ==
            DownIf(i, LcpStatus, Head(cs)) + DownIf(i, IpcpStatus, Head(Tail(cs))) + DownIf(i, Ipv6cpStatus, Head(Tail(Tail(cs))))
  {
    var x := StopItems(a, i, cs);
    TakenOne(x[0]);
    TakenOne(x[1]);
    TakenOne(x[2]);
    TakenOne(x[3]);
    TakenParts([x[0]], [x[1]]);
    TakenParts([x[0], x[1]], [x[2]]);
    TakenParts([x[0], x[1], x[2]], [x[3]]);
    hide Taken;
    assert [x[0]] + [x[1]] == [x[0], x[1]] && [x[0], x[1]] + [x[2]] == [x[0], x[1], x[2]];
    assert [x[0], x[1], x[2]] + [x[3]] == x;
    assert [] + Taken([x[1]]) == Taken([x[1]]);
  }

  lemma TakenOne(x: Item)
    ensures Taken([x]) == if x.Offered? && x.took then [x.ev] else []
  {
    assert [x][1..] == [];
  }

  lemma StateKeepsInst(r: Row, m: Msg)
    ensures StateRow(r, m).inst == r.inst
  {
  }

  lemma IpcpKeepsInst(r: Row, m: IpcpMsg)
    ensures IpcpRow(r, m).inst == r.inst
  {
  }

  lemma Ipv6cpKeepsInst(r: Row, m: Msg)
    ensures Ipv6cpRow(r, m).inst == r.inst
  {
  }

  lemma NoneTaken()
    ensures Taken([]) == []
  {
  }

  lemma TakenLink(i: nat, v: Verdict, cs: seq<Choice>)
    ensures Taken(LinkItems(i, v, cs)) ==
            if !Head(cs).b then []
            else [BusSet(i + 1, LcpStatus, v)] + (if Head(Tail(cs)).b then [BusSet(i + 1, LinkStatus, v)] else [])
  {
    var x, y := Offer(Ev, i, LcpStatus, v, Head(cs)), Offer(Ev, i, LinkStatus, v, Head(Tail(cs)));
    TakenOne(x);
    TakenOne(y);
    TakenParts([x], [y]);
    assert [x] + [] == [x];
  }

  /** The switch over the reported state: what it stores, and the link state to
      be told, if any. */
  method StoreState(e: Interface, m: Msg) returns (link: Option<Verdict>)
    modifies e
    ensures e.View() == StateRow(old(e.View()), m) && link == StateVerdict(m.state)
  {
    link := None;
    match m.state {
      case IfUnconfigured =>
        e.status := Error;
        e.conn := Unconfigured;
        link := Some(VDown);
      case IfConnecting =>
        e.status := Down;
        e.conn := Connecting;
      case IfAuthenticating =>
        e.status := Down;
        e.conn := Authenticating;
      case IfUp =>
        e.status := Up;
        e.conn := Connected;
        e.lastError := ErrorNone;
        link := Some(VUp);
      case IfDisconnecting =>
        e.status := Down;
        e.conn := Disconnecting;
      case IfDisconnected =>
        LinkLost(e, m.exitStatus);
        link := Some(VDown);
      case IfDown =>
        LinkLost(e, m.exitStatus);
        link := Some(VDown);
      case LcpAuthCompleted =>
        Authenticated(e, m);
      case AuthFailed =>
        e.status := Down;
        e.conn := AuthenticationFailed;
        link := Some(VDown);
      case _ =>
        e.status := Down;
        e.conn := Disconnected;
        link := Some(VDown);
    }
  }

  /** A stopped client's entry: session data is cleared. */
  method ClearEntry(e: Interface, daemon: bool)
    modifies e
    ensures e.View() == old(e.View()).(enabled := false, pid := if daemon then 0 else old(e.pid),
              status := Down, conn := Unconfigured, local := ZERO_ADDR, remote := ZERO_ADDR,
              dns0 := ZERO_ADDR, dns1 := ZERO_ADDR, ip6Local := "", ip6Remote := "")
  {
    e.enabled := false;
    if daemon {
      e.pid := 0;
    }
    e.status := Down;
    e.conn := Unconfigured;
    ClearSession(e);
  }

  method ClearSession(e: Interface)
    modifies e
    ensures e.View() == old(e.View()).(local := ZERO_ADDR, remote := ZERO_ADDR, dns0 := ZERO_ADDR, dns1 := ZERO_ADDR,
                                       ip6Local := "", ip6Remote := "")
  {
    e.local := ZERO_ADDR;
    e.remote := ZERO_ADDR;
    e.dns0, e.dns1 := ZERO_ADDR, ZERO_ADDR;
    e.ip6Local := "";
    e.ip6Remote := "";
  }

  /** Down and disconnected, with the reason the client gave. */
  method LinkLost(e: Interface, exitStatus: int)
    modifies e
    ensures e.View() == old(e.View()).(status := Down, conn := Disconnected, lastError := ErrorOf(exitStatus), sru := 0, srd := 0)
  {
    e.sru, e.srd := 0, 0;
    e.status := Down;
    e.conn := Disconnected;
    if exitStatus == PPP_EXIT_USER_REQUEST {
      e.lastError := UserDisconnect;
    } else if exitStatus == PPP_EXIT_PEER_AUTH_FAILED || exitStatus == PPP_EXIT_AUTH_TOPEER_FAILED {
      e.lastError := AuthenticationFailure;
    } else if exitStatus == PPP_EXIT_HANGUP {
      e.lastError := IspTimeOut;
    } else {
      e.lastError := ErrorUnknown;
    }
  }

  /** The rates of the vendor message and the authentication protocol. */
  method Authenticated(e: Interface, m: Msg)
    modifies e
    ensures var rates := VendorScan.VendorRates(m.vendor);
            e.View() == old(e.View()).(sru := rates.sru, srd := rates.srd,
              auth := if m.authProto == "" then old(e.auth) else if m.authProto == "PAP" then Pap else Chap)
  {
    NoVendorText();
    e.sru, e.srd := 0, 0;
    if |m.vendor| > 0 {
      var sru, srd := VendorScan.DmlSetVendorParams(m.vendor, e.sru, e.srd);
      e.sru, e.srd := sru, srd;
    }
    if |m.authProto| > 0 {
      e.auth := if m.authProto == "PAP" then Pap else Chap;
    }
  }

  /** The lowest row from k on that carries this pid. */
  function FirstWithPid(rows: seq<Row>, pid: int, k: nat): Option<nat>
    decreases |rows| - k
  {
    if k >= |rows| then None
    else if rows[k].pid == pid then Some(k)
    else FirstWithPid(rows, pid, k + 1)
  }

  /** A copy of the text, terminated. */
  method Buffer(s: string) returns (b: array<char>)
    requires NUL !in s
    ensures fresh(b) && Terminated(b[..], 0) && CStr(b[..], 0) == s
  {
    b := new char[|s| + 1](k requires 0 <= k <= |s| => if k < |s| then s[k] else NUL);
    CStrIs(b[..], 0, |s|);
    assert b[..][0..|s|] == s;
  }

  /** Clears the four addresses and parses the message into them. */
  method ParseMessage(tk: Tokenizer, m: IpcpMsg) returns (ok: bool, data: IpcpData)
    requires CTexts(m) && AllPresent(m)
    modifies tk
    ensures ok == Acceptable(m)
    ensures data == IpcpData(ParseIp4(m.ip), if AtMostFourParts(m.ip) then ParseIp4(m.gateway) else ZERO_ADDR,
                             if ok then ParseDns(m.nameserver, 0) else ZERO_ADDR, if ok then ParseDns(m.nameserver, 1) else ZERO_ADDR)
  {
    var ip := Buffer(m.ip);
    var gateway := Buffer(m.gateway);
    var list := Buffer(m.nameserver);
    var local, remote := new Octet[4](_ => 0), new Octet[4](_ => 0);
    var dns0, dns1 := new Octet[4](_ => 0), new Octet[4](_ => 0);
    hide Tokens.Toks, CStr, StrEnd, Terminated, ParseIp4, ParseDns;
    ok := StoreAddresses(tk, ip, gateway, list, local, remote, dns0, dns1);
    data := IpcpData(local[..], remote[..], dns0[..], dns1[..]);
  }

  /** The locked part of the IPCP handler up to its verdict. */
  method StoreIpcp(tk: Tokenizer, e: Interface, m: IpcpMsg) returns (ok: bool)
    requires CTexts(m) && AllPresent(m)
    modifies e, tk
    ensures e.View() == IpcpRow(old(e.View()), m) && ok == Acceptable(m)
  {
    hide Acceptable, ParseIp4, ParseDns, AtMostFourParts, CTexts;
    var data: IpcpData;
    ok, data := ParseMessage(tk, m);
    e.local := data.local;
    e.remote := data.remote;
    e.dns0, e.dns1 := data.dns0, data.dns1;
  }

  /** The interface identifiers of an IPv6CP message. */
  method StoreIpv6cp(e: Interface, m: Msg)
    modifies e
    ensures e.View() == Ipv6cpRow(old(e.View()), m)
  {
    if m.state == Ipv6cpCompleted {
      if m.local6 != "" {
        e.ip6Local := ClipIfId(m.local6);
      }
      if m.remote6 != "" {
        e.ip6Remote := ClipIfId(m.remote6);
      }
    }
  }

  // ----------------------------------------------------------- start-up

  /** A zeroed row with start-up's fields set is a fresh one. */
  lemma FreshAfterStart(st: Persist.Store, n: nat, after: seq<Setting>, i: nat)
    requires Persist.StartedFrom(st, Persist.Zeroed(n), after) && i < n
    ensures FreshRow(With(ZERO_ROW, after[i]), i)
  {
    Persist.StartNumbers(st, n, after);
    hide Persist.StartedFrom;
  }

  /** The zeroed table is loaded and numbered. */
  method LoadTable(n: nat, psm: Persist.Psm) returns (ok: bool, table: seq<Interface>)
    ensures |table| == n && Distinct(table) && forall i :: 0 <= i < n ==> fresh(table[i])
    ensures ok <==> Persist.AllLoadable(psm.records, Persist.Zeroed(n))
    ensures ok ==> Persist.StartedFrom(psm.records, Persist.Zeroed(n), AllSettings(table))
    ensures ok ==> forall i :: 0 <= i < n ==> FreshRow(table[i].View(), i)
  {
    table := Allocate(n);
    assert AllSettings(table) == Persist.Zeroed(n);
    hide Persist.StartedFrom, Persist.AllLoadable, FreshRow, With;
    ok := Persist.Initialize(psm, table);
    if ok {
      forall i | 0 <= i < n
        ensures FreshRow(table[i].View(), i)
      {
        FreshAfterStart(psm.records, n, AllSettings(table), i);
      }
    }
  }

  /** Start-up: the table is made, and the manager set up over it. */
  method StartUp(c: Config, psm: Persist.Psm) returns (mgr: PppManager?)
    requires ValidConfig(c)
    ensures mgr == null <==> !Persist.AllLoadable(psm.records, Persist.Zeroed(c.n))
    ensures mgr != null ==>
              && mgr.Valid() && mgr.cfg == c && mgr.queue == [] && mgr.log == []
              && (forall i :: 0 <= i < c.n ==> mgr.locks[i] == Free && FreshRow(mgr.Rows()[i], i))
              && Persist.StartedFrom(psm.records, Persist.Zeroed(c.n), AllSettings(mgr.table))
  {
    hide Persist.StartedFrom, Persist.AllLoadable, Persist.Zeroed, FreshRow;
    var ok, table := LoadTable(c.n, psm);
    mgr := null;
    if ok {
      mgr := new PppManager(c, table);
    }
  }
}
