/** Delivering a parameter event, in the words of the WAN manager's data model: the
    name that is set, and whose it is. */
module Delivery {
  import opened CText
  import opened Ipcp
  import opened Paths
  import opened Program
  import opened Machine
  import opened Invariant
  import opened Discipline
  import opened Bounds
  import opened History
  import opened Agreement
  import Progress
  import WanLookup

  // ------------------------------------------------------------- the slot that was read

  lemma SlotReadNext(cfg: Config, s: State, l: Label)
    requires Inv(cfg, s) && Hist(s) && SlotRead(cfg, s) && Enabled(cfg, s, l)
    ensures |Next(cfg, s, l).rows| == cfg.n && SlotRead(cfg, Next(cfg, s, l))
  {
    InvNext(cfg, s, l);
    match l
    case Run(t, c) =>
      if Th(s, t).prog.Receive? {
        SlotReadReceive(cfg, s, c);
      } else {
        SlotReadStep(cfg, s, t, c);
      }
      hide Execute, Hist, SlotRead, RowOk, ThreadOk;
    case Poll(c) => DequeueFields(cfg, s, c); hide Dequeue, Hist, SlotRead, RowOk, ThreadOk;
    case BeginMsg(m) =>
      BeginHist(cfg, s, l);
      EndsExclusive(Next(cfg, s, l).ev.prog);
      hide Hist, Delivering, RowOk, ThreadOk, ProcessPppState;
    case BeginApi(k, op) => hide Hist, Delivering, RowOk, ThreadOk;
  }

  lemma SlotReadReceive(cfg: Config, s: State, c: Choice)
    requires Inv(cfg, s) && Ready(s, Ev, c) && s.ev.prog.Receive?
    ensures |Execute(cfg, s, Ev, c).rows| == cfg.n && SlotRead(cfg, Execute(cfg, s, Ev, c))
  {
    hide RowOk, ThreadOk, Dequeue;
    if s.queue != [] {
      DequeueFields(cfg, s, c);
    } else {
      assert Delivering(Done).None?;
    }
  }

  lemma {:induction false} SlotReadRun(cfg: Config, s: State, ls: seq<Label>)
    requires Inv(cfg, s) && Hist(s) && SlotRead(cfg, s) && CanRun(cfg, s, ls)
    ensures |After(cfg, s, ls).rows| == cfg.n && SlotRead(cfg, After(cfg, s, ls))
    decreases ls
  {
    hide RowOk, ThreadOk, Hist, SlotRead, Next, Enabled;
    if ls != [] {
      InvNext(cfg, s, ls[0]);
      HistNext(cfg, s, ls[0]);
      SlotReadNext(cfg, s, ls[0]);
      SlotReadRun(cfg, Next(cfg, s, ls[0]), ls[1..]);
    }
  }

  lemma SlotReadReachable(cfg: Config, s: State)
    requires Reachable(cfg, s)
    ensures Inv(cfg, s) && SlotRead(cfg, s)
  {
    hide RowOk, ThreadOk, Hist, Next, Enabled, CanRun, After, Mapped;
    InvReachable(cfg, s);
    var s0: State, ls: seq<Label> :| Initial(cfg, s0) && CanRun(cfg, s0, ls) && s == After(cfg, s0, ls);
    InvInitial(cfg, s0);
    HistInitial(cfg, s0);
    assert Delivering(Done).None?;
    SlotReadRun(cfg, s0, ls);
  }

  // ------------------------------------------------------------- the name that is set

  lemma NamesOf(unified: bool, param: Param, w: nat, v: nat)
    ensures StatusName(unified, param, w, v) ==
            if unified then
              "Device.X_RDK_WanManager.Interface." + Dec(w) + ".VirtualInterface." + Dec(v) + ".PPP."
              + (match param
                 case LcpStatus => "Status" case LinkStatus => "Status"
                 case IpcpStatus => "IPCPStatus" case Ipv6cpStatus => "IPv6CPStatus")
            else
              "Device.X_RDK_WanManager.CPEInterface." + Dec(w)
              + (match param
                 case LcpStatus => ".PPP.LCPStatus" case LinkStatus => ".PPP.LinkStatus"
                 case IpcpStatus => ".PPP.IPCPStatus" case Ipv6cpStatus => ".PPP.IPv6CPStatus")
  {
    hide Format, Dec;
    if unified {
      UnifiedNames(w, v);
    } else {
      OtherNames(w, v);
    }
  }

  /** The tables name the interface under the object of its slot. */
  lemma SlotNamesInterface(t: WanLookup.WanTable, inst: nat)
    requires WanLookup.Lookup(t, inst).Found?
    ensures var w, v := WanLookup.Lookup(t, inst).iface, WanLookup.Lookup(t, inst).virt;
            && w >= 1 && v >= 1
            && var name := "Device.X_RDK_WanManager.Interface." + Dec(w) + ".VirtualInterface." + Dec(v) + ".PPP." + "Interface";
               name in t.answers && t.answers[name] == "Device.PPP.Interface." + Dec(inst)
  {
    hide Format, Dec, WanLookup.Lookup;
    var w, v := WanLookup.Lookup(t, inst).iface, WanLookup.Lookup(t, inst).virt;
    WanLookup.FoundIffFirst(t, inst, w, v);
    UnifiedNames(w, v);
    PathIs(inst);
  }

  lemma RowIsNamed(cfg: Config, s: State, c: Choice)
    requires Reachable(cfg, s) && s.ev.prog.WanSet? && Ready(s, Ev, c)
    ensures var ev := s.ev.prog.ev; ValidConfig(cfg) && ev.BusSet? && 1 <= ev.inst <= cfg.n == |s.rows|
    ensures var ev, s' := s.ev.prog.ev, Execute(cfg, s, Ev, c);
            var r := s.rows[ev.inst - 1];
            && s'.wan == (if c.b then s.wan[StatusName(cfg.unified, ev.param, r.wan, r.virt) := ev.val] else s.wan)
            && ((r.wan == 0 && r.virt == 0) || Mapped(cfg, ev.inst - 1, r))
  {
    hide Reachable, RowOk, ThreadOk, StatusName;
    SlotReadReachable(cfg, s);
    NoSetInside(cfg, s);
    assert Delivering(s.ev.prog) == Some(s.ev.prog.ev);
  }

  /** A delivery in any reachable state, over any tables of the WAN manager. A
      successful set changes exactly one parameter, whose name carries the two
      numbers the event's row holds at that moment and ends as the event says; a
      failing one changes nothing. If the row has a slot, the virtual interface with
      these two numbers is one that the WAN manager's tables say uses the very
      interface the event names. */
  lemma DeliverySets(n: nat, daemon: bool, unified: bool, t: WanLookup.WanTable, s: State, c: Choice)
    requires n <= MAX_INTERFACES && Reachable(ConfigOf(n, daemon, unified, t), s)
    requires s.ev.prog.WanSet? && Ready(s, Ev, c)
    ensures var ev := s.ev.prog.ev; ev.BusSet? && 1 <= ev.inst <= n == |s.rows|
    ensures var ev, s' := s.ev.prog.ev, Execute(ConfigOf(n, daemon, unified, t), s, Ev, c);
            var w, v := s.rows[ev.inst - 1].wan, s.rows[ev.inst - 1].virt;
            && w >= 0 && v >= 0
            && s'.wan == (
                 if !c.b then s.wan
                 else if unified then
                   s.wan["Device.X_RDK_WanManager.Interface." + Dec(w) + ".VirtualInterface." + Dec(v) + ".PPP."
                         + (match ev.param
                            case LcpStatus => "Status" case LinkStatus => "Status"
                            case IpcpStatus => "IPCPStatus" case Ipv6cpStatus => "IPv6CPStatus") := ev.val]
                 else
                   s.wan["Device.X_RDK_WanManager.CPEInterface." + Dec(w)
                         + (match ev.param
                            case LcpStatus => ".PPP.LCPStatus" case LinkStatus => ".PPP.LinkStatus"
                            case IpcpStatus => ".PPP.IPCPStatus" case Ipv6cpStatus => ".PPP.IPv6CPStatus") := ev.val])
            && (w != 0 || v != 0 ==>
                  var name := "Device.X_RDK_WanManager.Interface." + Dec(w) + ".VirtualInterface." + Dec(v) + ".PPP." + "Interface";
                  name in t.answers && t.answers[name] == "Device.PPP.Interface." + Dec(ev.inst))
  {
    hide Reachable, Format, Dec, WanLookup.Lookup, Inv, Execute, Ready, StatusName;
    var cfg, ev := ConfigOf(n, daemon, unified, t), s.ev.prog.ev;
    RowIsNamed(cfg, s, c);
    var w, v := s.rows[ev.inst - 1].wan, s.rows[ev.inst - 1].virt;
    NamesOf(unified, ev.param, w, v);
    if w != 0 || v != 0 {
      SlotNamesInterface(t, ev.inst);
    }
  }

  /** The end-to-end agreement in these words. When everything has been delivered,
      an interface that is Up is Up under the link status name of the slot whose
      virtual interface the tables give it; one whose connection was lost, or never
      configured, is Down there if it was ever set; and IPCP Up there means that the
      row holds the addresses of the IPCP message stored last. */
  lemma NamedEndToEnd(n: nat, daemon: bool, unified: bool, t: WanLookup.WanTable, s: State, i: nat)
    requires n <= MAX_INTERFACES && i < n && KeysDistinct(ConfigOf(n, daemon, unified, t))
    requires Reachable(ConfigOf(n, daemon, unified, t), s) && s.clean && Progress.Idle(s)
    ensures |s.rows| == n
    ensures s.rows[i].status == Up ==> WanLookup.Lookup(t, i + 1).Found?
    ensures WanLookup.Lookup(t, i + 1).Found? ==>
              var w, v := WanLookup.Lookup(t, i + 1).iface, WanLookup.Lookup(t, i + 1).virt;
              && w >= 1 && v >= 1
              && var link := if unified then "Device.X_RDK_WanManager.Interface." + Dec(w) + ".VirtualInterface." + Dec(v) + ".PPP." + "Status"
                             else "Device.X_RDK_WanManager.CPEInterface." + Dec(w) + ".PPP.LCPStatus";
                 var ipcp := if unified then "Device.X_RDK_WanManager.Interface." + Dec(w) + ".VirtualInterface." + Dec(v) + ".PPP." + "IPCPStatus"
                             else "Device.X_RDK_WanManager.CPEInterface." + Dec(w) + ".PPP.IPCPStatus";
                 && (s.rows[i].status == Up ==> link in s.wan && s.wan[link] == VUp)
                 && (s.rows[i].conn in {Unconfigured, Disconnected, AuthenticationFailed} && link in s.wan ==> s.wan[link] == VDown)
                 && (ipcp in s.wan && s.wan[ipcp] == VUp ==>
                       && LastNote(s.log, i).Some? && LastNote(s.log, i).value.NCompleted?
                       && s.rows[i].Addresses() == Parse(LastNote(s.log, i).value.msg))
  {
    hide Reachable, Format, Dec, WanLookup.Lookup, StatusName, KeysDistinct, LastNote, LastOffered, Parse, Progress.Idle;
    var cfg := ConfigOf(n, daemon, unified, t);
    EndToEnd(cfg, s, i);
    if cfg.slot[i].Found? {
      WanLookup.SlotPositive(t, i + 1);
      NamesOf(unified, LcpStatus, cfg.slot[i].iface, cfg.slot[i].virt);
      NamesOf(unified, IpcpStatus, cfg.slot[i].iface, cfg.slot[i].virt);
    }
  }
}
