/** The names of the WAN manager's data-model parameters: formats with integer
    conversions, and what they print. */
module Paths {
  import opened CText

  /** `%d`. */
  function Num(n: int): string {
    if n < 0 then "-" + Dec(0 - n) else Dec(n)
  }

  /** A format, split at its conversions. */
  datatype Piece = Lit(text: string) | Int

  /** What snprintf writes; surplus arguments are ignored. */
  function Format(f: seq<Piece>, args: seq<int>): string {
    if f == [] then ""
    else if f[0].Lit? then f[0].text + Format(f[1..], args)
    else if args == [] then Format(f[1..], args)
    else Num(args[0]) + Format(f[1..], args[1..])
  }

  const PPP_IFACE_PATH: seq<Piece> := [Lit("Device.PPP.Interface."), Int]

  const PPP_WAN_VIRTUAL_IFACE_NAME: seq<Piece> :=
    [Lit("Device.X_RDK_WanManager.Interface."), Int, Lit(".VirtualInterface."), Int, Lit(".PPP.Interface")]

  const WAN_NO_OF_VIRTUAL_IFACE_PARAM_NAME: seq<Piece> :=
    [Lit("Device.X_RDK_WanManager.Interface."), Int, Lit(".VirtualInterfaceNumberOfEntries")]

  /** The four status parameters: in the unified build they belong to a virtual
      interface, in the other to a WAN interface alone. */
  datatype Param = LcpStatus | LinkStatus | IpcpStatus | Ipv6cpStatus

  function LeafText(unified: bool, param: Param): string {
    match param
    case LcpStatus => if unified then ".PPP.Status" else ".PPP.LCPStatus"
    case LinkStatus => if unified then ".PPP.Status" else ".PPP.LinkStatus"
    case IpcpStatus => ".PPP.IPCPStatus"
    case Ipv6cpStatus => ".PPP.IPv6CPStatus"
  }

  /** Two names of one parameter. */
  predicate SameName(unified: bool, p: Param, q: Param) {
    p == q || (unified && p in {LcpStatus, LinkStatus} && q in {LcpStatus, LinkStatus})
  }

  function KeyPath(unified: bool, param: Param): seq<Piece> {
    if unified then
      [Lit("Device.X_RDK_WanManager.Interface."), Int, Lit(".VirtualInterface."), Int, Lit(LeafText(unified, param))]
    else
      [Lit("Device.X_RDK_WanManager.CPEInterface."), Int, Lit(LeafText(unified, param))]
  }

  /** The name of a status parameter, formatted with both numbers. */
  function StatusName(unified: bool, param: Param, wan: int, virt: int): string {
    Format(KeyPath(unified, param), [wan, virt])
  }

  /** The name under which virtual interface v of WAN interface i says which PPP
      interface it uses. */
  function SlotName(i: int, v: int): string {
    Format(PPP_WAN_VIRTUAL_IFACE_NAME, [i, v])
  }

  function CountName(i: int): string {
    Format(WAN_NO_OF_VIRTUAL_IFACE_PARAM_NAME, [i])
  }

  function Path(inst: int): string {
    Format(PPP_IFACE_PATH, [inst])
  }

  // ------------------------------------------------------------- what they print

  lemma FormatStep(f: seq<Piece>, args: seq<int>)
    requires f != []
    ensures f[0].Lit? ==> Format(f, args) == f[0].text + Format(f[1..], args)
    ensures f[0].Int? && args != [] ==> Format(f, args) == Num(args[0]) + Format(f[1..], args[1..])
  {
  }

  lemma OneInt(a: string, b: string, args: seq<int>)
    requires args != []
    ensures Format([Lit(a), Int, Lit(b)], args) == a + Num(args[0]) + b
  {
    hide Num;
    assert [Lit(a), Int, Lit(b)][1..] == [Int, Lit(b)] && [Int, Lit(b)][1..] == [Lit(b)] && [Lit(b)][1..] == [];
    assert Format([Lit(b)], args[1..]) == b;
    assert Format([Int, Lit(b)], args) == Num(args[0]) + b;
  }

  lemma TwoInts(a: string, b: string, c: string, args: seq<int>)
    requires |args| == 2
    ensures Format([Lit(a), Int, Lit(b), Int, Lit(c)], args) == a + Num(args[0]) + (b + Num(args[1]) + c)
  {
    hide Num;
    var f := [Lit(a), Int, Lit(b), Int, Lit(c)];
    assert f[1..] == [Int, Lit(b), Int, Lit(c)] && f[1..][1..] == [Lit(b), Int, Lit(c)];
    OneInt(b, c, args[1..]);
    assert Format(f[1..], args) == Num(args[0]) + Format(f[1..][1..], args[1..]);
  }

  /** A PPP interface is named by its number. */
  lemma PathIs(inst: nat)
    ensures Path(inst) == "Device.PPP.Interface." + Dec(inst)
  {
    hide Dec;
    assert PPP_IFACE_PATH[1..] == [Int] && [Int][1..] == [];
    assert Format([Int], [inst]) == Num(inst) + "";
  }

  /** In the unified build a status parameter of slot (w, v) lies under the object
      whose PPP.Interface entry the lookup asks for: the same two numbers at the
      same places. The link and the LCP status are one parameter. */
  lemma UnifiedNames(w: nat, v: nat)
    ensures var under := "Device.X_RDK_WanManager.Interface." + Dec(w) + ".VirtualInterface." + Dec(v) + ".PPP.";
            && SlotName(w, v) == under + "Interface"
            && StatusName(true, LcpStatus, w, v) == under + "Status"
            && StatusName(true, LinkStatus, w, v) == under + "Status"
            && StatusName(true, IpcpStatus, w, v) == under + "IPCPStatus"
            && StatusName(true, Ipv6cpStatus, w, v) == under + "IPv6CPStatus"
  {
    LeafName(w, v, "Interface");
    LeafName(w, v, "Status");
    LeafName(w, v, "IPCPStatus");
    LeafName(w, v, "IPv6CPStatus");
    assert ".PPP." + "Interface" == ".PPP.Interface" && ".PPP." + "Status" == ".PPP.Status"
        && ".PPP." + "IPCPStatus" == ".PPP.IPCPStatus" && ".PPP." + "IPv6CPStatus" == ".PPP.IPv6CPStatus";
    hide Format, Dec;
  }

  lemma LeafName(w: nat, v: nat, leaf: string)
    ensures Format([Lit("Device.X_RDK_WanManager.Interface."), Int, Lit(".VirtualInterface."), Int, Lit(".PPP." + leaf)], [w, v])
         == "Device.X_RDK_WanManager.Interface." + Dec(w) + ".VirtualInterface." + Dec(v) + ".PPP." + leaf
  {
    hide Format, Dec;
    TwoInts("Device.X_RDK_WanManager.Interface.", ".VirtualInterface.", ".PPP." + leaf, [w, v]);
    Regroup("Device.X_RDK_WanManager.Interface." + Dec(w), ".VirtualInterface.", Dec(v), ".PPP.", leaf);
  }

  lemma Regroup(a: string, b: string, c: string, d: string, e: string)
    ensures a + (b + c + (d + e)) == a + b + c + d + e
  {
  }

  /** In the other build it lies under the WAN interface; the virtual interface's
      number is not part of the name. */
  lemma OtherNames(w: nat, v: int)
    ensures var under := "Device.X_RDK_WanManager.CPEInterface." + Dec(w);
            && StatusName(false, LcpStatus, w, v) == under + ".PPP.LCPStatus"
            && StatusName(false, LinkStatus, w, v) == under + ".PPP.LinkStatus"
            && StatusName(false, IpcpStatus, w, v) == under + ".PPP.IPCPStatus"
            && StatusName(false, Ipv6cpStatus, w, v) == under + ".PPP.IPv6CPStatus"
  {
    hide Format, Dec;
    var o := "Device.X_RDK_WanManager.CPEInterface.";
    OneInt(o, ".PPP.LCPStatus", [w, v]);
    OneInt(o, ".PPP.LinkStatus", [w, v]);
    OneInt(o, ".PPP.IPCPStatus", [w, v]);
    OneInt(o, ".PPP.IPv6CPStatus", [w, v]);
  }

  // ------------------------------------------------------------- names do not collide

  lemma SameHead(a: string, x: string, y: string)
    ensures a + x == a + y <==> x == y
  {
    assert (a + x)[|a|..] == x && (a + y)[|a|..] == y;
  }

  lemma LeafTexts(unified: bool, p: Param, q: Param)
    ensures LeafText(unified, p) == LeafText(unified, q) <==> SameName(unified, p, q)
    ensures LeafText(unified, p)[0] == '.' && !IsDigit('.')
  {
    var a, b := LeafText(unified, p), LeafText(unified, q);
    if |a| == |b| && !SameName(unified, p, q) {
      assert a[5] != b[5];
    }
  }

  /** Two status parameters are one exactly if the leaf, the WAN interface and, in
      the unified build, the virtual interface are the same. */
  lemma StatusNamesApart(unified: bool, p: Param, w: nat, v: nat, q: Param, w': nat, v': nat)
    ensures StatusName(unified, p, w, v) == StatusName(unified, q, w', v') <==>
            SameName(unified, p, q) && w == w' && (unified ==> v == v')
  {
    hide Format, Dec, IsDigit;
    var x, y := LeafText(unified, p), LeafText(unified, q);
    LeafTexts(unified, p, q);
    LeafTexts(unified, q, p);
    if unified {
      var o, m := "Device.X_RDK_WanManager.Interface.", ".VirtualInterface.";
      TwoInts(o, m, x, [w, v]);
      TwoInts(o, m, y, [w', v']);
      TwoNumbers(o, w, m, v, x, w', v', y);
    } else {
      var o := "Device.X_RDK_WanManager.CPEInterface.";
      OneInt(o, x, [w, v]);
      OneInt(o, y, [w', v']);
      OneNumber(o, w, x, w', y);
    }
  }

  lemma OneNumber(a: string, w: nat, x: string, w': nat, y: string)
    requires x != "" && y != "" && !IsDigit(x[0]) && !IsDigit(y[0])
    ensures a + Dec(w) + x == a + Dec(w') + y <==> w == w' && x == y
  {
    hide Dec, IsDigit;
    assert a + Dec(w) + x == a + (Dec(w) + x) && a + Dec(w') + y == a + (Dec(w') + y);
    SameHead(a, Dec(w) + x, Dec(w') + y);
    if Dec(w) + x == Dec(w') + y {
      DecSplits(w, x, w', y);
    }
  }

  lemma TwoNumbers(a: string, w: nat, m: string, v: nat, x: string, w': nat, v': nat, y: string)
    requires m != "" && !IsDigit(m[0]) && x != "" && y != "" && !IsDigit(x[0]) && !IsDigit(y[0])
    ensures a + Dec(w) + (m + Dec(v) + x) == a + Dec(w') + (m + Dec(v') + y) <==> w == w' && v == v' && x == y
  {
    hide Dec, IsDigit;
    var p, q := m + Dec(v) + x, m + Dec(v') + y;
    assert p[0] == m[0] && q[0] == m[0];
    OneNumber(a, w, p, w', q);
    OneNumber(m, v, x, v', y);
  }
}
