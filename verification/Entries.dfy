/** The entries of the interface table: what the threads share of an interface,
    and beside it the saved configuration. */
module Entries {
  import opened Ipcp
  import opened Program

  /** What start-up fills in of an entry. */
  datatype Setting = Setting(inst: nat, idle: nat, mru: nat, auth: Auth, lastError: ConnError)

  const ZEROED: Setting := Setting(0, 0, 0, NoAuth, NoError)

  const ZERO_ROW: Row := Row(
    0, false, NoAuth, 0, 0, 0, NoStatus, NoConn, NoError, 0, 0, ZERO_ADDR, ZERO_ADDR, ZERO_ADDR, ZERO_ADDR, "", "")

  /** A row with start-up's fields set. */
  function With(r: Row, s: Setting): Row {
    r.(inst := s.inst, auth := s.auth, lastError := s.lastError)
  }

  class Interface {
    var inst: nat
    var enabled: bool
    var auth: Auth
    var pid: int
    var wan: int
    var virt: int
    var status: Status
    var conn: Conn
    var lastError: ConnError
    var sru: int
    var srd: int
    var local: Addr
    var remote: Addr
    var dns0: Addr
    var dns1: Addr
    var ip6Local: string
    var ip6Remote: string
    // saved configuration
    var idle: nat
    var mru: nat

    ghost function View(): Row
      reads this
    {
      Row(inst, enabled, auth, pid, wan, virt, status, conn, lastError, sru, srd, local, remote, dns0, dns1, ip6Local, ip6Remote)
    }

    ghost function Settings(): Setting
      reads this
    {
      Setting(inst, idle, mru, auth, lastError)
    }

    /** Allocated zeroed. */
    constructor ()
      ensures View() == ZERO_ROW && Settings() == ZEROED
    {
      inst, enabled, auth, pid, wan, virt := 0, false, NoAuth, 0, 0, 0;
      status, conn, lastError, sru, srd := NoStatus, NoConn, NoError, 0, 0;
      local, remote, dns0, dns1 := ZERO_ADDR, ZERO_ADDR, ZERO_ADDR, ZERO_ADDR;
      ip6Local, ip6Remote, idle, mru := "", "", 0, 0;
    }
  }

  ghost predicate Distinct(table: seq<Interface>) {
    forall i, j :: 0 <= i < j < |table| ==> table[i] != table[j]
  }

  ghost function AllSettings(table: seq<Interface>): (s: seq<Setting>)
    reads table
    ensures |s| == |table| && forall i :: 0 <= i < |table| ==> s[i] == table[i].Settings()
  {
    seq(|table|, i requires 0 <= i < |table| reads table => table[i].Settings())
  }

  ghost function AllViews(table: seq<Interface>): (s: seq<Row>)
    reads table
    ensures |s| == |table| && forall i :: 0 <= i < |table| ==> s[i] == table[i].View()
  {
    seq(|table|, i requires 0 <= i < |table| reads table => table[i].View())
  }

  /** The table of n zeroed entries. */
  method Allocate(n: nat) returns (table: seq<Interface>)
    ensures |table| == n && Distinct(table) && forall i :: 0 <= i < n ==> fresh(table[i])
    ensures forall i :: 0 <= i < n ==> table[i].View() == ZERO_ROW && table[i].Settings() == ZEROED
  {
    table := [];
    while |table| < n
      invariant |table| <= n && Distinct(table) && forall i :: 0 <= i < |table| ==> fresh(table[i])
      invariant forall i :: 0 <= i < |table| ==> table[i].View() == ZERO_ROW && table[i].Settings() == ZEROED
    {
      var e := new Interface();
      table := table + [e];
    }
  }
}
