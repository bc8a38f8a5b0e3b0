/** The addresses of an IPCP message: the parser that fills four-octet arrays
    with the tokenizer, and the printer of the data model getters. */
module Ipcp {
  import opened CText
  import opened Tokens
  import opened StrTok

  type Octet = n: int | 0 <= n < 256

  type Addr = s: seq<Octet> | |s| == 4 witness [0, 0, 0, 0]

  const IPV4_ADDRESS_SIZE: nat := 4
  const ZERO_ADDR: Addr := [0, 0, 0, 0]

  /** Room for one server in the scratch buffers, their terminator excluded. */
  const DNS_TEXT: nat := 31

  datatype IpcpMsg = IpcpMsg(ip: string, gateway: string, nameserver: string)

  datatype IpcpData = IpcpData(local: Addr, remote: Addr, dns0: Addr, dns1: Addr)

  /** The number a token denotes, stored in a `char`: its low eight bits. */
  function OctetOf(token: string): Octet {
    Atoi(token) % 256
  }

  /** Tokens overwrite the leading octets, at most four of them. */
  function Fill(base: Addr, toks: seq<string>): (a: Addr)
    ensures forall k :: 0 <= k < 4 ==> a[k] == if k < |toks| then OctetOf(toks[k]) else base[k]
  {
    seq(4, k requires 0 <= k < 4 => if k < |toks| then OctetOf(toks[k]) else base[k])
  }

  predicate AtMostFourParts(text: string) {
    |Toks(text, '.')| <= IPV4_ADDRESS_SIZE
  }

  function ParseIp4(text: string): Addr {
    Fill(ZERO_ADDR, Toks(text, '.'))
  }

  function Clip(text: string): string {
    if |text| <= DNS_TEXT then text else text[..DNS_TEXT]
  }

  /** Server `k` of a comma separated list; absent servers stay zero. */
  function ParseDns(list: string, k: nat): Addr {
    var servers := Toks(list, ',');
    if k < |servers| then ParseIp4(Clip(servers[k])) else ZERO_ADDR
  }

  /** A message the handler accepts: nothing missing, no address with a fifth
      part, at least one server named. */
  predicate Acceptable(m: IpcpMsg) {
    && m.ip != "" && m.gateway != "" && m.nameserver != ""
    && AtMostFourParts(m.ip) && AtMostFourParts(m.gateway)
    && Toks(m.nameserver, ',') != []
  }

  function Parse(m: IpcpMsg): IpcpData {
    IpcpData(ParseIp4(m.ip), ParseIp4(m.gateway), ParseDns(m.nameserver, 0), ParseDns(m.nameserver, 1))
  }

  // ---------------------------------------------------------------- the code

  /** The octet loop. A fifth token is reported and not stored. */
  method DmlSetIp4Param(tk: Tokenizer, ipbuff: array<char>, out: array<Octet>) returns (ok: bool)
    requires Terminated(ipbuff[..], 0) && out.Length == IPV4_ADDRESS_SIZE
    modifies tk, ipbuff, out
    ensures var toks := Toks(old(CStr(ipbuff[..], 0)), '.');
            (ok <==> |toks| <= IPV4_ADDRESS_SIZE) && out[..] == Fill(old(out[..]), toks)
  {
    hide Toks, CStr, StrEnd, Atoi, OctetOf;
    ghost var base, toks := out[..], Toks(CStr(ipbuff[..], 0), '.');
    var i := 0;
    var s2: Option<nat> := tk.Next(ipbuff, '.');
    while s2.Some?
      invariant tk.buf == ipbuff && Terminated(ipbuff[..], tk.save)
      invariant i <= IPV4_ADDRESS_SIZE && i <= |toks| && (s2.None? <==> i == |toks|)
      invariant s2.Some? ==> Terminated(ipbuff[..], s2.value)
      invariant s2.Some? ==> toks[i..] == [CStr(ipbuff[..], s2.value)] + Toks(CStr(ipbuff[..], tk.save), '.')
      invariant forall k :: 0 <= k < 4 ==> out[k] == if k < i then OctetOf(toks[k]) else base[k]
      decreases |toks| - i
    {
      if i == IPV4_ADDRESS_SIZE {
        return false;
      }
      assert toks[i] == toks[i..][0] && toks[i + 1..] == toks[i..][1..];
      out[i] := OctetOf(CStr(ipbuff[..], s2.value));
      i := i + 1;
      s2 := tk.Next(null, '.');
    }
    return true;
  }

  /** `strncpy` of the string at `p`, padding with terminators. */
  method StrNCpy(dst: array<char>, src: array<char>, p: nat, n: nat)
    requires dst != src && n <= dst.Length && Terminated(src[..], p)
    modifies dst
    ensures var s := CStr(src[..], p);
            forall k :: 0 <= k < dst.Length ==>
              dst[k] == if k >= n then old(dst[k]) else if k < |s| then s[k] else NUL
  {
    hide StrEnd;
    ghost var s := CStr(src[..], p);
    var k := 0;
    while k < n && src[p + k] != NUL
      invariant k <= n && k <= |s|
      invariant forall j :: 0 <= j < dst.Length ==> dst[j] == if j < k then s[j] else old(dst[j])
    {
      dst[k] := src[p + k];
      k := k + 1;
    }
    ghost var len := k;
    assert len < n ==> len == |s|;
    while k < n
      invariant len <= k <= n
      invariant forall j :: 0 <= j < dst.Length ==>
                              dst[j] == if j < len then s[j] else if j < k then NUL else old(dst[j])
    {
      dst[k] := NUL;
      k := k + 1;
    }
  }

  lemma CopiedText(b: seq<char>, s: string)
    requires NUL !in s && |b| == DNS_TEXT + 1
    requires forall k :: 0 <= k <= DNS_TEXT ==> b[k] == if k < DNS_TEXT && k < |s| then s[k] else NUL
    ensures Terminated(b, 0) && CStr(b, 0) == Clip(s)
  {
    CStrIs(b, 0, |Clip(s)|);
  }

  /** Copies one server name into a zeroed scratch buffer. */
  method CopyServer(dst: array<char>, src: array<char>, p: nat)
    requires dst != src && dst.Length == DNS_TEXT + 1 && dst[DNS_TEXT] == NUL && Terminated(src[..], p)
    modifies dst
    ensures Terminated(dst[..], 0) && CStr(dst[..], 0) == Clip(CStr(src[..], p))
  {
    StrNCpy(dst, src, p, DNS_TEXT);
    CopiedText(dst[..], CStr(src[..], p));
  }

  /** The first pass over the server list: at most two names are taken. */
  method SplitServers(tk: Tokenizer, list: array<char>, dns1: array<char>, dns2: array<char>) returns (count: nat)
    requires Terminated(list[..], 0) && list != dns1 && list != dns2 && dns1 != dns2
    requires dns1.Length == dns2.Length == DNS_TEXT + 1 && dns1[DNS_TEXT] == dns2[DNS_TEXT] == NUL
    modifies tk, list, dns1, dns2
    ensures var servers := Toks(old(CStr(list[..], 0)), ',');
            && count == (if |servers| < 2 then |servers| else 2)
            && (count >= 1 ==> Terminated(dns1[..], 0) && CStr(dns1[..], 0) == Clip(servers[0]))
            && (count >= 2 ==> Terminated(dns2[..], 0) && CStr(dns2[..], 0) == Clip(servers[1]))
  {
    hide Toks, CStr, StrEnd, Clip;
    ghost var servers := Toks(CStr(list[..], 0), ',');
    count := 0;
    var i := 1;
    var s1: Option<nat> := tk.Next(list, ',');
    while s1.Some?
      invariant tk.buf == list && Terminated(list[..], tk.save)
      invariant i == count + 1 && count <= 1 && count <= |servers|
      invariant s1.None? <==> count == |servers|
      invariant s1.Some? ==> Terminated(list[..], s1.value)
      invariant s1.Some? ==> servers[count..] == [CStr(list[..], s1.value)] + Toks(CStr(list[..], tk.save), ',')
      invariant dns2[DNS_TEXT] == NUL && (count == 0 ==> dns1[DNS_TEXT] == NUL)
      invariant count == 1 ==> Terminated(dns1[..], 0) && CStr(dns1[..], 0) == Clip(servers[0])
      decreases |servers| - count
    {
      assert servers[count] == servers[count..][0] && servers[count + 1..] == servers[count..][1..];
      count := count + 1;
      if i > 1 {
        CopyServer(dns2, list, s1.value);
        return;
      }
      CopyServer(dns1, list, s1.value);
      s1 := tk.Next(null, ',');
      i := i + 1;
    }
  }

  method Clear(a: array<Octet>)
    requires a.Length == IPV4_ADDRESS_SIZE
    modifies a
    ensures a[..] == ZERO_ADDR
  {
    for k := 0 to IPV4_ADDRESS_SIZE
      invariant forall j :: 0 <= j < k ==> a[j] == 0
    {
      a[k] := 0;
    }
  }

  /** The locked part of the IPCP handler up to its verdict: clears the four
      addresses and parses the message into them. On a rejected message the
      addresses hold what was parsed so far. */
  method StoreAddresses(tk: Tokenizer, ip: array<char>, gateway: array<char>, list: array<char>,
                        local: array<Octet>, remote: array<Octet>, dns0: array<Octet>, dns1: array<Octet>)
    returns (ok: bool)
    requires Terminated(ip[..], 0) && Terminated(gateway[..], 0) && Terminated(list[..], 0)
    requires ip != gateway && ip != list && gateway != list
    requires local.Length == remote.Length == dns0.Length == dns1.Length == IPV4_ADDRESS_SIZE
    requires local != remote && local != dns0 && local != dns1 && remote != dns0 && remote != dns1 && dns0 != dns1
    modifies tk, ip, gateway, list, local, remote, dns0, dns1
    ensures var m := old(IpcpMsg(CStr(ip[..], 0), CStr(gateway[..], 0), CStr(list[..], 0)));
            && (ok <==> AtMostFourParts(m.ip) && AtMostFourParts(m.gateway) && Toks(m.nameserver, ',') != [])
            && local[..] == Parse(m).local
            && remote[..] == (if AtMostFourParts(m.ip) then Parse(m).remote else ZERO_ADDR)
            && dns0[..] == (if ok then Parse(m).dns0 else ZERO_ADDR)
            && dns1[..] == (if ok then Parse(m).dns1 else ZERO_ADDR)
  {
    Clear(local);
    Clear(remote);
    Clear(dns0);
    Clear(dns1);
    ok := DmlSetIp4Param(tk, ip, local);
    if !ok {
      return;
    }
    ok := DmlSetIp4Param(tk, gateway, remote);
    if !ok {
      return;
    }
    var text1, text2 := new char[DNS_TEXT + 1](_ => NUL), new char[DNS_TEXT + 1](_ => NUL);
    var count := SplitServers(tk, list, text1, text2);
    if count == 0 {
      return false;
    }
    var _ := DmlSetIp4Param(tk, text1, dns0);
    if count > 1 {
      var _ := DmlSetIp4Param(tk, text2, dns1);
    }
  }

  // ------------------------------------------------------------- the printer

  function PrintIp(a: Addr): string {
    Dec(a[0]) + ['.'] + (Dec(a[1]) + ['.'] + (Dec(a[2]) + ['.'] + Dec(a[3])))
  }

  /** An absent (zero) second server is not printed. */
  function PrintDns(first: Addr, second: Addr): string {
    if second == ZERO_ADDR then PrintIp(first) else PrintIp(first) + [','] + PrintIp(second)
  }

  function Parts(a: Addr): seq<string> {
    [Dec(a[0]), Dec(a[1]), Dec(a[2]), Dec(a[3])]
  }

  lemma PartsOfPrint(a: Addr)
    ensures Toks(PrintIp(a), '.') == Parts(a)
  {
    hide Toks, Dec;
    var d3 := Dec(a[3]);
    var d2 := Dec(a[2]) + ['.'] + d3;
    var d1 := Dec(a[1]) + ['.'] + d2;
    ToksSingle(d3, '.');
    ToksCons(Dec(a[2]), '.', d3);
    ToksCons(Dec(a[1]), '.', d2);
    ToksCons(Dec(a[0]), '.', d1);
  }

  lemma OctetOfDec(n: Octet)
    ensures OctetOf(Dec(n)) == n
  {
    AtoiOfDec(n, "");
    assert Dec(n) + "" == Dec(n);
  }

  /** A part beyond 255 keeps its low eight bits, and of a server's name 31 characters
      are kept. */
  lemma LimitsMean(n: nat, text: string)
    ensures OctetOf(Dec(n)) == n % 256
    ensures Clip(text) <= text && |Clip(text)| == if |text| <= 31 then |text| else 31
  {
    AtoiOfDec(n, "");
    assert Dec(n) + "" == Dec(n);
  }

  /** Parsing what the getter prints restores every address. */
  lemma ParsePrintIp(a: Addr)
    ensures ParseIp4(PrintIp(a)) == a && AtMostFourParts(PrintIp(a))
  {
    hide Toks, PrintIp, Dec, OctetOf;
    PartsOfPrint(a);
    forall k | 0 <= k < 4
      ensures ParseIp4(PrintIp(a))[k] == a[k]
    {
      OctetOfDec(a[k]);
    }
  }

  /** The octets stand in reading order, separated by dots, in print and in parse. */
  lemma DottedQuad(a: Octet, b: Octet, c: Octet, d: Octet)
    ensures var text := Dec(a) + "." + Dec(b) + "." + Dec(c) + "." + Dec(d);
            PrintIp([a, b, c, d]) == text && ParseIp4(text) == [a, b, c, d]
  {
    hide ParseIp4, Dec;
    ParsePrintIp([a, b, c, d]);
    assert "." == ['.'];
    Regroup(Dec(a) + ".", Dec(b) + ".", Dec(c) + "." + Dec(d));
    Regroup(Dec(a) + ".", Dec(b), ".");
    Regroup(Dec(a) + "." + Dec(b) + ".", Dec(c) + ".", Dec(d));
    Regroup(Dec(a) + "." + Dec(b) + ".", Dec(c), ".");
  }

  lemma Regroup(x: string, y: string, z: string)
    ensures x + (y + z) == x + y + z
  {
  }

  lemma PrintIpText(a: Addr)
    ensures PrintIp(a) != "" && ',' !in PrintIp(a) && |PrintIp(a)| <= 15
  {
    forall k | 0 <= k < 4
      ensures |Dec(a[k])| <= 3 && ',' !in Dec(a[k])
    {
      assert Pow10(3) == 1000 by {
        assert Pow10(1) == 10;
      }
      DecLength(a[k], 3);
    }
  }

  /** Parsing a printed server list restores every pair of servers, a zero second
      server included: it is not printed, and the clear before the parse leaves
      it zero. */
  lemma ParsePrintDns(first: Addr, second: Addr)
    ensures ParseDns(PrintDns(first, second), 0) == first
    ensures ParseDns(PrintDns(first, second), 1) == second
    ensures Toks(PrintDns(first, second), ',') != []
  {
    hide Toks, PrintIp, ParseIp4;
    PrintIpText(first);
    PrintIpText(second);
    ParsePrintIp(first);
    ParsePrintIp(second);
    ToksSingle(PrintIp(first), ',');
    ToksSingle(PrintIp(second), ',');
    ToksCons(PrintIp(first), ',', PrintIp(second));
  }

  lemma BlankIp(w: string, a: Addr)
    requires Blanks(w)
    ensures ParseIp4(w + PrintIp(a)) == a
  {
    hide Toks, Dec, OctetOf;
    var d3 := Dec(a[3]);
    var d2 := Dec(a[2]) + ['.'] + d3;
    var d1 := Dec(a[1]) + ['.'] + d2;
    ToksSingle(d3, '.');
    ToksCons(Dec(a[2]), '.', d3);
    ToksCons(Dec(a[1]), '.', d2);
    assert '.' !in w by {
      assert forall k :: 0 <= k < |w| ==> w[k] != '.';
    }
    ToksCons(w + Dec(a[0]), '.', d1);
    assert w + Dec(a[0]) + ['.'] + d1 == w + PrintIp(a);
    BlankOctet(w, a[0]);
    OctetOfDec(a[1]);
    OctetOfDec(a[2]);
    OctetOfDec(a[3]);
  }

  lemma BlankOctet(w: string, n: Octet)
    requires Blanks(w)
    ensures OctetOf(w + Dec(n)) == n
  {
    AtoiAfterBlanks(w, n, "");
    assert w + (Dec(n) + "") == w + Dec(n);
  }

  /** Blanks behind the comma of a server list do not matter, up to the sixteen that
      leave room for the address in the scratch buffer. */
  lemma BlankInDns(first: Addr, w: string, second: Addr)
    requires Blanks(w) && |w| <= 16
    ensures var list := PrintIp(first) + [','] + (w + PrintIp(second));
            ParseDns(list, 0) == first && ParseDns(list, 1) == second
  {
    hide Toks, PrintIp, ParseIp4;
    PrintIpText(first);
    PrintIpText(second);
    ParsePrintIp(first);
    BlankIp(w, second);
    var rest := w + PrintIp(second);
    assert ',' !in rest by {
      assert forall k :: 0 <= k < |w| ==> w[k] != ',';
    }
    ToksSingle(rest, ',');
    ToksCons(PrintIp(first), ',', rest);
  }

  /** What the getters print for stored data is an acceptable message, and the
      handler stores the same data again. */
  lemma StoredDataSurvives(data: IpcpData)
    ensures var m := IpcpMsg(PrintIp(data.local), PrintIp(data.remote), PrintDns(data.dns0, data.dns1));
            Acceptable(m) && Parse(m) == data
  {
    ParsePrintIp(data.local);
    ParsePrintIp(data.remote);
    ParsePrintDns(data.dns0, data.dns1);
    PrintIpText(data.local);
    PrintIpText(data.remote);
    assert PrintDns(data.dns0, data.dns1) != "" by {
      PrintIpText(data.dns0);
    }
  }

  /** Four dotted numerals below 256, with nothing else around them. */
  predicate CanonicalIp(text: string) {
    var p := Toks(text, '.');
    && |p| == 4
    && (forall k :: 0 <= k < 4 ==> IsNumeral(p[k]) && Value(p[k]) < 256)
    && text == p[0] + ['.'] + (p[1] + ['.'] + (p[2] + ['.'] + p[3]))
  }

  /** One canonical address, or two with a second one that is not all zero. */
  predicate CanonicalDns(text: string) {
    var p := Toks(text, ',');
    || (|p| == 1 && CanonicalIp(p[0]) && text == p[0])
    || (|p| == 2 && CanonicalIp(p[0]) && CanonicalIp(p[1]) && text == p[0] + [','] + p[1]
        && ParseIp4(p[1]) != ZERO_ADDR)
  }

  /** Printing a parsed canonical address gives the same text back. */
  lemma PrintParseIp(text: string)
    requires CanonicalIp(text)
    ensures PrintIp(ParseIp4(text)) == text
  {
    hide Toks, Dec, Atoi, Value, IsNumeral;
    var p := Toks(text, '.');
    forall k | 0 <= k < 4
      ensures Dec(ParseIp4(text)[k]) == p[k]
    {
      AtoiOfNumeral(p[k]);
      DecOfValue(p[k]);
    }
  }

  /** The canonical addresses are exactly what the printer produces. */
  lemma CanonicalIsPrinted(a: Addr)
    ensures CanonicalIp(PrintIp(a))
  {
    hide Toks, Dec;
    PartsOfPrint(a);
    var p := Parts(a);
    ValueOfDec(a[0]);
    ValueOfDec(a[1]);
    ValueOfDec(a[2]);
    ValueOfDec(a[3]);
    assert forall k :: 0 <= k < 4 ==> IsNumeral(p[k]) && Value(p[k]) < 256;
  }

  lemma PrintParseDns(text: string)
    requires CanonicalDns(text)
    ensures PrintDns(ParseDns(text, 0), ParseDns(text, 1)) == text
  {
    hide Toks, PrintIp, ParseIp4;
    var p := Toks(text, ',');
    PrintParseIp(p[0]);
    PrintIpText(ParseIp4(p[0]));
    if |p| == 2 {
      PrintParseIp(p[1]);
      PrintIpText(ParseIp4(p[1]));
    }
  }
}
