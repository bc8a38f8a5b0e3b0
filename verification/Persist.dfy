/** Saved configuration: a commit writes two records of the persistent store under
    keys that carry the interface's number; start-up reads them back and numbers
    the table. */
module Persist {
  import opened CText
  import opened Entries
  import opened Instances
  import opened Program

  type Store = map<string, string>

  const KEY_PREFIX: string := "dmsb.pppmanager.if."
  const IDLE_SUFFIX: string := ".idletime"
  const MRU_SUFFIX: string := ".maxmrusize"
  const AUTH_SUFFIX: string := ".AuthenticationProtocol"
  const ERROR_SUFFIX: string := ".lastconnectionerror"

  function IdleKey(inst: nat): string {
    KEY_PREFIX + Dec(inst) + IDLE_SUFFIX
  }

  function MruKey(inst: nat): string {
    KEY_PREFIX + Dec(inst) + MRU_SUFFIX
  }

  function AuthKey(inst: nat): string {
    KEY_PREFIX + Dec(inst) + AUTH_SUFFIX
  }

  function ErrorKey(inst: nat): string {
    KEY_PREFIX + Dec(inst) + ERROR_SUFFIX
  }

  const BUFF: nat := 10

  // ------------------------------------------------------------- reading a number back

  function WordEnd(s: string): (n: nat)
    ensures n <= |s| && (forall k :: 0 <= k < n ==> !IsSpace(s[k])) && (n < |s| ==> IsSpace(s[n]))
  {
    if s == "" || IsSpace(s[0]) then 0 else 1 + WordEnd(s[1..])
  }

  /** What `%s` reads: the first stretch without white space. */
  function Word(s: string): string {
    var t := SkipSpace(s);
    t[..WordEnd(t)]
  }

  /** A blank record leaves the scratch buffer unset; a long one runs over its end. */
  datatype ReadBack = Number(n: int) | Unset | Overrun

  function NumberIn(text: string): ReadBack {
    var w := Word(text);
    if w == "" then Unset else if |w| >= BUFF then Overrun else Number(Atoi(w))
  }

  /** sscanf into the ten-byte buffer, then atoi. */
  method ReadNumber(text: string) returns (r: ReadBack)
    ensures r == NumberIn(text)
  {
    var t := text;
    while t != "" && IsSpace(t[0])
      invariant SkipSpace(t) == SkipSpace(text)
      decreases |t|
    {
      t := t[1..];
    }
    var buff := new char[BUFF](_ => NUL);
    var k := 0;
    while k < |t| && !IsSpace(t[k])
      invariant k <= |t| && k < BUFF
      invariant k <= WordEnd(t) && forall j :: 0 <= j < k ==> buff[j] == t[j] && !IsSpace(t[j])
    {
      if k == BUFF - 1 {
        return Overrun;
      }
      buff[k] := t[k];
      k := k + 1;
    }
    if k == 0 {
      return Unset;
    }
    assert buff[..k] == t[..WordEnd(t)];
    return Number(Atoi(buff[..k]));
  }

  lemma NinePlaces()
    ensures Pow10(9) == 1_000_000_000
  {
    assert Pow10(3) == 1000;
    assert Pow10(6) == 1000 * Pow10(3);
  }

  /** A printed number is read back exactly if it has at most nine digits: more do
      not fit the buffer. */
  lemma ReadBackIff(n: nat)
    ensures NumberIn(Dec(n)) == if n < 1_000_000_000 then Number(n) else Overrun
  {
    var s := Dec(n);
    assert IsDigit(s[0]);
    assert SkipSpace(s) == s;
    forall k | 0 <= k < |s|
      ensures !IsSpace(s[k])
    {
      assert IsDigit(s[k]);
    }
    assert WordEnd(s) == |s|;
    assert s[..|s|] == s;
    NinePlaces();
    DecLength(n, 9);
    AtoiOfNumeral(s);
    ValueOfDec(n);
  }

  // ------------------------------------------------------------- keys

  lemma Differ(a: string, b: string)
    requires a == "" || !IsDigit(a[0])
    requires b == "" || !IsDigit(b[0])
    ensures forall m: nat, n: nat :: KEY_PREFIX + Dec(m) + a == KEY_PREFIX + Dec(n) + b <==> m == n && a == b
  {
    forall m: nat, n: nat
      ensures KEY_PREFIX + Dec(m) + a == KEY_PREFIX + Dec(n) + b <==> m == n && a == b
    {
      var x, y := KEY_PREFIX + Dec(m) + a, KEY_PREFIX + Dec(n) + b;
      assert x[|KEY_PREFIX|..] == Dec(m) + a && y[|KEY_PREFIX|..] == Dec(n) + b;
      if x == y {
        DecSplits(m, a, n, b);
      }
    }
  }

  /** Different interfaces, or different parameters, never share a key. */
  lemma KeysApart(m: nat, n: nat)
    ensures IdleKey(m) == IdleKey(n) <==> m == n
    ensures MruKey(m) == MruKey(n) <==> m == n
    ensures IdleKey(m) != MruKey(n)
    ensures AuthKey(m) != IdleKey(n) && AuthKey(m) != MruKey(n)
    ensures ErrorKey(m) != IdleKey(n) && ErrorKey(m) != MruKey(n)
  {
    Differ(IDLE_SUFFIX, IDLE_SUFFIX);
    Differ(MRU_SUFFIX, MRU_SUFFIX);
    Differ(IDLE_SUFFIX, MRU_SUFFIX);
    Differ(AUTH_SUFFIX, IDLE_SUFFIX);
    Differ(AUTH_SUFFIX, MRU_SUFFIX);
    Differ(ERROR_SUFFIX, IDLE_SUFFIX);
    Differ(ERROR_SUFFIX, MRU_SUFFIX);
    assert IDLE_SUFFIX[1] == 'i' && MRU_SUFFIX[1] == 'm' && AUTH_SUFFIX[1] == 'A' && ERROR_SUFFIX[1] == 'l';
  }

  // ------------------------------------------------------------- commits

  /** What a commit says. */
  datatype Saved = Saved(inst: nat, idle: nat, mru: nat)

  function Commit(st: Store, c: Saved): Store {
    st[IdleKey(c.inst) := Dec(c.idle)][MruKey(c.inst) := Dec(c.mru)]
  }

  function CommitAll(st: Store, cs: seq<Saved>): Store {
    if cs == [] then st else Commit(CommitAll(st, cs[..|cs| - 1]), cs[|cs| - 1])
  }

  /** The last commit of an interface. */
  function LastCommit(cs: seq<Saved>, inst: nat): Option<Saved> {
    if cs == [] then None
    else if cs[|cs| - 1].inst == inst then Some(cs[|cs| - 1])
    else LastCommit(cs[..|cs| - 1], inst)
  }

  predicate SameRecord(st: Store, st': Store, key: string) {
    (key in st' <==> key in st) && (key in st ==> st'[key] == st[key])
  }

  /** The records of an interface are those of its last commit, whatever was
      committed for others in between; never committed, they are as they were. No
      commit touches the other records. */
  lemma {:induction false} RecordsOf(st: Store, cs: seq<Saved>, inst: nat)
    ensures var st', last := CommitAll(st, cs), LastCommit(cs, inst);
            if last.Some? then
              && IdleKey(inst) in st' && st'[IdleKey(inst)] == Dec(last.value.idle)
              && MruKey(inst) in st' && st'[MruKey(inst)] == Dec(last.value.mru)
            else SameRecord(st, st', IdleKey(inst)) && SameRecord(st, st', MruKey(inst))
    ensures SameRecord(st, CommitAll(st, cs), AuthKey(inst)) && SameRecord(st, CommitAll(st, cs), ErrorKey(inst))
  {
    if cs != [] {
      var c := cs[|cs| - 1];
      RecordsOf(st, cs[..|cs| - 1], inst);
      KeysApart(inst, c.inst);
      KeysApart(c.inst, inst);
      hide IdleKey, MruKey, AuthKey, ErrorKey;
    }
  }

  // ------------------------------------------------------------- the reload

  /** One number after the reload of its record: a missing record leaves it alone. */
  function Reloaded(st: Store, key: string, before: nat): ReadBack {
    if key in st then NumberIn(st[key]) else Number(before)
  }

  predicate Readable(r: ReadBack) {
    r.Number? && r.n >= 0
  }

  function AuthIn(st: Store, inst: nat, before: Auth): Auth {
    if AuthKey(inst) in st && st[AuthKey(inst)] == "CHAP" then Chap else before
  }

  function ErrorIn(st: Store, inst: nat, before: ConnError): ConnError {
    if ErrorKey(inst) in st && st[ErrorKey(inst)] == "DML_PPP_CONN_ERROR_NONE" then ErrorNone else before
  }

  /** Row `index` went from `before` to `after` by reading its records. */
  predicate Loaded(st: Store, index: nat, before: Setting, after: Setting) {
    && Reloaded(st, IdleKey(index + 1), before.idle) == Number(after.idle)
    && Reloaded(st, MruKey(index + 1), before.mru) == Number(after.mru)
    && after.auth == AuthIn(st, index + 1, before.auth)
    && after.lastError == ErrorIn(st, index + 1, before.lastError)
  }

  predicate Loadable(st: Store, index: nat, before: Setting) {
    Readable(Reloaded(st, IdleKey(index + 1), before.idle)) && Readable(Reloaded(st, MruKey(index + 1), before.mru))
  }

  /** What a loaded row shows, by the names of the records: numbers are read back, and
      of the two texts exactly one value each is recognised. */
  lemma LoadedFrom(st: Store, index: nat, before: Setting, after: Setting)
    requires Loaded(st, index, before, after)
    ensures var auth := "dmsb.pppmanager.if." + Dec(index + 1) + ".AuthenticationProtocol";
            after.auth == if auth in st && st[auth] == "CHAP" then Chap else before.auth
    ensures var error := "dmsb.pppmanager.if." + Dec(index + 1) + ".lastconnectionerror";
            after.lastError == if error in st && st[error] == "DML_PPP_CONN_ERROR_NONE" then ErrorNone else before.lastError
    ensures var idle := "dmsb.pppmanager.if." + Dec(index + 1) + ".idletime";
            if idle in st then NumberIn(st[idle]) == Number(after.idle) else after.idle == before.idle
    ensures var mru := "dmsb.pppmanager.if." + Dec(index + 1) + ".maxmrusize";
            if mru in st then NumberIn(st[mru]) == Number(after.mru) else after.mru == before.mru
  {
    hide Dec, NumberIn;
  }

  /** Commits of any interfaces in any order, then the reload of one row: if its
      interface was committed, the row is loadable exactly if the last commit's
      numbers have at most nine digits, and then gets them back; if not, the row
      gets what it would have got before. */
  lemma CommitThenReload(st: Store, cs: seq<Saved>, index: nat, before: Setting)
    ensures var st', last := CommitAll(st, cs), LastCommit(cs, index + 1);
            if last.Some? then
              && (Loadable(st', index, before) <==> last.value.idle < 1_000_000_000 && last.value.mru < 1_000_000_000)
              && (Loadable(st', index, before) ==>
                    forall after :: Loaded(st', index, before, after) <==>
                      && after.idle == last.value.idle && after.mru == last.value.mru
                      && after.auth == AuthIn(st, index + 1, before.auth)
                      && after.lastError == ErrorIn(st, index + 1, before.lastError))
            else
              && (Loadable(st', index, before) <==> Loadable(st, index, before))
              && forall after :: Loaded(st', index, before, after) <==> Loaded(st, index, before, after)
  {
    RecordsOf(st, cs, index + 1);
    var last := LastCommit(cs, index + 1);
    hide IdleKey, MruKey, AuthKey, ErrorKey, CommitAll, NumberIn, LastCommit;
    if last.Some? {
      ReadBackIff(last.value.idle);
      ReadBackIff(last.value.mru);
    }
  }

  // ------------------------------------------------------------- start-up, requests, start-up

  /** Start-up on the records `st` makes `after` of the table: every row is loaded,
      and those without a number are numbered. */
  ghost predicate StartedFrom(st: Store, before: seq<Setting>, after: seq<Setting>) {
    && |after| == |before|
    && (forall i :: 0 <= i < |before| ==> after[i].inst == Numbered(Insts(before), 1)[i])
    && (forall i :: 0 <= i < |before| ==> Loaded(st, i, before[i], after[i]))
  }

  /** Every row's records can be read. */
  ghost predicate AllLoadable(st: Store, before: seq<Setting>) {
    forall i :: 0 <= i < |before| ==> Loadable(st, i, before[i])
  }

  function Insts(table: seq<Setting>): (s: seq<nat>)
    ensures |s| == |table| && forall i :: 0 <= i < |table| ==> s[i] == table[i].inst
  {
    seq(|table|, i requires 0 <= i < |table| => table[i].inst)
  }

  function Zeroed(n: nat): (t: seq<Setting>)
    ensures |t| == n && forall i :: 0 <= i < n ==> t[i] == ZEROED
  {
    seq(n, _ => ZEROED)
  }

  /** A data-model request: set the two values of the row at `index`, and commit. */
  datatype Request = Request(index: nat, idle: nat, mru: nat)

  /** The table and the persistent store. */
  datatype Device = Device(table: seq<Setting>, records: Store)

  /** The MRU is a 16-bit field. */
  const MAX_MRU: nat := 65535

  predicate ValidRequest(n: nat, r: Request) {
    r.index < n && r.mru <= MAX_MRU
  }

  predicate ValidRequests(n: nat, rs: seq<Request>) {
    forall k :: 0 <= k < |rs| ==> ValidRequest(n, rs[k])
  }

  /** The commit carries the number of the row. */
  function Serve(d: Device, r: Request): Device
    requires r.index < |d.table|
  {
    var s := d.table[r.index].(idle := r.idle, mru := r.mru);
    Device(d.table[r.index := s], Commit(d.records, Saved(s.inst, s.idle, s.mru)))
  }

  function ServeAll(d: Device, rs: seq<Request>): (d': Device)
    requires ValidRequests(|d.table|, rs)
    ensures |d'.table| == |d.table|
  {
    if rs == [] then d
    else
      var k := |rs| - 1;
      assert ValidRequest(|d.table|, rs[k]);
      Serve(ServeAll(d, rs[..k]), rs[k])
  }

  /** A number by position: the commits a sequence of requests makes. */
  function CommitsOf(rs: seq<Request>): seq<Saved> {
    if rs == [] then []
    else
      var r := rs[|rs| - 1];
      CommitsOf(rs[..|rs| - 1]) + [Saved(r.index + 1, r.idle, r.mru)]
  }

  ghost predicate NumberedByPosition(table: seq<Setting>) {
    forall i :: 0 <= i < |table| ==> table[i].inst == i + 1
  }

  /** Row i as its last request has left it. */
  predicate RowAfter(s: Setting, s': Setting, last: Option<Saved>) {
    s' == if last.Some? then s.(idle := last.value.idle, mru := last.value.mru) else s
  }

  lemma {:induction false} Served(d: Device, rs: seq<Request>)
    requires ValidRequests(|d.table|, rs) && NumberedByPosition(d.table)
    ensures var d' := ServeAll(d, rs);
            && NumberedByPosition(d'.table) && d'.records == CommitAll(d.records, CommitsOf(rs))
            && (forall i :: 0 <= i < |d.table| ==> RowAfter(d.table[i], d'.table[i], LastCommit(CommitsOf(rs), i + 1)))
            && (forall i :: 0 <= i < |d.table| && LastCommit(CommitsOf(rs), i + 1).Some? ==> d'.table[i].mru <= MAX_MRU)
  {
    if rs != [] {
      var k := |rs| - 1;
      Served(d, rs[..k]);
      var r, cs := rs[k], CommitsOf(rs[..k]);
      assert ValidRequest(|d.table|, r);
      var c := Saved(r.index + 1, r.idle, r.mru);
      assert (cs + [c])[..|cs|] == cs;
      hide Commit, LastCommit, CommitAll;
      LastGrows(cs, c);
      CommitAllGrows(d.records, cs, c);
    }
  }

  lemma LastGrows(cs: seq<Saved>, c: Saved)
    ensures forall inst: nat :: LastCommit(cs + [c], inst) == if c.inst == inst then Some(c) else LastCommit(cs, inst)
  {
    assert (cs + [c])[..|cs|] == cs;
  }

  lemma CommitAllGrows(st: Store, cs: seq<Saved>, c: Saved)
    ensures CommitAll(st, cs + [c]) == Commit(CommitAll(st, cs), c)
  {
    assert (cs + [c])[..|cs|] == cs;
  }

  lemma StartNumbers(st: Store, n: nat, table: seq<Setting>)
    requires StartedFrom(st, Zeroed(n), table)
    ensures |table| == n && NumberedByPosition(table)
  {
    forall i | 0 <= i < n
      ensures table[i].inst == i + 1
    {
      ZeroedTable(Insts(Zeroed(n)), i);
    }
    hide Loaded, Numbered;
  }

  lemma NoLongerZeroed(st: Store, index: nat, s: Setting)
    requires Loaded(st, index, ZEROED, s)
    ensures Loadable(st, index, ZEROED)
  {
  }

  /** Start-up, any sequence of requests, and start-up again on the records then
      left. The second start-up can read every row exactly if each requested row's
      last idle time has at most nine digits; and it restores the table: every row
      has its number by position and the values it had before the restart. */
  lemma RestartRestores(st: Store, n: nat, table: seq<Setting>, rs: seq<Request>, table': seq<Setting>)
    requires StartedFrom(st, Zeroed(n), table) && ValidRequests(n, rs)
    ensures var d := ServeAll(Device(table, st), rs);
            && (AllLoadable(d.records, Zeroed(n)) <==>
                forall i :: 0 <= i < n && LastCommit(CommitsOf(rs), i + 1).Some? ==> d.table[i].idle < 1_000_000_000)
            && (StartedFrom(d.records, Zeroed(n), table') ==> table' == d.table && NumberedByPosition(table'))
  {
    StartNumbers(st, n, table);
    var d := ServeAll(Device(table, st), rs);
    Served(Device(table, st), rs);
    hide Loaded, Loadable, LastCommit, CommitAll, CommitsOf;
    forall i | 0 <= i < n
      ensures Loadable(d.records, i, ZEROED) <==>
              (LastCommit(CommitsOf(rs), i + 1).Some? ==> d.table[i].idle < 1_000_000_000)
    {
      RowRestored(st, rs, i, table[i], d.table[i]);
    }
    if StartedFrom(d.records, Zeroed(n), table') {
      StartNumbers(d.records, n, table');
      forall i | 0 <= i < n
        ensures table'[i] == d.table[i]
      {
        RowRestored(st, rs, i, table[i], d.table[i]);
        assert Loaded(d.records, i, ZEROED, table'[i]);
      }
    }
  }

  lemma RowRestored(st: Store, rs: seq<Request>, i: nat, s: Setting, s': Setting)
    requires Loaded(st, i, ZEROED, s) && RowAfter(s, s', LastCommit(CommitsOf(rs), i + 1))
    requires LastCommit(CommitsOf(rs), i + 1).Some? ==> s'.mru <= MAX_MRU
    ensures var st', asked := CommitAll(st, CommitsOf(rs)), LastCommit(CommitsOf(rs), i + 1).Some?;
            && (Loadable(st', i, ZEROED) <==> (asked ==> s'.idle < 1_000_000_000))
            && forall after :: Loaded(st', i, ZEROED, after) ==> after.(inst := s'.inst) == s'
  {
    CommitThenReload(st, CommitsOf(rs), i, ZEROED);
    NoLongerZeroed(st, i, s);
    var st' := CommitAll(st, CommitsOf(rs));
    forall after | Loaded(st', i, ZEROED, after)
      ensures after.(inst := s'.inst) == s'
    {
      NoLongerZeroed(st', i, after);
      LoadedOnce(st, i, s);
    }
    hide LastCommit, CommitAll, CommitsOf, Loadable;
  }

  lemma LoadedOnce(st: Store, i: nat, s: Setting)
    requires Loaded(st, i, ZEROED, s)
    ensures s.auth == AuthIn(st, i + 1, NoAuth) && s.lastError == ErrorIn(st, i + 1, NoError)
    ensures forall after :: Loaded(st, i, ZEROED, after) ==> after.(inst := s.inst) == s
  {
  }

  /** Beyond nine digits the reload writes past its buffer: the bound is exact. */
  lemma TooLongOverruns(st: Store, c: Saved)
    requires c.inst > 0
    ensures Reloaded(Commit(st, c), IdleKey(c.inst), 0) == Number(c.idle) <==> c.idle < 1_000_000_000
  {
    KeysApart(c.inst, c.inst);
    ReadBackIff(c.idle);
    hide IdleKey, MruKey, NumberIn;
  }

  // ------------------------------------------------------------- the code

  class Psm {
    var records: Store

    constructor ()
      ensures records == map[]
    {
      records := map[];
    }

    /** PppManager_SetParamFromPSM, called by Interface_Commit. */
    method SetParamFromPSM(e: Interface)
      modifies this
      ensures records == Commit(old(records), Saved(e.inst, e.idle, e.mru))
    {
      records := records[IdleKey(e.inst) := Dec(e.idle)];
      records := records[MruKey(e.inst) := Dec(e.mru)];
    }

    /** One number of PppDmlGetIntfValuesFromPSM; negative numbers do not arise from
        commits and are kept out of the model. */
    method GetNumber(key: string, before: nat) returns (ok: bool, n: nat)
      ensures ok == Readable(Reloaded(records, key, before))
      ensures ok ==> Reloaded(records, key, before) == Number(n)
    {
      ok, n := true, before;
      if key in records {
        var r := ReadNumber(records[key]);
        if r.Number? && r.n >= 0 {
          n := r.n;
        } else {
          ok := false;
        }
      }
    }

    /** PppDmlGetIfEntry for the row at `index`: the keys carry index + 1. */
    method GetIfEntry(index: nat, e: Interface) returns (ok: bool)
      modifies e
      ensures e.inst == old(e.inst) && e.View() == With(old(e.View()), e.Settings())
      ensures ok == Loadable(records, index, old(e.Settings()))
      ensures ok ==> Loaded(records, index, old(e.Settings()), e.Settings())
    {
      hide IdleKey, MruKey, AuthIn, ErrorIn, Reloaded, Readable;
      GetTexts(index, e);
      var n, m: nat;
      ok, n := GetNumber(IdleKey(index + 1), e.idle);
      if !ok {
        return;
      }
      ok, m := GetNumber(MruKey(index + 1), e.mru);
      if !ok {
        return;
      }
      e.idle, e.mru := n, m;
    }

    method GetTexts(index: nat, e: Interface)
      modifies e`auth, e`lastError
      ensures e.auth == AuthIn(records, index + 1, old(e.auth)) && e.lastError == ErrorIn(records, index + 1, old(e.lastError))
    {
      if AuthKey(index + 1) in records && records[AuthKey(index + 1)] == "CHAP" {
        e.auth := Chap;
      }
      if ErrorKey(index + 1) in records && records[ErrorKey(index + 1)] == "DML_PPP_CONN_ERROR_NONE" {
        e.lastError := ErrorNone;
      }
    }

    /** A request on the table: the two parameters are set, then the entry committed. */
    method SetAndCommit(table: seq<Interface>, r: Request)
      requires Distinct(table) && r.index < |table|
      modifies this, table[r.index]
      ensures Device(AllSettings(table), records) == Serve(Device(old(AllSettings(table)), old(records)), r)
    {
      var e := table[r.index];
      e.idle, e.mru := r.idle, r.mru;
      SetParamFromPSM(e);
      assert AllSettings(table) == old(AllSettings(table))[r.index := e.Settings()];
    }
  }

  /** One turn of the start-up loop: loads the row and numbers it if it carries no
      number. */
  method LoadAndNumber(psm: Psm, index: nat, e: Interface, next: nat) returns (ok: bool, after: nat)
    modifies e
    ensures e.View() == With(old(e.View()), e.Settings())
    ensures ok == Loadable(psm.records, index, old(e.Settings()))
    ensures ok ==> Loaded(psm.records, index, old(e.Settings()), e.Settings())
    ensures ok ==> e.inst == (if old(e.inst) == 0 then next else old(e.inst)) && after == e.inst + 1
  {
    hide AuthIn, ErrorIn, Reloaded, Readable, IdleKey, MruKey;
    after := next;
    ok := psm.GetIfEntry(index, e);
    if !ok {
      return;
    }
    if e.inst == 0 {
      e.inst := next;
      after := next + 1;
    } else {
      after := e.inst + 1;
    }
  }

  /** The first i rows are loaded and numbered, with `next` up next; the others are
      as they were. */
  ghost predicate StartedUpTo(st: Store, before: seq<Setting>, now: seq<Setting>, i: nat, next: nat) {
    && i <= |before| == |now|
    && (forall j :: 0 <= j < i ==> Loadable(st, j, before[j]) && Loaded(st, j, before[j], now[j]))
    && (forall j :: i <= j < |before| ==> now[j] == before[j])
    && Numbered(Insts(before), 1) == Insts(now)[..i] + Numbered(Insts(before)[i..], next)
  }

  lemma StartStep(st: Store, before: seq<Setting>, now: seq<Setting>, i: nat, next: nat, x: Setting)
    requires StartedUpTo(st, before, now, i, next) && i < |before|
    requires Loadable(st, i, before[i]) && Loaded(st, i, before[i], x)
    requires x.inst == if before[i].inst == 0 then next else before[i].inst
    ensures StartedUpTo(st, before, now[i := x], i + 1, x.inst + 1)
  {
    NumberedStep(Insts(before), i, Insts(now)[..i], next);
    assert Insts(now[i := x])[..i + 1] == Insts(now)[..i] + [x.inst];
    hide Numbered, Loaded, Loadable;
  }

  lemma StartEnd(st: Store, before: seq<Setting>, now: seq<Setting>, next: nat)
    requires StartedUpTo(st, before, now, |before|, next)
    ensures StartedFrom(st, before, now) && AllLoadable(st, before)
  {
    assert Insts(before)[|before|..] == [];
    NoneLeft(next);
    hide Numbered, Loaded, Loadable;
  }

  /** The fields that start-up does not fill in are as they were. */
  ghost predicate OnlySettings(table: seq<Interface>, views: seq<Row>)
    reads table
  {
    |views| == |table| && forall j :: 0 <= j < |table| ==> table[j].View() == With(views[j], table[j].Settings())
  }

  lemma WithItself(table: seq<Interface>)
    ensures OnlySettings(table, AllViews(table))
  {
  }

  /** BackEndManagerInitialize. An unreadable record ends the model's run. */
  method Initialize(psm: Psm, table: seq<Interface>) returns (ok: bool)
    requires Distinct(table)
    modifies table
    ensures OnlySettings(table, old(AllViews(table)))
    ensures ok <==> AllLoadable(psm.records, old(AllSettings(table)))
    ensures ok ==> StartedFrom(psm.records, old(AllSettings(table)), AllSettings(table))
  {
    hide Numbered, Loaded, Loadable, With, StartedUpTo, StartedFrom, AllLoadable, Insts;
    ghost var before, st := AllSettings(table), psm.records;
    WithItself(table);
    assert StartedUpTo(st, before, before, 0, 1) by { StartsAtZero(st, before); }
    var next: nat, i := 1, 0;
    while i < |table|
      invariant i <= |table| && StartedUpTo(st, before, AllSettings(table), i, next)
      invariant OnlySettings(table, old(AllViews(table)))
    {
      ghost var now, at := AllSettings(table), next;
      Untouched(st, before, now, i, next);
      ok, next := LoadAndNumber(psm, i, table[i], next);
      if !ok {
        NotAll(st, before, i);
        return;
      }
      StartStep(st, before, now, i, at, table[i].Settings());
      assert AllSettings(table) == now[i := table[i].Settings()];
      i := i + 1;
    }
    ok := true;
    StartEnd(st, before, AllSettings(table), next);
  }

  lemma NotAll(st: Store, before: seq<Setting>, i: nat)
    requires i < |before| && !Loadable(st, i, before[i])
    ensures !AllLoadable(st, before)
  {
    hide Loadable;
  }

  lemma StartsAtZero(st: Store, before: seq<Setting>)
    ensures StartedUpTo(st, before, before, 0, 1)
  {
    assert Insts(before)[..0] == [] && Insts(before)[0..] == Insts(before);
  }

  lemma Untouched(st: Store, before: seq<Setting>, now: seq<Setting>, i: nat, next: nat)
    requires StartedUpTo(st, before, now, i, next) && i < |before|
    ensures |now| == |before| && now[i] == before[i]
  {
  }

  lemma NoneLeft(next: nat)
    ensures Numbered([], next) == []
  {
  }
}
