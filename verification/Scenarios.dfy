/** Two runs that show why two theorems have the bounds they have: the machine
    can get stuck with a full queue, and a client's pid is stored before its slot. */
module Scenarios {
  import opened CText
  import opened Ipcp
  import opened Program
  import opened Machine
  import opened Invariant
  import opened Discipline
  import opened Bounds
  import opened Sections
  import opened Alone
  import opened Outcomes
  import QueueFacts
  import ResetOrder
  import WanLookup

  const PID: nat := 7
  const OUR: Tid := Api(0)

  /** Start-up with authentication configured. */
  function FirstRow(i: nat): Row {
    Row(i + 1, false, Pap, 0, 0, 0, NoStatus, NoConn, NoError, 0, 0, ZERO_ADDR, ZERO_ADDR, ZERO_ADDR, ZERO_ADDR, "", "")
  }

  function Start(cfg: Config): State {
    State(seq(cfg.n, i requires 0 <= i < cfg.n => FirstRow(i)), seq(cfg.n, i => Free), [], Thread(Done, NoHold), -1, -1,
          [Thread(Done, NoHold)], map[], [], [], [], true, 0, 0, 0)
  }

  lemma StartsFresh(cfg: Config)
    requires ValidConfig(cfg)
    ensures Initial(cfg, Start(cfg)) && Reachable(cfg, Start(cfg))
  {
    var s := Start(cfg);
    forall i | 0 <= i < cfg.n
      ensures FreshRow(s.rows[i], i)
    {
      assert s.rows[i] == FirstRow(i);
    }
    assert CanRun(cfg, s, []) && s == After(cfg, s, []);
  }

  /** Reachable, with one API thread, idle, and row 0 free. */
  ghost predicate Calm(cfg: Config, s: State) {
    && Reachable(cfg, s) && Inv(cfg, s) && ValidConfig(cfg) && cfg.n >= 1 && |s.rows| == |s.locks| == cfg.n
    && s.api == [Thread(Done, NoHold)] && s.locks[0] == Free
  }

  lemma ReachStep(cfg: Config, s: State, l: Label)
    requires Reachable(cfg, s) && Inv(cfg, s) && Enabled(cfg, s, l)
    ensures Reachable(cfg, Next(cfg, s, l)) && Inv(cfg, Next(cfg, s, l))
  {
    InvNext(cfg, s, l);
    hide Inv, Next, Enabled, Reachable;
    assert [l][1..] == [];
    assert CanRun(cfg, Next(cfg, s, l), []) && After(cfg, s, [l]) == Next(cfg, s, l);
    ResetOrder.ReachableRuns(cfg, s, [l]);
  }

  /** The API thread enables interface 1 once more: one more start event. */
  lemma EnableOnce(cfg: Config, s: State) returns (s': State)
    requires Calm(cfg, s) && |s.queue| < MAX_QUEUE_LENGTH
    ensures Calm(cfg, s') && s'.ev == s.ev && s'.queue == s.queue + [Exec(1)]
    ensures s'.rows == s.rows[0 := s.rows[0].(enabled := true)]
  {
    var op, cs := Enable(0, true), [Choice(true, 0)];
    var l, e := BeginApi(0, op), EApi(Enable(0, true));
    hide Inv, Reachable, Body, Play, Ready, Next, Enabled, After, CanRun, Entered, Taken;
    ApiBegins(cfg, s, op);
    ReachStep(cfg, s, l);
    var s1 := Next(cfg, s, l);
    var ls := EntryRuns(cfg, s1, OUR, e, cs);
    ResetOrder.ReachableRuns(cfg, s1, ls);
    s' := After(cfg, s1, ls);
    EnableOutcome(cfg, s.rows[0]);
    EnableEntered(cfg, SharedOf(s1));
    assert s'.api == [Thread(Done, NoHold)] by { assert Th(s', OUR) == s'.api[0]; }
    assert Th(s', Ev) == Th(s1, Ev);
  }

  lemma ApiBegins(cfg: Config, s: State, op: ApiOp)
    requires |s.api| == 1 && s.api[0] == Thread(Done, NoHold) && op.i < cfg.n
    ensures Enabled(cfg, s, BeginApi(0, op)) && Next(cfg, s, BeginApi(0, op)) == s.(api := [Thread(Enter(EApi(op)), NoHold)])
  {
  }

  lemma EnableEntered(cfg: Config, sh: Shared)
    requires |sh.rows| > 0
    ensures Entered(cfg, OUR, EApi(Enable(0, true)), sh, [Choice(true, 0)])
         == Outcome([Offered(OUR, Exec(1), true, true)], sh.rows[0].(enabled := true), Done, [])
  {
    EnableOutcome(cfg, sh.rows[0]);
    hide Play, Body;
  }

  lemma EnableOutcome(cfg: Config, r: Row)
    ensures Play(cfg, OUR, Body(cfg, EApi(Enable(0, true))), 0, 1, r, [Choice(true, 0)], true)
         == Outcome([Offered(OUR, Exec(1), true, true)], r.(enabled := true), Done, [])
    ensures Taken([Offered(OUR, Exec(1), true, true)]) == [Exec(1)]
  {
    PlayApi(cfg, OUR, Enable(0, true), r, [Choice(true, 0)]);
    hide Play;
    var x := [Offered(OUR, Exec(1), true, true)];
    assert x[1..] == [];
  }

  /** The event thread launches the client. */
  lemma Launched(cfg: Config) returns (s: State)
    requires ValidConfig(cfg) && cfg.n >= 1 && cfg.slot[0].Found?
    ensures Calm(cfg, s) && s.queue == [] && s.ev == Thread(Done, NoHold) && s.rows[0].pid == PID
  {
    var s1 := Polled(cfg);
    var e, cs := EStart(1, cfg.slot[0], PID), [Choice(false, 0), Choice(true, 0), Choice(true, 0)];
    hide Inv, Reachable, Body, Play, Ready;
    var ls := EntryRuns(cfg, s1, Ev, e, cs);
    ResetOrder.ReachableRuns(cfg, s1, ls);
    s := After(cfg, s1, ls);
    hide After, CanRun;
    StartAnswers(cfg, s1.rows[0]);
    assert Th(s, Ev) == s.ev;
    assert s.api == s1.api by {
      assert |s.api| == |s1.api| == 1 && Th(s, OUR) == Th(s1, OUR);
    }
  }

  lemma StartAnswers(cfg: Config, r: Row)
    requires ValidConfig(cfg) && cfg.n >= 1 && cfg.slot[0].Found? && r.auth == Pap
    ensures var o := Play(cfg, Ev, Body(cfg, EStart(1, cfg.slot[0], PID)), 0, 1, r, [Choice(false, 0), Choice(true, 0), Choice(true, 0)], true);
            o.items == [] && o.next == Done && o.row.pid == PID
  {
    PlayStart(cfg, 0, cfg.slot[0], PID, r, [Choice(false, 0), Choice(true, 0), Choice(true, 0)], true);
    hide Play;
  }

  /** One start event queued and taken: the event thread is about to launch. */
  lemma Polled(cfg: Config) returns (s: State)
    requires ValidConfig(cfg) && cfg.n >= 1 && cfg.slot[0].Found?
    ensures Calm(cfg, s) && s.queue == [] && s.ev == Thread(Enter(EStart(1, cfg.slot[0], PID)), NoHold)
    ensures s.rows[0].auth == Pap && s.rows[0].pid == 0 && s.rows[0].wan == 0
  {
    StartsFresh(cfg);
    InvInitial(cfg, Start(cfg));
    assert Start(cfg).rows[0] == FirstRow(0) && Start(cfg).ev == Thread(Done, NoHold) && Start(cfg).queue == [];
    hide Inv, Reachable, Ready;
    var s0 := EnableOnce(cfg, Start(cfg));
    assert s0.queue == [Exec(1)];
    var l := Poll(Choice(true, PID));
    ReachStep(cfg, s0, l);
    s := Next(cfg, s0, l);
    assert s0.queue[1..] == [];
  }

  /** A message whose IPCP failed: the event thread is about to send a Down. */
  lemma AtSend(cfg: Config) returns (s: State)
    requires ValidConfig(cfg) && cfg.n >= 1 && cfg.slot[0].Found?
    ensures Calm(cfg, s) && s.queue == [] && s.ev.prog.Send?
  {
    hide Inv, Reachable, Body, Play, Ready, After, CanRun;
    var s0 := Launched(cfg);
    var m := Msg(true, PID, IpcpFailed, 0, "", "", IpcpMsg("", "", ""), "", "");
    var l, e := BeginMsg(m), EScan(0, m);
    ReachStep(cfg, s0, l);
    var s1 := Next(cfg, s0, l);
    assert s1 == s0.(ev := Thread(Enter(e), NoHold));
    hide Next, Enabled;
    var ls := EntryRuns(cfg, s1, Ev, e, []);
    ResetOrder.ReachableRuns(cfg, s1, ls);
    s := After(cfg, s1, ls);
    PlayScan(cfg, 0, m, s1.rows[0], []);
    assert Dispatch(1, m).Send?;
    hide Dispatch;
    assert Th(s, Ev) == s.ev;
    assert s.api == s1.api by {
      assert |s.api| == |s1.api| == 1 && Th(s, OUR) == Th(s1, OUR);
    }
  }

  lemma {:induction false} FillUp(cfg: Config, s: State) returns (s': State)
    requires Calm(cfg, s) && |s.queue| <= MAX_QUEUE_LENGTH
    ensures Calm(cfg, s') && s'.ev == s.ev && |s'.queue| == MAX_QUEUE_LENGTH
    decreases MAX_QUEUE_LENGTH - |s.queue|
  {
    hide Calm;
    if |s.queue| == MAX_QUEUE_LENGTH {
      s' := s;
    } else {
      var s1 := EnableOnce(cfg, s);
      s' := FillUp(cfg, s1);
    }
  }

  /** The bound of the progress theorem is needed: with more sends than the queue
      takes, the event thread, which alone empties it, can end up waiting for room
      in it, and then no run without a failing send of its own delivers anything
      again. */
  lemma CanJam(cfg: Config) returns (s: State)
    requires ValidConfig(cfg) && cfg.n >= 1 && cfg.slot[0].Found?
    ensures Reachable(cfg, s) && QueueFacts.Jammed(s)
    ensures forall ls :: CanRun(cfg, s, ls) && QueueFacts.EvSendsSucceed(ls) ==>
              QueueFacts.Jammed(After(cfg, s, ls)) && After(cfg, s, ls).told == s.told
  {
    var s0 := AtSend(cfg);
    s := FillUp(cfg, s0);
    hide Inv, Reachable, CanRun, After;
    forall ls | CanRun(cfg, s, ls) && QueueFacts.EvSendsSucceed(ls)
      ensures QueueFacts.Jammed(After(cfg, s, ls)) && After(cfg, s, ls).told == s.told
    {
      QueueFacts.JamForEver(cfg, s, ls);
    }
  }

  /** The old client is gone: its pid is cleared. */
  lemma PidCleared(r: Row)
    ensures Apply(r, SetPid(0)) == r.(pid := 0)
  {
  }

  lemma AtClear(cfg: Config, p: Prog, out: Prog) returns (s: State)
    requires ValidConfig(cfg) && cfg.n >= 1 && cfg.slot[0].Found?
    requires Body(cfg, EStart(1, cfg.slot[0], PID)) == TestAlive(0, out, Upd(0, SetPid(0), p))
    ensures Reachable(cfg, s) && Inv(cfg, s) && |s.rows| == |s.locks| == cfg.n
    ensures s.ev.prog == p && s.rows[0].wan == 0 && s.rows[0].auth == Pap
  {
    hide Inv, Reachable, Body, Apply;
    var s0 := Polled(cfg);
    PidCleared(s0.rows[0]);
    var s1 := LaunchStep(cfg, s0, TestAlive(0, out, Upd(0, SetPid(0), p)), true);
    var s2 := LaunchStep(cfg, s1, Upd(0, SetPid(0), p), false);
    s := LaunchStep(cfg, s2, p, true);
  }

  /** The launch up to the point where it spawns the client. */
  lemma AtSpawn(cfg: Config) returns (s: State)
    requires ValidConfig(cfg) && cfg.n >= 1 && cfg.slot[0].Found?
    ensures Reachable(cfg, s) && Inv(cfg, s) && |s.rows| == |s.locks| == cfg.n
    ensures s.ev.prog == SpawnBody(0, cfg.slot[0], PID) && s.rows[0].wan == 0
  {
    var slot, out := cfg.slot[0], Unlock(0, Done);
    var spawn := SpawnBody(0, slot, PID);
    var p := Choose(Choose(spawn, out), out);
    assert Body(cfg, EStart(1, slot, PID)) == TestAlive(0, out, Upd(0, SetPid(0), TestAuth(0, p, out)));
    hide Inv, Reachable, Body, SpawnBody;
    var s3 := AtClear(cfg, TestAuth(0, p, out), out);
    var s4 := LaunchStep(cfg, s3, p, true);
    var s5 := LaunchStep(cfg, s4, Choose(spawn, out), true);
    s := LaunchStep(cfg, s5, spawn, true);
  }

  /** While a client is being launched its pid is stored before the slot. */
  lemma PidBeforeSlot(cfg: Config) returns (s: State)
    requires ValidConfig(cfg) && cfg.n >= 1 && cfg.slot[0].Found?
    ensures Reachable(cfg, s) && |s.rows| == cfg.n && s.rows[0].pid != 0 && !Mapped(cfg, 0, s.rows[0])
  {
    var s0 := AtSpawn(cfg);
    hide Inv, Reachable;
    s := LaunchStep(cfg, s0, s0.ev.prog.k, true);
  }

  /** One step of the launch, leading to program p. */
  lemma LaunchStep(cfg: Config, s: State, p: Prog, b: bool) returns (s': State)
    requires Reachable(cfg, s) && Inv(cfg, s) && |s.rows| == |s.locks| == cfg.n && cfg.n >= 1
    requires match s.ev.prog
             case Enter(e) => RowOf(e) == 0 && s.locks[0] == Free && p == Body(cfg, e)
             case TestAlive(i, yes, no) => i == 0 && !b && p == no
             case Upd(i, _, k) => i == 0 && p == k
             case TestAuth(i, yes, _) => i == 0 && s.rows[0].auth != NoAuth && p == yes
             case Choose(yes, _) => b && p == yes
             case _ => false
    ensures Reachable(cfg, s') && Inv(cfg, s') && |s'.rows| == |s'.locks| == cfg.n && s'.ev.prog == p
    ensures s'.rows == if s.ev.prog.Upd? then s.rows[0 := Apply(s.rows[0], s.ev.prog.u)] else s.rows
  {
    var l := Run(Ev, Choice(b, 0));
    hide Inv, Reachable, Body, Apply;
    ReachStep(cfg, s, l);
    s' := Next(cfg, s, l);
  }
}
