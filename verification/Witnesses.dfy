/** Runs that show what HS does not promise. */
module Witnesses {
  import opened HsTypes
  import opened CriticalData
  import opened HsState
  import opened HsSteps
  import opened HsRuns
  import opened EventRuns
  import HsSound
  import ResetRuns
  import Utilization

  // ---------- An uneventful start and uneventful cycles ----------

  const QUIET := AcquireIn(Same, Same, true, true, Same, true)

  /** A start-up that finds a stored record and loads an event and a message table. */
  function Start(emt: seq<EmtEntry>, mat: seq<MatEntry>): InitIn {
    InitIn(AlreadyExists(true), true, true, true, true,
           AcquireIn(Same, Updated(emt), true, true, Updated(mat), true), Initialized, true, true)
  }

  function Started(stored: Cds, emt: seq<EmtEntry>, mat: seq<MatEntry>): Run {
    StartsUp(Upset(PowerOff, stored), Start(emt, mat))
  }

  /** A cycle in which only these commands arrive. */
  function Commanded(cfg: Config, cmds: seq<CmdDelivery>): CycleIn {
    CycleIn(QUIET, -1, Copies(cfg.apps, AppInput(Unresolved, false)), Pipes([], NoMessage, cmds, NoMessage))
  }

  /** A well-formed command; `short` answers the second call to the software bus. */
  function Cmd(cfg: Config, code: uint16, short: bool): CmdDelivery {
    GotCmd(CmdMsg(MsgKind.Command, code, ExpectedLength(cfg, code), 0), true, short)
  }

  /** What the witnesses keep in view. */
  datatype Core = Core(emt: seq<EmtEntry>, mat: seq<MatEntry>, cds: Cds, eventMon: bool, bus: Bus)

  /** No application is monitored, message actions are usable and none cools down. */
  predicate Poised(s: State, c: Core) {
    && WF(s) && s.emt == c.emt && s.msg.mat == c.mat && s.rst.cds == c.cds
    && s.modes.eventMon == c.eventMon && s.bus == c.bus && s.loads.msgActs
    && (forall m | 0 <= m < s.cfg.msgActs :: s.msg.cooldown[m] == 0)
    && (forall i | 0 <= i < s.cfg.apps :: s.app.amt[i].action == ACT_NOACT)
  }

  lemma OpPoised(s: State, op: Op, c: Core)
    requires Poised(s, c) && Fits(s, op)
    requires op.Event? || (op.GotTable? && op.ok) || op.CycleStart? || op.Tick? || op.TakeSample? || op.UtilTick?
             || op.RunAppMon? || op.AliveTick? || op.Watchdog? || op.CmdAccepted?
    ensures Poised(Do(s, op), c)
  {
    hide CpuEffect, BusEffect, CountEffect, AliveEffect;
  }

  lemma EmitPoised(s: State, eid: uint16, c: Core)
    requires Poised(s, c)
    ensures Poised(Emit(s, eid), c)
  {
    hide Do, Poised;
    PoisedWF(s, c);
    OpPoised(s, Event(eid), c);
  }

  lemma PoisedWF(s: State, c: Core)
    requires Poised(s, c)
    ensures WF(s)
  {
  }

  lemma QuietPoised(s: State, c: Core)
    requires Poised(s, c)
    ensures Poised(Acquire(s, QUIET), c)
  {
    hide Do, Poised;
    PoisedWF(s, c);
    OpPoised(s, GotTable(AppMonTable, true), c);
    var s1 := AcquireAmt(s, Same);
    OpPoised(s1, GotTable(EventMonTable, true), c);
    var s2 := AcquireEmt(s1, Same, true, true);
    OpPoised(s2, GotTable(MsgActsTable, true), c);
    OpPoised(AcquireMat(s2, Same), GotTable(ExeCountTable, true), c);
  }

  lemma UtilPoised(s: State, c: Core)
    requires Poised(s, c)
    ensures Poised(UtilPhase(s, -1), c)
  {
    hide Do, Poised, Utilization.Step;
    PoisedWF(s, c);
    var op := TakeSample(Utilization.Sample(-1, s.modes.cpuHog));
    OpPoised(s, op, c);
    OpPoised(if s.cpu.cycle == 0 then Do(s, op) else s, UtilTick, c);
  }

  lemma {:induction false} NobodyMonitored(s: State, xs: seq<AppInput>, n: nat, c: Core)
    requires Poised(s, c) && n <= |xs| == s.cfg.apps
    ensures MonitorApps(s, xs, n) == s
  {
    if n > 0 {
      NobodyMonitored(s, xs, n - 1, c);
    }
  }

  /** Up to the pipes an uneventful cycle changes nothing that is kept in view. */
  lemma BeforePipesPoised(s: State, x: CycleIn, c: Core)
    requires Poised(s, c) && CycleFits(s.cfg, x) && x.acquire == QUIET && x.reading == -1
    ensures Poised(BeforePipes(s, x), c)
  {
    hide Do, Poised, Acquire, UtilPhase, MonitorApps, WF, Confined, SameMarks, SameTables, HalfDisabled, Deeds;
    PoisedWF(s, c);
    OpPoised(s, CycleStart, c);
    var s1 := Acquire(Do(s, CycleStart), QUIET);
    QuietPoised(Do(s, CycleStart), c);
    OpPoised(s1, Tick, c);
    var s2 := UtilPhase(Do(s1, Tick), -1);
    UtilPoised(Do(s1, Tick), c);
    OpPoised(s2, RunAppMon, c);
    NobodyMonitored(Do(s2, RunAppMon), x.apps, s.cfg.apps, c);
    var s3 := AppPhase(s2, x.apps);
    OpPoised(s3, AliveTick(s3.alive + 1 >= s3.cfg.alivePeriod), c);
  }

  /** The state after the commands of such a cycle, before the watchdog. */
  lemma CommandsOnly(s: State, cmds: seq<CmdDelivery>)
    requires WF(s) && PipesFit(s.cfg, Pipes([], NoMessage, cmds, NoMessage))
    ensures ProcessCommands(s, Pipes([], NoMessage, cmds, NoMessage)) == DrainCmds(s, cmds, |cmds|)
  {
    hide WF, OneEvent, DrainCmds, Kept, Quiet;
    assert DrainEvents(s, [], 0) == s;
  }

  lemma StartPoised(cfg: Config, stored: Cds, emt: seq<EmtEntry>, mat: seq<MatEntry>)
    requires ValidConfig(cfg) && Consistent(stored) && |emt| == cfg.events && |mat| == cfg.msgActs
    ensures var run := Started(stored, emt, mat);
            && Possible(cfg, run) && Up(cfg, run)
            && var s := After(cfg, run);
               && Poised(s, Core(emt, mat, stored, s.modes.eventMon, s.bus))
               && (s.modes.eventMon ==> s.bus == Bus(true, true))
  {
    hide Poised, AppInit, SubscribePhase, Cycle, CycleOk, SubscriptionsOk, Replay, Lawful, WF, Reachable;
    var s := After(cfg, Upset(PowerOff, stored));
    StartUpPoised(s, stored, emt, mat);
    StartUpSubscribes(s, Start(emt, mat));
  }

  /** An operation that changes what is kept in view. */
  function CoreEffect(s: State, c: Core, op: Op): Core {
    match op
    case LoadEmt(t) => c.(emt := t)
    case RefreshMsgActs(t) => c.(mat := t)
    case RestoreCds => c.(cds := s.rst.store)
    case SetCds(_, n, m) => c.(cds := Sealed(n, m))
    case Switch(EventMonMode, on) => c.(eventMon := on)
    case _ => c.(bus := BusEffect(c.bus, op))
  }

  lemma CoreStep(s: State, op: Op, c: Core)
    requires Poised(s, c) && Fits(s, op)
    requires op.LoadEmt? || op.RefreshMsgActs? || op.RestoreCds? || op.SetCds? || op.Subscribe? || op.Unsubscribe?
             || (op.Switch? && op.mode.EventMonMode?)
    ensures Poised(Do(s, op), CoreEffect(s, c, op))
  {
    hide CpuEffect, CountEffect, AliveEffect;
  }

  lemma BootPoised(s: State)
    requires WF(s)
    ensures var r := Do(s, Boot);
            && Poised(r, Core(r.emt, r.msg.mat, NO_RECORD, r.modes.eventMon, Bus(false, false)))
            && r.rst.store == s.rst.store
  {
  }

  /** Acquisition that finds both tables updated. */
  lemma TablesPoised(s: State, emt: seq<EmtEntry>, mat: seq<MatEntry>, c: Core)
    requires Poised(s, c) && |emt| == s.cfg.events && |mat| == s.cfg.msgActs
    ensures Poised(Acquire(s, Start(emt, mat).acquire), c.(emt := emt, mat := mat))
  {
    hide Do, Poised;
    PoisedWF(s, c);
    OpPoised(s, GotTable(AppMonTable, true), c);
    var s1 := AcquireAmt(s, Same);
    OpPoised(s1, GotTable(EventMonTable, true), c);
    CoreStep(Do(s1, GotTable(EventMonTable, true)), LoadEmt(emt), c);
    var c2 := c.(emt := emt);
    var s2 := AcquireEmt(s1, Updated(emt), true, true);
    OpPoised(s2, GotTable(MsgActsTable, true), c2);
    CoreStep(Do(s2, GotTable(MsgActsTable, true)), RefreshMsgActs(mat), c2);
    OpPoised(AcquireMat(s2, Updated(mat)), GotTable(ExeCountTable, true), c2.(mat := mat));
  }

  lemma BothPoised(s: State, longEid: uint16, shortEid: uint16, c: Core)
    requires Poised(s, c)
    ensures Poised(SubscribeBoth(s, true, true, longEid, shortEid), c.(bus := Bus(true, true)))
  {
    hide Do, Poised;
    PoisedWF(s, c);
    CoreStep(s, Subscribe(LongFormat, true), c);
    CoreStep(Do(s, Subscribe(LongFormat, true)), Subscribe(ShortFormat, true), c.(bus := c.bus.(long := true)));
  }

  lemma StartUpPoised(s: State, stored: Cds, emt: seq<EmtEntry>, mat: seq<MatEntry>)
    requires WF(s) && Consistent(stored) && s.rst.store == stored && |emt| == s.cfg.events && |mat| == s.cfg.msgActs
    ensures var r := StartUp(s, Start(emt, mat));
            Poised(r, Core(emt, mat, stored, r.modes.eventMon, r.bus))
  {
    hide Do, Poised, Acquire, Emit, SubscribeBoth;
    var x := Start(emt, mat);
    BootPoised(s);
    var s0 := Do(s, Boot);
    var c0 := Core(s0.emt, s0.msg.mat, NO_RECORD, s0.modes.eventMon, Bus(false, false));
    CoreStep(s0, RestoreCds, c0);
    var s1 := Do(s0, RestoreCds);
    DoReset(s0, RestoreCds);
    assert CdsPhase(s0, x.cds) == s1;
    assert LoadPhase(s1, x) == s1;
    var c1 := c0.(cds := stored);
    TablesPoised(s1, emt, mat, c1);
    var c2 := c1.(emt := emt, mat := mat);
    EmitPoised(Acquire(s1, x.acquire), INIT_INF_EID, c2);
    var s2 := Emit(Acquire(s1, x.acquire), INIT_INF_EID);
    assert AppInit(s, x) == s2;
    BothPoised(s2, SUB_LONG_EVS_ERR_EID, SUB_SHORT_EVS_ERR_EID, c2);
    CoreIs(s2, c2);
    CoreIs(StartUp(s, x), if s2.modes.eventMon then c2.(bus := Bus(true, true)) else c2);
  }

  lemma CoreIs(s: State, c: Core)
    requires Poised(s, c)
    ensures s.modes.eventMon == c.eventMon && s.bus == c.bus && s.rst.cds == c.cds
  {
  }

  // ---------- The event monitor switched on ----------

  lemma SwitchPoised(s: State, on: bool, eid: uint16, c: Core)
    requires Poised(s, c)
    ensures Poised(SwitchCmd(s, EventMonMode, on, eid), c.(eventMon := on))
  {
    hide Do, Emit, Poised;
    PoisedWF(s, c);
    OpPoised(s, CmdAccepted, c);
    CoreStep(Do(s, CmdAccepted), Switch(EventMonMode, on), c);
    EmitPoised(Do(Do(s, CmdAccepted), Switch(EventMonMode, on)), eid, c.(eventMon := on));
  }

  /** The enable command, from a state in which monitoring is off or fully subscribed. */
  lemma EnabledPoised(s: State, c: Core)
    requires Poised(s, c) && (c.eventMon ==> c.bus == Bus(true, true))
    ensures Poised(OneCmd(s, Cmd(s.cfg, CC_ENABLE_EVENT_MON, true)), c.(eventMon := true, bus := Bus(true, true)))
  {
    hide Do, Emit, Poised, SwitchCmd, SubscribeBoth;
    PoisedWF(s, c);
    CoreIs(s, c);
    if s.modes.eventMon {
      SwitchPoised(s, true, ENABLE_EVENTMON_DBG_EID, c);
    } else {
      BothPoised(s, EVENTMON_LONG_SUB_EID, EVENTMON_SHORT_SUB_EID, c);
      SwitchPoised(SubscribeBoth(s, true, true, EVENTMON_LONG_SUB_EID, EVENTMON_SHORT_SUB_EID), true,
                   ENABLE_EVENTMON_DBG_EID, c.(bus := Bus(true, true)));
    }
  }

  lemma WatchdogPoised(s: State, c: Core)
    requires Poised(s, c)
    ensures Poised(WatchdogPhase(s), c)
  {
    hide Do, Poised;
    PoisedWF(s, c);
    OpPoised(s, Watchdog, c);
  }

  // ---------- Runs ----------

  lemma WakeupPossible(cfg: Config, run: Run, x: CycleIn)
    requires Possible(cfg, run) && Up(cfg, run) && CycleFits(cfg, x)
    ensures Possible(cfg, Wakeup(run, x))
  {
    hide After, Up, HsSound.Resting, Reachable, WF;
  }

  lemma WakeupAfter(cfg: Config, run: Run, x: CycleIn)
    requires Possible(cfg, run) && Up(cfg, run) && CycleFits(cfg, x) && Possible(cfg, Wakeup(run, x))
    ensures After(cfg, Wakeup(run, x)) == Cycle(After(cfg, run), x)
  {
    hide Cycle, CycleOk, StartUpOk, Up, Possible, HsSound.Resting, HsSound.Sound, HsSound.Live, Reachable, WF, Fits,
         Replay, Lawful, Do, Can;
  }

  lemma WakeupUp(cfg: Config, run: Run, x: CycleIn)
    requires Possible(cfg, run) && Up(cfg, run) && CycleFits(cfg, x) && Possible(cfg, Wakeup(run, x))
    ensures Up(cfg, Wakeup(run, x)) <==> CycleOk(After(cfg, run), x)
  {
    hide Cycle, CycleOk, StartUpOk, After, Possible, HsSound.Resting, HsSound.Sound, HsSound.Live, Reachable, WF,
         Fits;
  }

  /** One more uneventful cycle that executes these commands. */
  lemma CommandedRun(cfg: Config, run: Run, cmds: seq<CmdDelivery>, c: Core)
    requires Possible(cfg, run) && Up(cfg, run) && Poised(After(cfg, run), c)
    ensures var x := Commanded(cfg, cmds);
            && CycleFits(cfg, x) && Possible(cfg, Wakeup(run, x)) && Up(cfg, Wakeup(run, x))
            && Poised(BeforePipes(After(cfg, run), x), c)
  {
    hide Poised, After, Up, Possible, BeforePipes, ProcessCommands, DrainCmds, WatchdogPhase, WF, Reachable,
         HsSound.Resting;
    var x := Commanded(cfg, cmds);
    WakeupPossible(cfg, run, x);
    WakeupUp(cfg, run, x);
    BeforePipesPoised(After(cfg, run), x, c);
  }

  /** Such a cycle from state s. */
  lemma CommandedCycle(s: State, cmds: seq<CmdDelivery>)
    requires WF(s) && CycleFits(s.cfg, Commanded(s.cfg, cmds))
    ensures Cycle(s, Commanded(s.cfg, cmds))
              == WatchdogPhase(DrainCmds(BeforePipes(s, Commanded(s.cfg, cmds)), cmds, |cmds|))
  {
    hide BeforePipes, ProcessCommands, DrainCmds, WatchdogPhase, WF;
    CommandsOnly(BeforePipes(s, Commanded(s.cfg, cmds)), cmds);
  }

  lemma OneOfOne(s: State, d: CmdDelivery)
    requires WF(s)
    ensures DrainCmds(s, [d], |[d]|) == OneCmd(s, d)
  {
    hide OneCmd, WF, Quiet;
    assert DrainCmds(s, [d], 0) == s;
  }

  /** Event monitoring on, fully subscribed, with any stored record and any tables. */
  function Enabled(cfg: Config, stored: Cds, emt: seq<EmtEntry>, mat: seq<MatEntry>): Run {
    Wakeup(Started(stored, emt, mat), Commanded(cfg, [Cmd(cfg, CC_ENABLE_EVENT_MON, true)]))
  }

  lemma EnabledRun(cfg: Config, stored: Cds, emt: seq<EmtEntry>, mat: seq<MatEntry>)
    requires ValidConfig(cfg) && Consistent(stored) && |emt| == cfg.events && |mat| == cfg.msgActs
    ensures var run := Enabled(cfg, stored, emt, mat);
            && Possible(cfg, run) && Up(cfg, run)
            && Poised(After(cfg, run), Core(emt, mat, stored, true, Bus(true, true)))
  {
    hide Poised, After, BeforePipes, OneCmd, DrainCmds, WatchdogPhase, Possible, Up;
    var run := Started(stored, emt, mat);
    StartPoised(cfg, stored, emt, mat);
    var c := Core(emt, mat, stored, After(cfg, run).modes.eventMon, After(cfg, run).bus);
    var d := Cmd(cfg, CC_ENABLE_EVENT_MON, true);
    CommandedRun(cfg, run, [d], c);
    var s := BeforePipes(After(cfg, run), Commanded(cfg, [d]));
    WakeupAfter(cfg, run, Commanded(cfg, [d]));
    CommandedCycle(After(cfg, run), [d]);
    OneOfOne(s, d);
    EnabledPoised(s, c);
    WatchdogPoised(OneCmd(s, d), c.(eventMon := true, bus := Bus(true, true)));
  }

  // ---------- A half-failed disable command ----------

  /** From full subscriptions, a disable command whose second call fails leaves event monitoring on with only the
      short format subscribed. */
  lemma HalfDisable(s: State)
    requires WF(s) && s.modes.eventMon && s.bus == Bus(true, true)
    ensures var r := OneCmd(s, Cmd(s.cfg, CC_DISABLE_EVENT_MON, false));
            r.modes.eventMon && r.bus == Bus(false, true)
  {
    hide Emit, Reject, AppEffect, EmtEffect, MsgEffect, CpuEffect, LoadsEffect, ResetEffect, CountEffect,
         AliveEffect, WF, Confined, SameMarks, SameTables, HalfDisabled, Deeds;
  }

  lemma WatchdogLeaves(s: State)
    requires WF(s)
    ensures var r := WatchdogPhase(s); r.modes == s.modes && r.bus == s.bus && r.rst == s.rst
  {
    hide Do;
  }

  /** A run that ends so, for every configuration. */
  lemma HalfDisabledRun(cfg: Config) returns (run: Run)
    requires ValidConfig(cfg)
    ensures Possible(cfg, run) && Up(cfg, run)
    ensures After(cfg, run).modes.eventMon && After(cfg, run).bus == Bus(false, true)
  {
    hide Poised, After, BeforePipes, OneCmd, DrainCmds, WatchdogPhase, Possible, Up;
    var emt, mat := Copies(cfg.events, NO_EVENT), Copies(cfg.msgActs, NO_MSG);
    SealedConsistent(0, 0);
    EnabledRun(cfg, Sealed(0, 0), emt, mat);
    var before := Enabled(cfg, Sealed(0, 0), emt, mat);
    var c := Core(emt, mat, Sealed(0, 0), true, Bus(true, true));
    var d := Cmd(cfg, CC_DISABLE_EVENT_MON, false);
    CommandedRun(cfg, before, [d], c);
    var s := BeforePipes(After(cfg, before), Commanded(cfg, [d]));
    WakeupAfter(cfg, before, Commanded(cfg, [d]));
    CommandedCycle(After(cfg, before), [d]);
    OneOfOne(s, d);
    CoreIs(s, c);
    HalfDisable(s);
    WatchdogLeaves(OneCmd(s, d));
    run := Wakeup(before, Commanded(cfg, [d]));
  }

  // ---------- A failed initialization ----------

  /** The system monitor device is there and refuses to start; all else goes well. */
  function Deviceless(cfg: Config): Run {
    StartsUp(PowerOff, Start(Copies(cfg.events, NO_EVENT), Copies(cfg.msgActs, NO_MSG)).(end := DeviceRefused))
  }

  /** For every configuration that monitors events there is a run with HS up, cycling with event monitoring on and
      nothing subscribed, which an enable command does not repair. */
  lemma DeafRun(cfg: Config) returns (run: Run)
    requires ValidConfig(cfg) && cfg.eventMonDefault
    ensures run == Wakeup(Deviceless(cfg), Commanded(cfg, [Cmd(cfg, CC_ENABLE_EVENT_MON, true)]))
    ensures Possible(cfg, run) && Up(cfg, run) && Deaf(After(cfg, run))
  {
    hide After, Cycle, BeforePipes, AppInit, Deaf;
    var before, x := Deviceless(cfg), Commanded(cfg, [Cmd(cfg, CC_ENABLE_EVENT_MON, true)]);
    WakeupPossible(cfg, before, x);
    run := Wakeup(before, x);
    WakeupUp(cfg, before, x);
    assert NeverSubscribed(cfg, run);
    SubscribedWhileUp(cfg, run);
  }

  // ---------- The reset limit below the count ----------

  lemma LimitLowered(s: State)
    requires WF(s)
    ensures OneCmd(s, Cmd(s.cfg, CC_SET_MAX_RESETS, true)).rst.cds == Sealed(s.rst.cds.resets, 0)
  {
    hide Do, Emit, WF, Confined, SameMarks, SameTables, HalfDisabled, Deeds;
    var s1 := Do(s, CmdAccepted);
    DoReset(s, CmdAccepted);
    DoReset(s1, SetCds(Limited, s.rst.cds.resets, 0));
  }

  /** A run that restores a count of 1 and is then commanded to a limit of 0: count <= limit is no invariant. */
  lemma LimitCanDropBelowCount(cfg: Config) returns (run: Run)
    requires ValidConfig(cfg)
    ensures Possible(cfg, run) && Up(cfg, run) && !ResetRuns.WithinLimit(After(cfg, run).rst.cds)
  {
    hide Poised, After, BeforePipes, OneCmd, DrainCmds, WatchdogPhase, Possible, Up;
    var emt, mat := Copies(cfg.events, NO_EVENT), Copies(cfg.msgActs, NO_MSG);
    SealedConsistent(1, 5);
    var before := Started(Sealed(1, 5), emt, mat);
    StartPoised(cfg, Sealed(1, 5), emt, mat);
    var c := Core(emt, mat, Sealed(1, 5), After(cfg, before).modes.eventMon, After(cfg, before).bus);
    var d := Cmd(cfg, CC_SET_MAX_RESETS, true);
    CommandedRun(cfg, before, [d], c);
    var s := BeforePipes(After(cfg, before), Commanded(cfg, [d]));
    WakeupAfter(cfg, before, Commanded(cfg, [d]));
    CommandedCycle(After(cfg, before), [d]);
    OneOfOne(s, d);
    CoreIs(s, c);
    LimitLowered(s);
    WatchdogLeaves(OneCmd(s, d));
    run := Wakeup(before, Commanded(cfg, [d]));
  }
}
