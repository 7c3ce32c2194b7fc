/** What every cycle does exactly once. */
module CycleRuns {
  import opened HsTypes
  import opened HsState
  import opened HsSteps
  import opened HsSound
  import opened ResetRuns
  import Utilization

  // ---------- Utilization sampling ----------

  /** Cycles per interval; a configured 0 makes the 32-bit counter run through all its values. */
  function Period(cfg: Config): (p: nat)
    requires ValidConfig(cfg)
    ensures p >= 1
  {
    if cfg.interval == 0 then U32 else cfg.interval
  }

  lemma ModStep(n: nat, p: nat)
    requires p >= 1
    ensures (n + 1) % p == if n % p == p - 1 then 0 else n % p + 1
  {
    DivModStep(n, p);
  }

  lemma ModUnique(n: nat, q: nat, r: nat, p: nat)
    requires p >= 1 && r < p && n == q * p + r
    ensures n % p == r && n / p == q
  {
    var d := n / p - q;
    assert n == (n / p) * p + n % p;
    assert d * p == r - n % p;
    MulSign(d, p);
  }

  lemma MulSign(d: int, p: int)
    requires p >= 0
    ensures d >= 1 ==> d * p >= p
    ensures d <= -1 ==> d * p <= -p
  {
  }

  /** The counter once k utilization ticks have passed. */
  function CyclesLeft(k: nat, p: nat): nat
    requires p >= 1
  {
    if k % p == 0 then 0 else p - k % p
  }

  lemma CyclesLeftStep(cfg: Config, k: nat)
    requires ValidConfig(cfg)
    ensures var p := Period(cfg);
            CyclesLeft(k, p) < U32 && NextUtilCycle(cfg, CyclesLeft(k, p)) == CyclesLeft(k + 1, p)
  {
    ModStep(k, Period(cfg));
  }

  lemma {:induction false} CycleCounter(cfg: Config, t: Trace)
    requires Lawful(cfg, t)
    ensures Replay(cfg, t).cpu.cycle == CyclesLeft(MarksOf(t).utilTicks, Period(cfg))
  {
    hide AppEffect, EmtEffect, MsgEffect, ModesEffect, LoadsEffect, ResetEffect, BusEffect, CountEffect, AliveEffect;
    hide CyclesLeft, NextUtilCycle, Confined, SameMarks, SameTables, HalfDisabled, Deeds;
    CyclesLeftZero(Period(cfg));
    if t.Then? {
      CycleCounter(cfg, t.before);
      CyclesLeftStep(cfg, MarksOf(t.before).utilTicks);
    }
  }

  lemma CyclesLeftZero(p: nat)
    requires p >= 1
    ensures CyclesLeft(0, p) == 0
  {
    ModUnique(0, 0, 0, p);
  }

  /** The utilization tick that is number k of a boot (from 0) was preceded by a sample exactly when k is a
      multiple of the cycles per interval. */
  lemma SampledOnMultiples(cfg: Config, t: Trace)
    requires Lawful(cfg, t) && t.Then? && t.op.UtilTick?
    ensures Sampled(t.before) <==> MarksOf(t.before).utilTicks % Period(cfg) == 0
  {
    hide Do;
    CycleCounter(cfg, t.before);
  }

  lemma DueOnMultiples(s: State)
    requires WF(s) && Resting(s)
    ensures s.cpu.cycle == 0 <==> MarksOf(s.log).utilTicks % Period(s.cfg) == 0
  {
    CycleCounter(s.cfg, s.log);
  }

  // ---------- Aliveness ----------

  /** Aliveness strings output since memory was last cleared. */
  function Printed(t: Trace): nat {
    match t
    case Start => 0
    case Then(before, op) =>
      if op.Boot? then 0 else Printed(before) + if op.AliveTick? && op.printed then 1 else 0
  }

  lemma DivModStep(k: nat, p: nat)
    requires p >= 1
    ensures 0 / p == 0 && 0 % p == 0
    ensures k % p + 1 >= p ==> (k + 1) / p == k / p + 1 && (k + 1) % p == 0
    ensures k % p + 1 < p ==> (k + 1) / p == k / p && (k + 1) % p == k % p + 1
  {
    var q, r := k / p, k % p;
    assert k == q * p + r;
    ModUnique(0, 0, 0, p);
    if r + 1 >= p {
      assert k + 1 == (q + 1) * p;
      ModUnique(k + 1, q + 1, 0, p);
    } else {
      ModUnique(k + 1, q, r + 1, p);
    }
  }

  /** After k aliveness-enabled cycles exactly k / period strings were output and the counter is
      k mod period, whatever was switched on and off in between. */
  lemma {:induction false} AlivenessPeriodic(cfg: Config, t: Trace)
    requires Lawful(cfg, t)
    ensures Printed(t) == MarksOf(t).aliveTicks / cfg.alivePeriod
    ensures Replay(cfg, t).alive == MarksOf(t).aliveTicks % cfg.alivePeriod
  {
    hide Do, Replay, Lawful, Can, WF, Confined, SameMarks, SameTables, HalfDisabled, Deeds;
    StartsAtZero(cfg, t);
    if t == Start || t.op.Boot? {
      DivModStep(0, cfg.alivePeriod);
    }
    if t.Then? {
      Unfold(cfg, t);
      AlivenessPeriodic(cfg, t.before);
      AliveStep(Replay(cfg, t.before), t.op);
      if t.op.AliveTick? {
        DivModStep(MarksOf(t.before).aliveTicks, cfg.alivePeriod);
      }
    }
  }

  lemma AliveStep(s: State, op: Op)
    requires WF(s) && Can(s, op)
    ensures var reached := s.alive + 1 >= s.cfg.alivePeriod;
            && (op.AliveTick? ==> op.printed == reached && Do(s, op).alive == if reached then 0 else s.alive + 1)
            && (!op.AliveTick? ==> Do(s, op).alive == if op.Boot? then 0 else s.alive)
  {
  }

  lemma StartsAtZero(cfg: Config, t: Trace)
    requires Lawful(cfg, t)
    ensures ValidConfig(cfg) && Lawful(cfg, Start) && Replay(cfg, Start).alive == 0
  {
  }

  // ---------- One cycle ----------

  lemma OpMarks(s: State, op: Op)
    requires WF(s) && Fits(s, op)
    ensures MarksOf(Do(s, op).log) == MarksOf(Then(s.log, op))
  {
  }

  lemma SameCycle(s: State, op: Op)
    requires WF(s) && (op.TakeSample? || op.HogEvent? || op.UtilTick?)
    ensures Do(s, op).cpu.cycle == if op.UtilTick? then NextUtilCycle(s.cfg, s.cpu.cycle) else s.cpu.cycle
  {
    hide Utilization.Step;
  }

  lemma MonitorUtilMarks(s: State, reading: int32)
    requires WF(s)
    ensures var m, r := MarksOf(s.log), MonitorUtil(s, reading);
            MarksOf(r.log) == m.(samples := m.samples + 1) && r.cpu.cycle == s.cpu.cycle
  {
    hide Do, Utilization.Alarm;
    var x := Utilization.Sample(reading, s.modes.cpuHog);
    var s1 := Do(s, TakeSample(x));
    OpMarks(s, TakeSample(x));
    SameCycle(s, TakeSample(x));
    OpMarks(s1, HogEvent);
    SameCycle(s1, HogEvent);
  }

  lemma UtilPhaseMarks(s: State, reading: int32)
    requires WF(s)
    ensures var m := MarksOf(s.log);
            MarksOf(UtilPhase(s, reading).log)
              == m.(utilTicks := m.utilTicks + 1, samples := m.samples + if s.cpu.cycle == 0 then 1 else 0)
    ensures UtilPhase(s, reading).cpu.cycle == NextUtilCycle(s.cfg, s.cpu.cycle)
  {
    hide Do, MonitorUtil;
    MonitorUtilMarks(s, reading);
    var s1 := if s.cpu.cycle == 0 then MonitorUtil(s, reading) else s;
    OpMarks(s1, UtilTick);
    SameCycle(s1, UtilTick);
  }

  /** The cycle up to and including the utilization tick. */
  lemma FirstHalfMarks(s: State, x: CycleIn)
    requires WF(s) && CycleFits(s.cfg, x)
    ensures var m := MarksOf(s.log);
            MarksOf(Prepare(s, x).log)
              == m.(cycles := m.cycles + 1, ticks := m.ticks + 1, utilTicks := m.utilTicks + 1,
                    samples := m.samples + if s.cpu.cycle == 0 then 1 else 0)
  {
    hide Acquire, UtilPhase, Do;
    OpMarks(s, CycleStart);
    SameCpu(s, CycleStart);
    var s1 := Acquire(Do(s, CycleStart), x.acquire);
    OpMarks(s1, Tick);
    SameCpu(s1, Tick);
    UtilPhaseMarks(Do(s1, Tick), x.reading);
  }

  /** The application monitor and the aliveness output. */
  lemma SecondHalfMarks(s: State, xs: seq<AppInput>)
    requires WF(s) && |xs| == s.cfg.apps
    ensures var m, r := MarksOf(s.log), AlivePhase(AppPhase(s, xs));
            MarksOf(r.log) == m.(aliveTicks := m.aliveTicks + if r.modes.aliveness then 1 else 0)
  {
    hide MonitorApps, Do, WF, Confined, SameTables, Deeds, HalfDisabled;
    OpMarks(s, RunAppMon);
    var s1 := AppPhase(s, xs);
    var op := AliveTick(s1.alive + 1 >= s1.cfg.alivePeriod);
    OpMarks(s1, op);
    SameCpu(s1, op);
  }

  lemma BeforePipesMarks(s: State, x: CycleIn)
    requires WF(s) && CycleFits(s.cfg, x)
    ensures var m, r := MarksOf(s.log), BeforePipes(s, x);
            MarksOf(r.log) == m.(cycles := m.cycles + 1, ticks := m.ticks + 1, utilTicks := m.utilTicks + 1,
                                 samples := m.samples + (if s.cpu.cycle == 0 then 1 else 0),
                                 aliveTicks := m.aliveTicks + if r.modes.aliveness then 1 else 0)
  {
    hide Prepare, AppPhase, AlivePhase;
    FirstHalfMarks(s, x);
    SecondHalfMarks(Prepare(s, x), x.apps);
  }

  lemma SameCpu(s: State, op: Op)
    requires WF(s) && Fits(s, op) && (op.CycleStart? || op.Tick? || op.AliveTick?)
    ensures Do(s, op).cpu == s.cpu && Do(s, op).modes == s.modes
  {
  }

  /** Every cycle begins once, cools the message actions down once and ticks the utilization counter once;
      it samples exactly when its number in this boot is a multiple of the cycles per interval, ticks
      aliveness exactly when enabled, and services the watchdog exactly once unless a processor reset was
      issued in this boot, then not at all. */
  lemma CycleMarks(s: State, x: CycleIn)
    requires WF(s) && Resting(s) && CycleFits(s.cfg, x)
    ensures var m, r := MarksOf(s.log), Cycle(s, x);
            MarksOf(r.log) == Marks(
              m.boots, m.cycles + 1, m.ticks + 1, m.utilTicks + 1,
              m.samples + (if m.utilTicks % Period(s.cfg) == 0 then 1 else 0),
              m.services + (if ResetThisBoot(r.log) then 0 else 1),
              m.aliveTicks + (if BeforePipes(s, x).modes.aliveness then 1 else 0))
  {
    hide BeforePipes, ProcessCommands, WatchdogPhase, Do, Confined, SameTables, ResetThisBoot, Period, Ready, Resting,
         Sampled;
    DueOnMultiples(s);
    BeforePipesMarks(s, x);
    BeforePipesSound(s, x);
    ProcessCommandsSound(BeforePipes(s, x), x.pipes);
    var s1 := ProcessCommands(BeforePipes(s, x), x.pipes);
    WatchdogMarks(s1);
  }

  lemma ServicedUnlessReset(s: State)
    requires WF(s) && Ready(s)
    ensures s.rst.watchdog <==> !ResetThisBoot(s.log)
    ensures ResetThisBoot(Do(s, Watchdog).log) <==> ResetThisBoot(s.log)
  {
    hide Due, Owing;
    DoReset(s, Watchdog);
    WatchdogFlag(s.cfg, s.log);
  }

  lemma WatchdogMarks(s: State)
    requires WF(s) && Ready(s)
    ensures var m, r := MarksOf(s.log), WatchdogPhase(s);
            MarksOf(r.log) == m.(services := m.services + if ResetThisBoot(r.log) then 0 else 1)
  {
    hide Do, Ready, ResetThisBoot;
    OpMarks(s, Watchdog);
    ServicedUnlessReset(s);
  }

  /** Start-up counts as one boot and does no cycle work. */
  lemma StartUpMarks(s: State, x: InitIn)
    requires WF(s) && AcquireFits(s.cfg, x.acquire)
    ensures MarksOf(StartUp(s, x).log) == Marks(MarksOf(s.log).boots + 1, 0, 0, 0, 0, 0, 0)
  {
    hide Do, FromBoot, Subscribed;
    OpMarks(s, Boot);
  }
}
