/** CPU utilization over traces. */
module UtilRuns {
  import opened HsTypes
  import opened HsState
  import U = Utilization

  /** The samples taken since memory was last cleared. */
  function SamplesOf(t: Trace): seq<U.Sample> {
    match t
    case Start => []
    case Then(before, op) =>
      if op.Boot? then []
      else if op.TakeSample? then SamplesOf(before) + [op.sample]
      else SamplesOf(before)
  }

  /** Hogging events sent since memory was last cleared. */
  function HogEvents(t: Trace): nat {
    match t
    case Start => 0
    case Then(before, op) => if op.Boot? then 0 else HogEvents(before) + if op.HogEvent? then 1 else 0
  }

  lemma OneMore(c: Config, samples: seq<U.Sample>, x: U.Sample)
    requires ValidConfig(c)
    ensures U.Run(c, samples + [x]) == U.Step(c, U.Run(c, samples), x)
    ensures U.HogTime(c, samples + [x]) == U.NextHogTime(c, U.HogTime(c, samples), x)
    ensures U.Alarms(c, samples + [x])
              == U.Alarms(c, samples) + if U.Alarm(c, U.HogTime(c, samples), x) then 1 else 0
  {
    assert (samples + [x])[..|samples|] == samples;
  }

  lemma CpuStep(s: State, op: Op)
    requires WF(s) && Fits(s, op) && s.cpu.util == U.Run(s.cfg, SamplesOf(s.log))
    ensures Do(s, op).cpu.util == U.Run(s.cfg, SamplesOf(Then(s.log, op)))
  {
    hide U.Step, U.Run, AppEffect, EmtEffect, MsgEffect, ModesEffect, LoadsEffect, ResetEffect, BusEffect, CountEffect,
         AliveEffect;
    RunNothing(s.cfg);
    if op.TakeSample? {
      OneMore(s.cfg, SamplesOf(s.log), op.sample);
    }
  }

  lemma RunNothing(c: Config)
    requires ValidConfig(c)
    ensures U.Run(c, []) == U.Fresh(c)
  {
  }

  /** The tracker, its index, the reports and the hogging counter are those of the samples of this boot. */
  lemma {:induction false} UtilFollowsSamples(cfg: Config, t: Trace)
    requires Lawful(cfg, t)
    ensures Replay(cfg, t).cpu.util == U.Run(cfg, SamplesOf(t))
  {
    hide Do, U.Run;
    RunNothing(cfg);
    if t.Then? {
      UtilFollowsSamples(cfg, t.before);
      Unfold(cfg, t);
      CpuStep(Replay(cfg, t.before), t.op);
    }
  }

  /** What is reported at any moment is the mean of the last A and the peak of the last N values of the history
      of this boot, or "unknown" after an unreadable interval. */
  lemma ReportsSampledHistory(cfg: Config, t: Trace)
    requires Lawful(cfg, t) && SamplesOf(t) != []
    ensures var u, samples := Replay(cfg, t).cpu.util, SamplesOf(t);
            var h := U.History(cfg, samples);
            if samples[|samples| - 1].reading < 0 then u.avg == U.UNKNOWN && u.peak == U.UNKNOWN
            else u.avg == U.Mean(U.Sum(U.LastN(h, cfg.avgN)), cfg.avgN) && u.peak == U.Max(U.LastN(h, cfg.peakN))
  {
    hide U.Run;
    UtilFollowsSamples(cfg, t);
    U.ReportsHistory(cfg, SamplesOf(t));
  }

  function Pending(s: State): nat
    requires WF(s)
  {
    if Owing(s) then 1 else 0
  }

  lemma HogStep(s: State, op: Op)
    requires WF(s) && Can(s, op) && s.cpu.util.hogTime == U.HogTime(s.cfg, SamplesOf(s.log))
    requires HogEvents(s.log) + Pending(s) == U.Alarms(s.cfg, SamplesOf(s.log))
    ensures var r := Do(s, op); HogEvents(r.log) + Pending(r) == U.Alarms(s.cfg, SamplesOf(r.log))
  {
    hide Do, U.HogTime, U.Alarms, U.Hot, U.Alarm;
    NoAlarms(s.cfg);
    DoReset(s, op);
    if op.TakeSample? {
      OneMore(s.cfg, SamplesOf(s.log), op.sample);
      SampleOwes(s, op.sample);
    } else {
      OwedUntilSent(s, op);
    }
  }

  lemma SampleOwes(s: State, x: U.Sample)
    requires WF(s)
    ensures Owing(Do(s, TakeSample(x))) <==> U.Alarm(s.cfg, s.cpu.util.hogTime, x)
  {
    hide U.Step;
    U.StepHogTime(s.cfg, s.cpu.util, x);
    assert LastSample(Do(s, TakeSample(x)).log) == Some(x);
  }

  lemma OwedUntilSent(s: State, op: Op)
    requires WF(s) && Fits(s, op) && !op.TakeSample?
    ensures Owing(Do(s, op)) <==> op.CdsUpset? && Owing(s)
  {
    hide U.Hot, AppEffect, EmtEffect, MsgEffect, ModesEffect, LoadsEffect, ResetEffect, BusEffect, CountEffect,
         AliveEffect;
    assert Do(s, op).log == Then(s.log, op);
  }

  lemma NoAlarms(c: Config)
    requires ValidConfig(c)
    ensures U.Alarms(c, []) == 0
  {
  }

  lemma {:induction false} HogEventsAreAlarms(cfg: Config, t: Trace)
    requires Lawful(cfg, t)
    ensures HogEvents(t) + Pending(Replay(cfg, t)) == U.Alarms(cfg, SamplesOf(t))
  {
    hide Do, Owing, U.Alarms, U.Run, U.HogTime;
    NoAlarms(cfg);
    NothingPending(cfg);
    if t.Then? {
      HogEventsAreAlarms(cfg, t.before);
      Unfold(cfg, t);
      UtilFollowsSamples(cfg, t.before);
      U.RunHogTime(cfg, SamplesOf(t.before));
      HogStep(Replay(cfg, t.before), t.op);
    }
  }

  lemma NothingPending(cfg: Config)
    requires ValidConfig(cfg)
    ensures !Owing(Replay(cfg, Start))
  {
  }

  /** At any moment of a boot, save between a sample and the event it calls for, the hogging events sent are
      those owed for the streaks of hot readings: one for each that reached the limit. */
  lemma HogEventsPerStreak(cfg: Config, t: Trace)
    requires Lawful(cfg, t) && !Owing(Replay(cfg, t))
    ensures HogEvents(t) == U.OwedAll(cfg, U.Streaks(cfg, SamplesOf(t)))
  {
    hide Replay, Lawful;
    HogEventsAreAlarms(cfg, t);
    U.AlarmsPerStreak(cfg, SamplesOf(t));
  }
}
