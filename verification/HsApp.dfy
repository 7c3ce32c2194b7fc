/** The HS application as it is written: one global record updated in place, loops over its arrays.
    Each method is proved to do to the state what the step function of the same name says. */
module HsApp {
  import opened HsTypes
  import opened CriticalData
  import opened HsState
  import opened HsSteps
  import AppMonitor
  import Utilization

  /** What lives outside HS and survives its reboots: the critical data store, the event subscriptions
      and the record of everything that happened. */
  class Cfe {
    var store: Cds
    var long: bool
    var short: bool
    ghost var log: Trace

    constructor ()
      ensures store == NO_RECORD && !long && !short && log == Start
    {
      store := NO_RECORD;
      long := false;
      short := false;
      log := Start;
    }

    /** The software bus drops the subscriptions of the instance that was running. */
    method EndInstance()
      modifies `long, `short, `log
      ensures !long && !short && log == Then(old(log), Boot)
    {
      long := false;
      short := false;
      log := Then(log, Boot);
    }
  }

  /** Cleared memory. */
  method Words(n: nat) returns (a: array<uint32>)
    ensures fresh(a) && a[..] == Copies(n, 0)
  {
    a := new uint32[n](_ => 0);
  }

  method HalfWords(n: nat) returns (a: array<uint16>)
    ensures fresh(a) && a[..] == Copies(n, 0)
  {
    a := new uint16[n](_ => 0);
  }

  class App {
    const cfg: Config
    const cfe: Cfe
    // Tables, always present.
    var amt: seq<AmtEntry>
    var emt: seq<EmtEntry>
    var mat: seq<MatEntry>
    // States and load flags.
    var appMonState: bool
    var eventMonState: bool
    var alivenessState: bool
    var cpuHogState: bool
    var appMonLoaded: bool
    var eventMonLoaded: bool
    var msgActsState: bool
    var exeCountState: bool
    var serviceWatchdog: bool
    var cdsState: bool
    var cdsData: Cds
    // Counters.
    var cmdCount: uint8
    var cmdErrCount: uint8
    var eventsMonitored: uint32
    var msgActExec: uint32
    var aliveCounter: uint32
    var utilCycle: uint32
    // Utilization.
    var hogTime: uint32
    var utilIndex: nat
    var utilAvg: uint32
    var utilPeak: uint32
    const tracker: array<uint32>
    // Monitors.
    const cooldown: array<uint16>
    const countdown: array<uint16>
    const lastCount: array<uint32>
    const enables: array<uint32>

    // ---------- The abstract state ----------

    ghost predicate Shaped() {
      && ValidConfig(cfg)
      && tracker.Length == cfg.peakN
      && cooldown.Length == cfg.msgActs
      && countdown.Length == lastCount.Length == cfg.apps
      && enables.Length == AppMonitor.Words(cfg.apps)
      && cooldown != countdown && tracker != lastCount && tracker != enables && lastCount != enables
    }

    ghost function AppOf(): AppPart
      reads this`amt, countdown, lastCount, enables
    {
      AppPart(amt, AppMonitor.AppMon(countdown[..], lastCount[..], enables[..]))
    }

    ghost function MsgOf(): MsgPart
      reads this`mat, cooldown
    {
      MsgPart(mat, cooldown[..])
    }

    ghost function CpuOf(): CpuPart
      reads this`hogTime, this`utilIndex, this`utilAvg, this`utilPeak, this`utilCycle, tracker
    {
      CpuPart(Utilization.Util(hogTime, utilIndex, tracker[..], utilAvg, utilPeak), utilCycle)
    }

    ghost function ModesOf(): Modes
      reads this`appMonState, this`eventMonState, this`alivenessState, this`cpuHogState
    {
      Modes(appMonState, eventMonState, alivenessState, cpuHogState)
    }

    ghost function LoadsOf(): Loads
      reads this`appMonLoaded, this`eventMonLoaded, this`msgActsState, this`exeCountState
    {
      Loads(appMonLoaded, eventMonLoaded, msgActsState, exeCountState)
    }

    ghost function ResetOf(): ResetPart
      reads this`serviceWatchdog, this`cdsState, this`cdsData, cfe`store
    {
      ResetPart(serviceWatchdog, cdsState, cdsData, cfe.store)
    }

    ghost function CountOf(): Counters
      reads this`cmdCount, this`cmdErrCount, this`eventsMonitored, this`msgActExec
    {
      Counters(cmdCount, cmdErrCount, eventsMonitored, msgActExec)
    }

    ghost function Now(): State
      reads this, cfe, tracker, cooldown, countdown, lastCount, enables
    {
      State(cfg, AppOf(), emt, MsgOf(), CpuOf(), ModesOf(), LoadsOf(), ResetOf(), Bus(cfe.long, cfe.short),
            CountOf(), aliveCounter, cfe.log)
    }

    ghost predicate Valid()
      reads this, cfe, tracker, cooldown, countdown, lastCount, enables
    {
      Shaped() && WF(Now())
    }

    // ---------- Start-up: memory cleared, defaults set, pipes new ----------

    constructor (cfg: Config, cfe: Cfe)
      requires ValidConfig(cfg)
      modifies cfe
      ensures this.cfg == cfg && this.cfe == cfe
      ensures fresh(tracker) && fresh(cooldown) && fresh(countdown) && fresh(lastCount) && fresh(enables)
      ensures Shaped()
      ensures var b := Booted(cfg, old(cfe.store), Then(old(cfe.log), Boot));
              && AppOf() == b.app && emt == b.emt && MsgOf() == b.msg && CpuOf() == b.cpu
              && ModesOf() == b.modes && LoadsOf() == b.loads && ResetOf() == b.rst
              && Bus(cfe.long, cfe.short) == b.bus && CountOf() == b.count && aliveCounter == b.alive
              && cfe.log == b.log
    {
      hide Copies, WF, AppMonitor.Valid, AppMonitor.Words, Utilization.Valid, MarksOf, TableOk, Sampled, HalfDisabled,
           Deeds;
      cfe.EndInstance();
      var tracker := Words(cfg.peakN);
      var lastCount := Words(cfg.apps);
      var enables := Words(AppMonitor.Words(cfg.apps));
      var cooldown := HalfWords(cfg.msgActs);
      var countdown := HalfWords(cfg.apps);
      this.cfg := cfg;
      this.cfe := cfe;
      amt := Copies(cfg.apps, NO_APP);
      emt := Copies(cfg.events, NO_EVENT);
      mat := Copies(cfg.msgActs, NO_MSG);
      appMonState := cfg.appMonDefault;
      eventMonState := cfg.eventMonDefault;
      alivenessState := cfg.aliveDefault;
      cpuHogState := cfg.hogDefault;
      appMonLoaded := true;
      eventMonLoaded := true;
      msgActsState := true;
      exeCountState := true;
      serviceWatchdog := true;
      cdsState := true;
      cdsData := NO_RECORD;
      cmdCount := 0;
      cmdErrCount := 0;
      eventsMonitored := 0;
      msgActExec := 0;
      aliveCounter := 0;
      utilCycle := 0;
      hogTime := 0;
      utilIndex := 0;
      utilAvg := 0;
      utilPeak := 0;
      this.tracker := tracker;
      this.cooldown := cooldown;
      this.countdown := countdown;
      this.lastCount := lastCount;
      this.enables := enables;
    }

    // ---------- Shared helpers ----------

    method SendEvent(eid: uint16)
      requires Valid()
      modifies cfe`log
      ensures Valid() && Now() == Emit(old(Now()), eid)
    {
      hide Confined, SameMarks, SameTables, Do, AppOf, MsgOf, CpuOf, ModesOf, LoadsOf, ResetOf, CountOf;
      LogOnly(Now(), Event(eid));
      cfe.log := Then(cfe.log, Event(eid));
    }

    /** Record an operation that changes nothing in HS; HogEvent stands for CPUMON_HOGGING_ERR_EID. */
    method Note(ghost op: Op)
      requires Valid()
      requires op.HogEvent? || op.RestartApp? || op.DeleteApp? || op.CycleStart? || op.RunAppMon? || op.Attempt?
               || op.SendHk? || op.Watchdog? || (op.GotTable? && !op.ok)
      modifies cfe`log
      ensures Valid() && Now() == Do(old(Now()), op)
    {
      hide Confined, SameMarks, SameTables, Do, AppOf, MsgOf, CpuOf, ModesOf, LoadsOf, ResetOf, CountOf;
      LogOnly(Now(), op);
      cfe.log := Then(cfe.log, op);
    }

    /** The value pair and its inverses, copied to the store if that is in use. */
    method SetCDSData(resetsPerformed: uint16, maxResets: uint16, ghost why: CdsReason)
      requires Valid()
      modifies this`cdsData, cfe`store, cfe`log
      ensures Valid() && Now() == Do(old(Now()), SetCds(why, resetsPerformed, maxResets))
    {
      hide Confined, SameMarks, SameTables, Do, AppOf, MsgOf, CpuOf, ModesOf, LoadsOf, CountOf;
      ResetOnly(Now(), SetCds(why, resetsPerformed, maxResets));
      cdsData := Cds(resetsPerformed, Not(resetsPerformed), maxResets, Not(maxResets));
      if cdsState {
        cfe.store := cdsData;
      }
      cfe.log := Then(cfe.log, SetCds(why, resetsPerformed, maxResets));
    }

    /** Stop servicing the watchdog and ask for a processor reset; here the request returns. */
    method IssueReset()
      requires Valid()
      modifies this`serviceWatchdog, cfe`log
      ensures Valid() && Now() == Do(old(Now()), ResetCfe)
    {
      hide Confined, SameMarks, SameTables, Do, AppOf, MsgOf, CpuOf, ModesOf, LoadsOf, CountOf;
      ResetOnly(Now(), ResetCfe);
      serviceWatchdog := false;
      cfe.log := Then(cfe.log, ResetCfe);
    }

    method PerformReset(eid: uint16)
      requires Valid()
      modifies this`cdsData, this`serviceWatchdog, cfe`store, cfe`log
      ensures Valid() && Now() == ProcReset(old(Now()), eid)
    {
      hide Confined, SameMarks, SameTables, Do, Emit, Acted;
      SendEvent(eid);
      if cdsData.resets < cdsData.max {
        SetCDSData(cdsData.resets + 1, cdsData.max, Counted);
        IssueReset();
      } else {
        SendEvent(RESET_LIMIT_ERR_EID);
      }
    }

    method TransmitMsg(m: nat)
      requires Valid() && m < cfg.msgActs
      modifies this`msgActExec, cooldown, cfe`log
      ensures Valid() && Now() == Do(old(Now()), Transmit(m))
    {
      hide Confined, SameMarks, SameTables, Do, AppOf, CpuOf, ModesOf, LoadsOf, ResetOf;
      MsgAndCount(Now(), Transmit(m));
      msgActExec := (msgActExec + 1) % U32;
      cooldown[m] := mat[m].cooldown;
      cfe.log := Then(cfe.log, Transmit(m));
      assert cooldown[..] == old(cooldown[..])[m := mat[m].cooldown];
    }

    method PerformMsgAction(action: uint16, eid: uint16)
      requires Valid() && action > ACT_LAST_NONMSG
      modifies this`msgActExec, cooldown, cfe`log
      ensures Valid() && Now() == MsgAction(old(Now()), action, eid)
    {
      hide Confined, SameMarks, SameTables, Do, Emit, Acted;
      var m := action - ACT_LAST_NONMSG - 1;
      if msgActsState && m < cfg.msgActs {
        if cooldown[m] == 0 && mat[m].enable != MAT_STATE_DISABLED {
          TransmitMsg(m);
          if mat[m].enable != MAT_STATE_NOEVENT {
            SendEvent(eid);
          }
        }
      }
    }

    // ---------- Application monitor ----------

    method TakeAppAction(e: AmtEntry, x: AppInput)
      requires Valid() && e.action != ACT_NOACT
      modifies this`cdsData, this`serviceWatchdog, this`msgActExec, cooldown, cfe`store, cfe`log
      ensures Valid() && Now() == AppAction(old(Now()), e, x)
    {
      hide Confined, SameMarks, SameTables, Do, Emit, Acted, Kept, ProcReset, MsgAction, Now;
      if e.action == ACT_PROC_RESET {
        PerformReset(APPMON_PROC_ERR_EID);
      } else if e.action == ACT_APP_RESTART {
        SendEvent(APPMON_RESTART_ERR_EID);
        var ok := x.sight.Seen?;
        if ok {
          Note(RestartApp(e.name, x.restartOk));
          ok := x.restartOk;
        }
        if !ok {
          SendEvent(APPMON_NOT_RESTARTED_ERR_EID);
        }
      } else if e.action == AMT_ACT_EVENT {
        SendEvent(APPMON_FAIL_ERR_EID);
      } else {
        PerformMsgAction(e.action, APPMON_MSGACTS_ERR_EID);
      }
    }

    /** Compare one entry's execution count with the last one. */
    method UpdateEntry(i: nat, sight: Sighting) returns (fired: bool)
      requires Shaped() && |amt| == cfg.apps && i < cfg.apps && countdown[i] != 0
      modifies countdown, lastCount, enables
      ensures fired == AppMonitor.Expires(old(AppOf()).mon, i, sight)
      ensures AppOf().mon == AppMonitor.Look(cfg.apps, old(AppOf()).mon, amt[i], i, sight)
    {
      hide AppMonitor.AndNotBit;
      fired := false;
      if sight.Seen? && lastCount[i] != sight.count {
        countdown[i] := amt[i].cycleCount;
        lastCount[i] := sight.count;
      } else {
        countdown[i] := countdown[i] - 1;
        if countdown[i] == 0 {
          enables[i / 32] := AppMonitor.AndNotBit(enables[i / 32], i % 32);
          fired := true;
        }
      }
      ghost var was := old(AppOf()).mon;
      assert countdown[..] == was.countdown[i := countdown[i]];
      assert lastCount[..] == was.last[i := lastCount[i]];
      assert enables[..] == was.enables[i / 32 := enables[i / 32]];
    }

    method LookAt(i: nat, sight: Sighting) returns (fired: bool)
      requires Valid() && i < cfg.apps && countdown[i] != 0
      modifies countdown, lastCount, enables, cfe`log
      ensures Valid() && fired == AppMonitor.Expires(old(Now()).app.mon, i, sight)
      ensures Now() == Do(old(Now()), Saw(i, sight, fired))
    {
      hide Confined, SameMarks, SameTables, HalfDisabled, Deeds, Do, MsgOf, CpuOf, ModesOf, LoadsOf, ResetOf, CountOf,
           AppMonitor.Look, AppMonitor.Expires, AppMonitor.Valid, Utilization.Valid, ValidConfig;
      fired := UpdateEntry(i, sight);
      cfe.log := Then(cfe.log, Saw(i, sight, fired));
      AppOnly(old(Now()), Saw(i, sight, fired));
    }

    method CheckApp(i: nat, x: AppInput)
      requires Valid() && i < cfg.apps
      modifies this`cdsData, this`serviceWatchdog, this`msgActExec, cooldown, cfe`store, cfe`log,
               countdown, lastCount, enables
      ensures Valid() && Now() == AppEntry(old(Now()), i, x)
    {
      hide Confined, SameMarks, SameTables, Do, Emit, Acted, AppAction;
      var e := amt[i];
      if e.action != ACT_NOACT && countdown[i] != 0 {
        if x.sight.Unresolved? {
          if countdown[i] == e.cycleCount {
            SendEvent(APPMON_APPNAME_ERR_EID);
          } else {
            SendEvent(APPMON_APPNAME_DBG_EID);
          }
        }
        assert Now() == NameReport(old(Now()), i, x);
        var fired := LookAt(i, x.sight);
        if fired {
          TakeAppAction(e, x);
        }
      }
    }

    method MonitorApplications(xs: seq<AppInput>)
      requires Valid() && |xs| == cfg.apps
      modifies this`cdsData, this`serviceWatchdog, this`msgActExec, cooldown, cfe`store, cfe`log,
               countdown, lastCount, enables
      ensures Valid() && Now() == MonitorApps(old(Now()), xs, cfg.apps)
    {
      hide AppEntry;
      for i := 0 to cfg.apps
        invariant Valid() && Now() == MonitorApps(old(Now()), xs, i)
      {
        CheckApp(i, xs[i]);
      }
    }

    // ---------- Event monitor ----------

    method TakeEventAction(e: EmtEntry, x: EntryInput)
      requires Valid() && e.action != ACT_NOACT
      modifies this`cdsData, this`serviceWatchdog, this`msgActExec, cooldown, cfe`store, cfe`log
      ensures Valid() && Now() == EventAction(old(Now()), e, x)
    {
      hide Confined, SameMarks, SameTables, Do, Emit, Acted, Kept, ProcReset, MsgAction, Now;
      if e.action == ACT_PROC_RESET {
        PerformReset(EVENTMON_PROC_ERR_EID);
      } else if e.action == ACT_APP_RESTART {
        var ok := x.resolved;
        if ok {
          SendEvent(EVENTMON_RESTART_ERR_EID);
          Note(RestartApp(e.name, x.callOk));
          ok := x.callOk;
        }
        if !ok {
          SendEvent(EVENTMON_NOT_RESTARTED_ERR_EID);
        }
      } else if e.action == EMT_ACT_APP_DELETE {
        var ok := x.resolved;
        if ok {
          SendEvent(EVENTMON_DELETE_ERR_EID);
          Note(DeleteApp(e.name, x.callOk));
          ok := x.callOk;
        }
        if !ok {
          SendEvent(EVENTMON_NOT_DELETED_ERR_EID);
        }
      } else {
        PerformMsgAction(e.action, EVENTMON_MSGACTS_ERR_EID);
      }
    }

    method MonitorOneEvent(ev: EventMsg, xs: seq<EntryInput>)
      requires Valid() && |xs| == cfg.events
      modifies this`cdsData, this`serviceWatchdog, this`msgActExec, cooldown, cfe`store, cfe`log
      ensures Valid() && Now() == MonitorEvent(old(Now()), ev, xs, cfg.events)
    {
      hide EventAction, Do;
      for i := 0 to cfg.events
        invariant Valid() && Now() == MonitorEvent(old(Now()), ev, xs, i)
        invariant emt == old(emt)
      {
        var e := emt[i];
        if e.action != ACT_NOACT && e.eventId == ev.id {
          if e.name == ev.app {
            Note(Attempt(ev, i, xs[i].resolved));
            TakeEventAction(e, xs[i]);
          }
        }
      }
    }

    // ---------- Utilization ----------

    method UpdateHog(util: uint32, ghost reading: int32) returns (hogging: bool)
      requires ValidConfig(cfg) && reading >= 0 && util == Utilization.Clamp(cfg, reading)
      modifies this`hogTime
      ensures hogTime == Utilization.NextHogTime(cfg, old(hogTime), Utilization.Sample(reading, cpuHogState))
      ensures hogging == Utilization.Alarm(cfg, old(hogTime), Utilization.Sample(reading, cpuHogState))
    {
      hogging := false;
      if util >= cfg.hogLimit && cpuHogState {
        hogTime := (hogTime + 1) % U32;
        hogging := hogTime == cfg.hogTimeout;
      } else {
        hogTime := 0;
      }
    }

    /** The fields and the ring after one reading; `hogging` tells whether the streak reached its limit. */
    method UpdateUtil(reading: int32) returns (hogging: bool)
      requires Shaped() && utilIndex < cfg.peakN
      modifies this`hogTime, this`utilIndex, this`utilAvg, this`utilPeak, tracker
      ensures CpuOf().cycle == old(CpuOf()).cycle
      ensures CpuOf().util ==
              Utilization.Step(cfg, old(CpuOf()).util, Utilization.Sample(reading, cpuHogState))
      ensures hogging == Utilization.Alarm(cfg, old(hogTime), Utilization.Sample(reading, cpuHogState))
    {
      hide Utilization.Window, Utilization.Mean, Utilization.Sum, Utilization.Max, Utilization.NextHogTime;
      var at := utilIndex;
      utilIndex := utilIndex + 1;
      if utilIndex >= cfg.peakN {
        utilIndex := 0;
      }
      hogging := false;
      if reading < 0 {
        utilAvg := Utilization.UNKNOWN;
        utilPeak := Utilization.UNKNOWN;
      } else {
        var util: uint32 := if reading > cfg.utilMax then cfg.utilMax else reading;
        hogging := UpdateHog(util, reading);
        tracker[at] := util;
        assert tracker[..] == old(tracker[..])[at := util];
        utilAvg, utilPeak := Summarize(at);
      }
    }

    method MonitorUtilization(reading: int32)
      requires Valid()
      modifies this`hogTime, this`utilIndex, this`utilAvg, this`utilPeak, tracker, cfe`log
      ensures Valid() && Now() == MonitorUtil(old(Now()), reading)
    {
      hide Confined, SameMarks, SameTables, Do, AppOf, MsgOf, LoadsOf, ResetOf, CountOf, Emit, Utilization.Step,
           Utilization.Alarm;
      var hogging := UpdateUtil(reading);
      ghost var op := TakeSample(Utilization.Sample(reading, cpuHogState));
      cfe.log := Then(cfe.log, op);
      CpuOnly(old(Now()), op);
      assert Now() == Do(old(Now()), op);
      if hogging {
        Note(HogEvent);
      }
    }

    method Quotient(total: uint32, n: nat) returns (q: uint32)
      requires n >= 1
      ensures q == total / n
    {
      Utilization.QuotientBound(total, n);
      q := total / n;
    }

    /** The sampling loop: peak of the whole ring, 32-bit sum of the window that ends at `at`. */
    method Summarize(at: nat) returns (avg: uint32, peak: uint32)
      requires ValidConfig(cfg) && tracker.Length == cfg.peakN && at < cfg.peakN
      ensures avg == Utilization.Mean(Utilization.Sum(Utilization.Window(tracker[..], at, cfg.avgN)), cfg.avgN)
      ensures peak == Utilization.Max(tracker[..])
    {
      hide Utilization.Picked, Utilization.Max, Utilization.Sum, Utilization.Window, Utilization.Mean;
      var combined: uint32 := 0;
      peak := 0;
      Utilization.EmptySums(cfg, tracker[..], at);
      for i := 0 to cfg.peakN
        invariant peak == Utilization.Max(tracker[..i])
        invariant combined == Utilization.Picked(cfg, tracker[..], at, i) % U32
      {
        Utilization.PickStep(cfg, tracker[..], at, i);
        Utilization.MaxStep(tracker[..], i);
        if tracker[i] > peak {
          peak := tracker[i];
        }
        if at >= cfg.avgN {
          if i > at - cfg.avgN && i <= at {
            combined := (combined + tracker[i]) % U32;
          }
        } else {
          if i <= at || i > cfg.peakN - (cfg.avgN - at) {
            combined := (combined + tracker[i]) % U32;
          }
        }
      }
      assert tracker[..cfg.peakN] == tracker[..];
      Utilization.PickedIsWindow(cfg, tracker[..], at);
      avg := Quotient(combined, cfg.avgN);
      Utilization.MeanIs(Utilization.Picked(cfg, tracker[..], at, cfg.peakN), cfg.avgN);
    }

    // ---------- Refreshing status ----------

    method ClearEnables()
      requires Shaped()
      modifies enables
      ensures enables[..] == AppMonitor.NoBits(cfg.apps)
    {
      for i := 0 to enables.Length
        invariant forall j | 0 <= j < i :: enables[j] == 0
      {
        enables[i] := 0;
      }
    }

    method ArmEntries()
      requires Shaped() && |amt| == cfg.apps
      modifies countdown, lastCount, enables
      ensures AppOf() == AppPart(amt, AppMonitor.Refreshed(amt))
    {
      hide AppMonitor.NoBits, AppMonitor.SetBit, AppMonitor.ArmedBits;
      ClearEnables();
      AppMonitor.ArmStep(amt, 0);
      for i := 0 to cfg.apps
        invariant forall j | 0 <= j < i :: lastCount[j] == 0
        invariant forall j | 0 <= j < i :: countdown[j] == if AppMonitor.Active(amt[j]) then amt[j].cycleCount else 0
        invariant enables[..] == AppMonitor.ArmedBits(amt, i)
      {
        AppMonitor.ArmStep(amt, i);
        lastCount[i] := 0;
        if amt[i].cycleCount == 0 || amt[i].action == ACT_NOACT {
          countdown[i] := 0;
        } else {
          countdown[i] := amt[i].cycleCount;
          SetEnable(i);
        }
      }
      assert countdown[..] == AppMonitor.Refreshed(amt).countdown;
      assert lastCount[..] == AppMonitor.Refreshed(amt).last;
    }

    method SetEnable(i: nat)
      requires i < 32 * enables.Length
      modifies enables
      ensures enables[..] == AppMonitor.SetBit(old(enables[..]), i)
    {
      enables[i / 32] := AppMonitor.OrBit(enables[i / 32], i % 32);
      assert enables[..] == old(enables[..])[i / 32 := enables[i / 32]];
    }

    method AppMonStatusRefresh()
      requires Shaped() && |amt| == cfg.apps && Valid()
      modifies countdown, lastCount, enables, cfe`log
      ensures Valid() && Now() == Do(old(Now()), RefreshAppMon(amt))
    {
      hide Confined, SameMarks, SameTables, Do, MsgOf, CpuOf, ModesOf, LoadsOf, ResetOf, CountOf, AppMonitor.Refreshed;
      ArmEntries();
      cfe.log := Then(cfe.log, RefreshAppMon(amt));
      AppOnly(old(Now()), RefreshAppMon(amt));
    }

    method MsgActsStatusRefresh()
      requires Valid()
      modifies cooldown, cfe`log
      ensures Valid() && Now() == Do(old(Now()), RefreshMsgActs(mat))
    {
      hide Confined, SameMarks, SameTables, Do, AppOf, CpuOf, ModesOf, LoadsOf, ResetOf, CountOf;
      MsgOnly(Now(), RefreshMsgActs(mat));
      for i := 0 to cfg.msgActs
        invariant forall j | 0 <= j < i :: cooldown[j] == 0
        modifies cooldown
      {
        cooldown[i] := 0;
      }
      assert cooldown[..] == Copies(cfg.msgActs, 0);
      cfe.log := Then(cfe.log, RefreshMsgActs(mat));
    }

    method DecrementCooldowns()
      requires Valid()
      modifies cooldown, cfe`log
      ensures Valid() && Now() == Do(old(Now()), Tick)
    {
      hide Confined, SameMarks, SameTables, Do, AppOf, CpuOf, ModesOf, LoadsOf, ResetOf, CountOf;
      MsgOnly(Now(), Tick);
      for i := 0 to cfg.msgActs
        invariant forall j | 0 <= j < i :: cooldown[j] == Cooled(old(cooldown[..]))[j]
        invariant forall j | i <= j < cfg.msgActs :: cooldown[j] == old(cooldown[..])[j]
        modifies cooldown
      {
        if cooldown[i] != 0 {
          cooldown[i] := cooldown[i] - 1;
        }
      }
      assert cooldown[..] == Cooled(old(cooldown[..]));
      cfe.log := Then(cfe.log, Tick);
    }

    // ---------- Primitive updates ----------

    method BumpCount(accepted: bool)
      modifies this`cmdCount, this`cmdErrCount
      ensures CountOf() == CountEffect(old(CountOf()), if accepted then CmdAccepted else CmdRejected)
    {
      if accepted {
        cmdCount := (cmdCount + 1) % U8;
      } else {
        cmdErrCount := (cmdErrCount + 1) % U8;
      }
    }

    method Count(accepted: bool)
      requires Valid()
      modifies this`cmdCount, this`cmdErrCount, cfe`log
      ensures Valid() && Now() == Do(old(Now()), if accepted then CmdAccepted else CmdRejected)
    {
      hide Confined, SameMarks, SameTables, Do, AppOf, MsgOf, CpuOf, ModesOf, LoadsOf, ResetOf, CountOf, CountEffect;
      BumpCount(accepted);
      cfe.log := Then(cfe.log, if accepted then CmdAccepted else CmdRejected);
      CountOnly(old(Now()), if accepted then CmdAccepted else CmdRejected);
    }

    method ZeroCounters()
      modifies this`cmdCount, this`cmdErrCount, this`eventsMonitored, this`msgActExec
      ensures CountOf() == Counters(0, 0, 0, 0)
    {
      cmdCount := 0;
      cmdErrCount := 0;
      eventsMonitored := 0;
      msgActExec := 0;
    }

    method ResetCounters()
      requires Valid()
      modifies this`cmdCount, this`cmdErrCount, this`eventsMonitored, this`msgActExec, cfe`log
      ensures Valid() && Now() == Do(old(Now()), ClearCounters)
    {
      hide Confined, SameMarks, SameTables, Do, AppOf, MsgOf, CpuOf, ModesOf, LoadsOf, ResetOf, CountOf;
      ZeroCounters();
      cfe.log := Then(cfe.log, ClearCounters);
      CountOnly(old(Now()), ClearCounters);
    }

    method PutMode(mode: Mode, on: bool)
      modifies this`appMonState, this`eventMonState, this`alivenessState, this`cpuHogState
      ensures ModesOf() == Switched(old(ModesOf()), mode, on)
    {
      match mode {
        case AppMonMode => appMonState := on;
        case EventMonMode => eventMonState := on;
        case AlivenessMode => alivenessState := on;
        case CpuHogMode => cpuHogState := on;
      }
    }

    method SetMode(mode: Mode, on: bool)
      requires Valid()
      modifies this`appMonState, this`eventMonState, this`alivenessState, this`cpuHogState, cfe`log
      ensures Valid() && Now() == Do(old(Now()), Switch(mode, on))
    {
      hide Confined, SameMarks, SameTables, HalfDisabled, Deeds, Do, AppOf, MsgOf, CpuOf, ModesOf, LoadsOf, ResetOf,
           CountOf, Switched, WF, ValidConfig;
      PutMode(mode, on);
      cfe.log := Then(cfe.log, Switch(mode, on));
      ModesOnly(old(Now()), Switch(mode, on));
    }

    /** A subscribe call; a refused one leaves the subscriptions as they were. */
    method SbSubscribe(format: Format, ok: bool)
      requires Valid()
      modifies cfe`long, cfe`short, cfe`log
      ensures Valid() && Now() == Do(old(Now()), Subscribe(format, ok))
    {
      hide Confined, SameMarks, SameTables, Do, AppOf, MsgOf, CpuOf, ModesOf, LoadsOf, ResetOf, CountOf;
      BusOnly(Now(), Subscribe(format, ok));
      if ok {
        if format.LongFormat? { cfe.long := true; } else { cfe.short := true; }
      }
      cfe.log := Then(cfe.log, Subscribe(format, ok));
    }

    method SbUnsubscribe(format: Format, ok: bool)
      requires Valid()
      modifies cfe`long, cfe`short, cfe`log
      ensures Valid() && Now() == Do(old(Now()), Unsubscribe(format, ok))
    {
      hide Confined, SameMarks, SameTables, Do, AppOf, MsgOf, CpuOf, ModesOf, LoadsOf, ResetOf, CountOf;
      BusOnly(Now(), Unsubscribe(format, ok));
      if ok {
        if format.LongFormat? { cfe.long := false; } else { cfe.short := false; }
      }
      cfe.log := Then(cfe.log, Unsubscribe(format, ok));
    }

    // ---------- Commands ----------

    method SwitchModeCmd(mode: Mode, on: bool, eid: uint16)
      requires Valid()
      modifies this`cmdCount, this`cmdErrCount, this`appMonState, this`eventMonState, this`alivenessState,
               this`cpuHogState, cfe`log
      ensures Valid() && Now() == SwitchCmd(old(Now()), mode, on, eid)
    {
      hide Confined, SameMarks, SameTables, Do, Emit, Now;
      Count(true);
      SetMode(mode, on);
      SendEvent(eid);
    }

    method EnableAppMonCmd()
      requires Valid()
      modifies this`cmdCount, this`cmdErrCount, this`appMonState, this`eventMonState, this`alivenessState,
               this`cpuHogState, countdown, lastCount, enables, cfe`log
      ensures Valid() && Now() == EnableAppMon(old(Now()))
    {
      hide Confined, SameMarks, SameTables, Do, Emit;
      Count(true);
      AppMonStatusRefresh();
      SetMode(AppMonMode, true);
      SendEvent(ENABLE_APPMON_DBG_EID);
    }

    method TrySubscribe(long: bool, short: bool, longEid: uint16, shortEid: uint16) returns (ok: bool)
      requires Valid()
      modifies cfe`long, cfe`short, cfe`log
      ensures Valid() && Now() == SubscribeBoth(old(Now()), long, short, longEid, shortEid)
      ensures ok == (long && short)
    {
      hide Confined, SameMarks, SameTables, Do, Emit, Now;
      SbSubscribe(LongFormat, long);
      ok := long;
      if ok {
        SbSubscribe(ShortFormat, short);
        ok := short;
        if !ok {
          SendEvent(shortEid);
        }
      } else {
        SendEvent(longEid);
      }
    }

    method EnableEventMonCmd(long: bool, short: bool)
      requires Valid()
      modifies this`cmdCount, this`cmdErrCount, this`appMonState, this`eventMonState, this`alivenessState,
               this`cpuHogState, cfe`long, cfe`short, cfe`log
      ensures Valid() && Now() == EnableEventMon(old(Now()), long, short)
    {
      hide Confined, SameMarks, SameTables, Do, Emit, SubscribeBoth, SwitchCmd;
      var ok := true;
      if !eventMonState {
        ok := TrySubscribe(long, short, EVENTMON_LONG_SUB_EID, EVENTMON_SHORT_SUB_EID);
      }
      if ok {
        SwitchModeCmd(EventMonMode, true, ENABLE_EVENTMON_DBG_EID);
      } else {
        Count(false);
      }
    }

    method TryUnsubscribe(long: bool, short: bool) returns (ok: bool)
      requires Valid()
      modifies cfe`long, cfe`short, cfe`log
      ensures Valid() && Now() == UnsubscribeBoth(old(Now()), long, short)
      ensures ok == (long && short)
    {
      hide Confined, SameMarks, SameTables, Do, Emit, Now;
      SbUnsubscribe(LongFormat, long);
      ok := long;
      if ok {
        SbUnsubscribe(ShortFormat, short);
        ok := short;
        if !ok {
          SendEvent(EVENTMON_SHORT_UNSUB_EID);
        }
      } else {
        SendEvent(EVENTMON_LONG_UNSUB_EID);
      }
    }

    method DisableEventMonCmd(long: bool, short: bool)
      requires Valid()
      modifies this`cmdCount, this`cmdErrCount, this`appMonState, this`eventMonState, this`alivenessState,
               this`cpuHogState, cfe`long, cfe`short, cfe`log
      ensures Valid() && Now() == DisableEventMon(old(Now()), long, short)
    {
      hide Confined, SameMarks, SameTables, Do, Emit, UnsubscribeBoth, SwitchCmd;
      var ok := true;
      if eventMonState {
        ok := TryUnsubscribe(long, short);
      }
      if ok {
        SwitchModeCmd(EventMonMode, false, DISABLE_EVENTMON_DBG_EID);
      } else {
        Count(false);
      }
    }

    method WriteCdsCmd(resets: uint16, max: uint16, eid: uint16, ghost why: CdsReason)
      requires Valid()
      modifies this`cmdCount, this`cmdErrCount, this`cdsData, cfe`store, cfe`log
      ensures Valid() && Now() == SetCdsCmd(old(Now()), why, resets, max, eid)
    {
      hide Confined, SameMarks, SameTables, Do, Emit, Now;
      Count(true);
      SetCDSData(resets, max, why);
      SendEvent(eid);
    }

    method VerifyMsgLength(m: CmdMsg, expected: nat) returns (ok: bool)
      requires Valid()
      modifies this`cmdCount, this`cmdErrCount, cfe`log
      ensures Valid() && ok == (m.length == expected)
      ensures Now() == if ok then old(Now())
                       else if m.kind.HkRequest? then Emit(old(Now()), HKREQ_LEN_ERR_EID)
                       else Reject(Emit(old(Now()), CMD_LEN_ERR_EID))
    {
      hide Confined, SameMarks, SameTables, Do, Emit, Now;
      ok := m.length == expected;
      if !ok {
        if m.kind.HkRequest? {
          SendEvent(HKREQ_LEN_ERR_EID);
        } else {
          SendEvent(CMD_LEN_ERR_EID);
          Count(false);
        }
      }
    }

    method ExecuteCmd(d: CmdDelivery)
      requires Valid() && d.GotCmd? && d.msg.code <= CC_DISABLE_CPU_HOG
      modifies this, countdown, lastCount, enables, cfe
      ensures Valid() && Now() == Execute(old(Now()), d)
    {
      hide Confined, SameMarks, SameTables, Do, Emit, SwitchCmd, EnableAppMon, EnableEventMon, DisableEventMon,
           SetCdsCmd, Quiet, Plugged;
      var code := d.msg.code;
      if code == CC_NOOP {
        Count(true);
        SendEvent(NOOP_INF_EID);
      } else if code == CC_RESET {
        ResetCounters();
        SendEvent(RESET_INF_EID);
      } else if code == CC_ENABLE_APP_MON {
        EnableAppMonCmd();
      } else if code == CC_DISABLE_APP_MON {
        SwitchModeCmd(AppMonMode, false, DISABLE_APPMON_DBG_EID);
      } else if code == CC_ENABLE_EVENT_MON {
        EnableEventMonCmd(d.long, d.short);
      } else if code == CC_DISABLE_EVENT_MON {
        DisableEventMonCmd(d.long, d.short);
      } else if code == CC_ENABLE_ALIVENESS {
        SwitchModeCmd(AlivenessMode, true, ENABLE_ALIVENESS_DBG_EID);
      } else if code == CC_DISABLE_ALIVENESS {
        SwitchModeCmd(AlivenessMode, false, DISABLE_ALIVENESS_DBG_EID);
      } else if code == CC_RESET_RESETS_PERFORMED {
        WriteCdsCmd(0, cdsData.max, RESET_RESETS_DBG_EID, Cleared);
      } else if code == CC_SET_MAX_RESETS {
        WriteCdsCmd(cdsData.resets, d.msg.maxResets, SET_MAX_RESETS_DBG_EID, Limited);
      } else if code == CC_ENABLE_CPU_HOG {
        SwitchModeCmd(CpuHogMode, true, ENABLE_CPUHOG_DBG_EID);
      } else {
        SwitchModeCmd(CpuHogMode, false, DISABLE_CPUHOG_DBG_EID);
      }
    }

    /** One message from the command pipe. */
    method AppPipe(d: CmdDelivery)
      requires Valid() && d.GotCmd?
      modifies this, countdown, lastCount, enables, cfe
      ensures Valid() && Now() == OneCmd(old(Now()), d)
    {
      hide Confined, SameMarks, SameTables, Do, Emit, Execute, Reject, Quiet, Plugged;
      match d.msg.kind
      case HkRequest =>
        var ok := VerifyMsgLength(d.msg, cfg.hkLength);
        if ok {
          Note(SendHk);
        }
      case Command =>
        if d.msg.code > CC_DISABLE_CPU_HOG {
          SendEvent(CC_ERR_EID);
          RejectCmd();
        } else {
          var ok := VerifyMsgLength(d.msg, ExpectedLength(cfg, d.msg.code));
          if ok {
            ExecuteCmd(d);
          }
        }
      case Unknown =>
        RejectCmd();
        SendEvent(MID_ERR_EID);
    }

    method RejectCmd()
      requires Valid()
      modifies this`cmdCount, this`cmdErrCount, cfe`log
      ensures Valid() && Now() == Reject(old(Now()))
    {
      hide Confined, SameMarks, SameTables, Do, Now;
      Count(false);
    }

    // ---------- Table acquisition ----------

    method PutLoad(table: Table, on: bool)
      modifies this`appMonLoaded, this`eventMonLoaded, this`msgActsState, this`exeCountState
      ensures LoadsOf() == Marked(old(LoadsOf()), table, on)
    {
      match table {
        case AppMonTable => appMonLoaded := on;
        case EventMonTable => eventMonLoaded := on;
        case MsgActsTable => msgActsState := on;
        case ExeCountTable => exeCountState := on;
      }
    }

    method MarkLoaded(table: Table)
      requires Valid()
      modifies this`appMonLoaded, this`eventMonLoaded, this`msgActsState, this`exeCountState, cfe`log
      ensures Valid() && Now() == Do(old(Now()), GotTable(table, true))
    {
      hide Confined, SameMarks, SameTables, Do, AppOf, MsgOf, CpuOf, ModesOf, LoadsOf, ResetOf, CountOf, Marked;
      PutLoad(table, true);
      cfe.log := Then(cfe.log, GotTable(table, true));
      LoadsAndModes(old(Now()), GotTable(table, true));
    }

    /** The monitor that works from a lost table is disabled with it. */
    method StopMonitor(table: Table)
      modifies this`appMonState, this`eventMonState, this`alivenessState, this`cpuHogState
      ensures ModesOf() == Stopped(old(ModesOf()), table)
    {
      if table.AppMonTable? {
        PutMode(AppMonMode, false);
      } else if table.EventMonTable? {
        PutMode(EventMonMode, false);
      }
    }

    method DropTable(table: Table)
      requires Valid()
      modifies this`appMonLoaded, this`eventMonLoaded, this`msgActsState, this`exeCountState, this`appMonState,
               this`eventMonState, this`alivenessState, this`cpuHogState, cfe`log
      ensures Valid() && Now() == Do(old(Now()), Dropped(table))
    {
      hide Confined, SameMarks, SameTables, HalfDisabled, Deeds, Do, AppOf, MsgOf, CpuOf, ModesOf, LoadsOf, ResetOf,
           CountOf, Marked, Stopped, WF, ValidConfig;
      PutLoad(table, false);
      StopMonitor(table);
      cfe.log := Then(cfe.log, Dropped(table));
      DropOnly(old(Now()), table);
    }

    method LoseTable(table: Table, eid: uint16)
      requires Valid()
      modifies this`appMonLoaded, this`eventMonLoaded, this`msgActsState, this`exeCountState,
               this`appMonState, this`eventMonState, this`alivenessState, this`cpuHogState, cfe`log
      ensures Valid() && Now() == Lost(old(Now()), table, eid)
    {
      hide Confined, SameMarks, SameTables, Do, Emit, Now;
      SendEvent(eid);
      DropTable(table);
    }

    method AcquireAppMon(g: TableGet<AmtEntry>)
      requires Valid() && (g.Updated? ==> |g.table| == cfg.apps)
      modifies this`amt, this`appMonLoaded, this`eventMonLoaded, this`msgActsState, this`exeCountState,
               this`appMonState, this`eventMonState, this`alivenessState, this`cpuHogState, countdown, lastCount,
               enables, cfe`log
      ensures Valid() && Now() == AcquireAmt(old(Now()), g)
    {
      hide Confined, SameMarks, SameTables, Do, Lost;
      if g.Failed? {
        Note(GotTable(AppMonTable, false));
        if appMonLoaded || appMonState {
          LoseTable(AppMonTable, APPMON_GETADDR_ERR_EID);
        }
      } else {
        MarkLoaded(AppMonTable);
        if g.Updated? {
          ReplaceAmt(g.table);
        }
      }
    }

    method ReplaceAmt(table: seq<AmtEntry>)
      requires Valid() && |table| == cfg.apps
      modifies this`amt, countdown, lastCount, enables, cfe`log
      ensures Valid() && Now() == Do(old(Now()), RefreshAppMon(table))
    {
      hide Confined, SameMarks, SameTables, Do, MsgOf, CpuOf, ModesOf, LoadsOf, ResetOf, CountOf, AppMonitor.Refreshed;
      AppOnly(Now(), RefreshAppMon(table));
      amt := table;
      AppOnly(Now(), RefreshAppMon(table));
      AppMonStatusRefresh();
    }

    method UnsubscribeOne(format: Format, ok: bool, eid: uint16)
      requires Valid()
      modifies cfe`long, cfe`short, cfe`log
      ensures Valid() && Now() == Unsub(old(Now()), format, ok, eid)
    {
      hide Confined, SameMarks, SameTables, Do, Emit, Now;
      SbUnsubscribe(format, ok);
      if !ok {
        SendEvent(eid);
      }
    }

    method LoseEventTable(long: bool, short: bool)
      requires Valid()
      modifies this`appMonLoaded, this`eventMonLoaded, this`msgActsState, this`exeCountState,
               this`appMonState, this`eventMonState, this`alivenessState, this`cpuHogState, cfe`long, cfe`short, cfe`log
      ensures Valid() && Now() == EmtLost(old(Now()), long, short)
    {
      hide Confined, SameMarks, SameTables, Do, Emit, Unsub;
      SendEvent(EVENTMON_GETADDR_ERR_EID);
      if eventMonState {
        UnsubscribeOne(LongFormat, long, BADEMT_LONG_UNSUB_EID);
        UnsubscribeOne(ShortFormat, short, BADEMT_SHORT_UNSUB_EID);
      }
      DropTable(EventMonTable);
    }

    method AcquireEventMon(g: TableGet<EmtEntry>, long: bool, short: bool)
      requires Valid() && (g.Updated? ==> |g.table| == cfg.events)
      modifies this`emt, this`appMonLoaded, this`eventMonLoaded, this`msgActsState, this`exeCountState,
               this`appMonState, this`eventMonState, this`alivenessState, this`cpuHogState, cfe`long, cfe`short, cfe`log
      ensures Valid() && Now() == AcquireEmt(old(Now()), g, long, short)
    {
      hide Confined, SameMarks, SameTables, Do, EmtLost;
      if g.Failed? {
        Note(GotTable(EventMonTable, false));
        if eventMonLoaded || eventMonState {
          LoseEventTable(long, short);
        }
      } else {
        MarkLoaded(EventMonTable);
        if g.Updated? {
          ReplaceEmt(g.table);
        }
      }
    }

    method ReplaceEmt(table: seq<EmtEntry>)
      requires Valid() && |table| == cfg.events
      modifies this`emt, cfe`log
      ensures Valid() && Now() == Do(old(Now()), LoadEmt(table))
    {
      hide Confined, SameMarks, SameTables, Do, AppOf, MsgOf, CpuOf, ModesOf, LoadsOf, ResetOf, CountOf;
      EmtOnly(Now(), LoadEmt(table));
      emt := table;
      cfe.log := Then(cfe.log, LoadEmt(table));
    }

    method AcquireMsgActs(g: TableGet<MatEntry>)
      requires Valid() && (g.Updated? ==> |g.table| == cfg.msgActs)
      modifies this`mat, this`appMonLoaded, this`eventMonLoaded, this`msgActsState, this`exeCountState,
               this`appMonState, this`eventMonState, this`alivenessState, this`cpuHogState, cooldown, cfe`log
      ensures Valid() && Now() == AcquireMat(old(Now()), g)
    {
      hide Confined, SameMarks, SameTables, Do, Lost;
      if g.Failed? {
        Note(GotTable(MsgActsTable, false));
        if msgActsState {
          LoseTable(MsgActsTable, MSGACTS_GETADDR_ERR_EID);
        }
      } else {
        MarkLoaded(MsgActsTable);
        if g.Updated? {
          ReplaceMat(g.table);
        }
      }
    }

    method ReplaceMat(table: seq<MatEntry>)
      requires Valid() && |table| == cfg.msgActs
      modifies this`mat, cooldown, cfe`log
      ensures Valid() && Now() == Do(old(Now()), RefreshMsgActs(table))
    {
      hide Confined, SameMarks, SameTables, Do, AppOf, CpuOf, ModesOf, LoadsOf, ResetOf, CountOf;
      MsgOnly(Now(), RefreshMsgActs(table));
      mat := table;
      MsgOnly(Now(), RefreshMsgActs(table));
      MsgActsStatusRefresh();
    }

    method AcquireExeCount(ok: bool)
      requires Valid()
      modifies this`appMonLoaded, this`eventMonLoaded, this`msgActsState, this`exeCountState,
               this`appMonState, this`eventMonState, this`alivenessState, this`cpuHogState, cfe`log
      ensures Valid() && Now() == AcquireXct(old(Now()), ok)
    {
      hide Confined, SameMarks, SameTables, Do, Lost;
      if ok {
        MarkLoaded(ExeCountTable);
      } else {
        Note(GotTable(ExeCountTable, false));
        if exeCountState {
          LoseTable(ExeCountTable, EXECOUNT_GETADDR_ERR_EID);
        }
      }
    }

    method AcquirePointers(a: AcquireIn)
      requires Valid() && AcquireFits(cfg, a)
      modifies this, countdown, lastCount, enables, cooldown, cfe
      ensures Valid() && Now() == Acquire(old(Now()), a)
    {
      hide AcquireAmt, AcquireEmt, AcquireMat, AcquireXct;
      AcquireAppMon(a.amt);
      AcquireEventMon(a.emt, a.longUnsub, a.shortUnsub);
      AcquireMsgActs(a.mat);
      AcquireExeCount(a.xctOk);
    }

    // ---------- The cycle ----------

    method UtilizationTick(reading: int32)
      requires Valid()
      modifies this`hogTime, this`utilIndex, this`utilAvg, this`utilPeak, this`utilCycle, tracker, cfe`log
      ensures Valid() && Now() == UtilPhase(old(Now()), reading)
    {
      hide Confined, SameMarks, SameTables, Do, MonitorUtil;
      if utilCycle == 0 {
        MonitorUtilization(reading);
        ReloadAndCount(cfg.interval);
      } else {
        ReloadAndCount(utilCycle);
      }
    }

    /** Load the cycle counter and count it down by one. */
    method ReloadAndCount(from: uint32)
      requires Valid() && from == if utilCycle == 0 then cfg.interval else utilCycle
      modifies this`utilCycle, cfe`log
      ensures Valid() && Now() == Do(old(Now()), UtilTick)
    {
      hide Confined, SameMarks, SameTables, Do, AppOf, MsgOf, ModesOf, LoadsOf, ResetOf, CountOf;
      CpuOnly(Now(), UtilTick);
      utilCycle := from;
      utilCycle := (utilCycle - 1) % U32;
      cfe.log := Then(cfe.log, UtilTick);
    }

    /** Output the aliveness string every period; `printed` tells whether it was output now. */
    method OutputAliveness() returns (printed: bool)
      requires Valid() && alivenessState
      modifies this`aliveCounter, cfe`log
      ensures Valid() && Now() == Do(old(Now()), AliveTick(printed))
      ensures printed == (old(aliveCounter) + 1 >= cfg.alivePeriod)
    {
      hide Confined, SameMarks, SameTables, Do, AppOf, MsgOf, CpuOf, ModesOf, LoadsOf, ResetOf, CountOf;
      ghost var op := AliveTick(aliveCounter + 1 >= cfg.alivePeriod);
      AliveOnly(Now(), op);
      var next := aliveCounter + 1;
      printed := next >= cfg.alivePeriod;
      aliveCounter := if printed then 0 else next;
      cfe.log := Then(cfe.log, op);
    }

    method CountEvent(ghost ev: EventMsg)
      requires Valid()
      modifies this`eventsMonitored, cfe`log
      ensures Valid() && Now() == Do(old(Now()), RunEventMon(ev))
    {
      hide Confined, SameMarks, SameTables, Do, AppOf, MsgOf, CpuOf, ModesOf, LoadsOf, ResetOf;
      CountOnly(Now(), RunEventMon(ev));
      eventsMonitored := (eventsMonitored + 1) % U32;
      cfe.log := Then(cfe.log, RunEventMon(ev));
    }

    method HandleDelivery(d: EventDelivery)
      requires Valid() && DeliveryFits(cfg, d)
      modifies this`eventsMonitored, this`cdsData, this`serviceWatchdog, this`msgActExec, cooldown, cfe`store, cfe`log
      ensures Valid() && Now() == OneEvent(old(Now()), d)
    {
      hide Confined, SameMarks, SameTables, Do, MonitorEvent;
      if d.GotEvent? {
        CountEvent(d.event);
        MonitorOneEvent(d.event, d.inputs);
      }
    }

    /** Poll both pipes until they stop delivering. */
    method ProcessPipes(p: Pipes) returns (ok: bool)
      requires Valid() && PipesFit(cfg, p)
      modifies this, countdown, lastCount, enables, cooldown, cfe
      ensures Valid() && Now() == ProcessCommands(old(Now()), p)
      ensures ok <==> !EventsBroke(old(Now()), p) && p.cmdEnd.NoMessage?
    {
      hide DrainEvents, DrainCmds, OneEvent, OneCmd, ProcessEvents;
      ok := PollEvents(p);
      ghost var mid := Now();
      if ok {
        var k := 0;
        assert Now() == DrainCmds(mid, p.cmds, 0) by { StepNone(mid, p.cmds); }
        while k < |p.cmds|
          invariant 0 <= k <= |p.cmds|
          invariant Valid() && Now() == DrainCmds(mid, p.cmds, k)
        {
          StepCmds(mid, p.cmds, k);
          if p.cmds[k].GotCmd? {
            AppPipe(p.cmds[k]);
          }
          k := k + 1;
        }
        ok := p.cmdEnd.NoMessage?;
      }
    }

    method PollEvents(p: Pipes) returns (ok: bool)
      requires Valid() && PipesFit(cfg, p)
      modifies this, countdown, lastCount, enables, cooldown, cfe
      ensures Valid() && Now() == ProcessEvents(old(Now()), p)
      ensures ok == !EventsBroke(old(Now()), p)
    {
      hide OneEvent;
      ok := true;
      if eventMonState {
        var k := 0;
        while k < |p.events|
          invariant 0 <= k <= |p.events|
          invariant Valid() && Now() == DrainEvents(old(Now()), p.events, k)
        {
          HandleDelivery(p.events[k]);
          k := k + 1;
        }
        ok := p.eventEnd.NoMessage?;
      }
    }

    /** The cycle up to the utilization tick. */
    method PrepareCycle(x: CycleIn)
      requires Valid() && CycleFits(cfg, x)
      modifies this, countdown, lastCount, enables, cooldown, tracker, cfe
      ensures Valid() && Now() == Prepare(old(Now()), x)
    {
      hide Confined, SameMarks, SameTables, Do, Acquire, UtilPhase, Quiet;
      Note(CycleStart);
      AcquirePointers(x.acquire);
      DecrementCooldowns();
      UtilizationTick(x.reading);
    }

    /** The application monitor and the aliveness output. */
    method RunMonitors(xs: seq<AppInput>)
      requires Valid() && |xs| == cfg.apps
      modifies this, countdown, lastCount, enables, cooldown, cfe
      ensures Valid() && Now() == AlivePhase(AppPhase(old(Now()), xs))
    {
      hide Confined, SameMarks, SameTables, Do, MonitorApps;
      if appMonState {
        Note(RunAppMon);
        MonitorApplications(xs);
      }
      if alivenessState {
        var printed := OutputAliveness();
      }
    }

    /** One wakeup. */
    method ProcessMain(x: CycleIn) returns (ok: bool)
      requires Valid() && CycleFits(cfg, x)
      modifies this, countdown, lastCount, enables, cooldown, tracker, cfe
      ensures Valid() && Now() == Cycle(old(Now()), x)
      ensures ok == CycleOk(old(Now()), x)
    {
      hide Confined, SameMarks, SameTables, Do, Prepare, AppPhase, AlivePhase, ProcessCommands, EventsBroke;
      PrepareCycle(x);
      RunMonitors(x.apps);
      assert Now() == BeforePipes(old(Now()), x);
      ok := ProcessPipes(x.pipes);
      if serviceWatchdog {
        Note(Watchdog);
      }
    }

    // ---------- Start-up ----------

    method RestoreFromStore(status: CdsStatus)
      requires Valid()
      modifies this`cdsData, this`cdsState, cfe`store, cfe`log
      ensures Valid() && Now() == CdsPhase(old(Now()), status)
    {
      hide Confined, SameMarks, SameTables, Do, Emit;
      match status {
        case AlreadyExists(restoreOk) =>
          if restoreOk {
            CopyFromStore();
            if cdsData.resets != Not(cdsData.resetsNot) || cdsData.max != Not(cdsData.maxNot) {
              SendEvent(CDS_CORRUPT_ERR_EID);
              SetCDSData(0, cfg.maxRestarts, Initialised);
            }
          } else {
            SendEvent(CDS_RESTORE_ERR_EID);
            SetCDSData(0, cfg.maxRestarts, Initialised);
          }
        case Created =>
          SetCDSData(0, cfg.maxRestarts, Initialised);
        case Refused =>
          StopSaving();
          SetCDSData(0, cfg.maxRestarts, Initialised);
      }
    }

    method CopyFromStore()
      requires Valid()
      modifies this`cdsData, cfe`log
      ensures Valid() && Now() == Do(old(Now()), RestoreCds)
    {
      hide Confined, SameMarks, SameTables, Do, AppOf, MsgOf, CpuOf, ModesOf, LoadsOf, CountOf;
      ResetOnly(Now(), RestoreCds);
      cdsData := cfe.store;
      cfe.log := Then(cfe.log, RestoreCds);
    }

    method StopSaving()
      requires Valid()
      modifies this`cdsState, cfe`log
      ensures Valid() && Now() == Do(old(Now()), CdsOff)
    {
      hide Confined, SameMarks, SameTables, Do, AppOf, MsgOf, CpuOf, ModesOf, LoadsOf, CountOf;
      ResetOnly(Now(), CdsOff);
      cdsState := false;
      cfe.log := Then(cfe.log, CdsOff);
    }

    method LoadTables(x: InitIn)
      requires Valid()
      modifies this`appMonLoaded, this`eventMonLoaded, this`msgActsState, this`exeCountState,
               this`appMonState, this`eventMonState, this`alivenessState, this`cpuHogState, cfe`log
      ensures Valid() && Now() == LoadPhase(old(Now()), x)
    {
      hide Lost, Emit, Now;
      if !x.xctLoad {
        LoseTable(ExeCountTable, XCT_LD_ERR_EID);
      }
      if !x.amtLoad {
        LoseTable(AppMonTable, AMT_LD_ERR_EID);
        SendEvent(DISABLE_APPMON_ERR_EID);
      }
      if !x.emtLoad {
        LoseTable(EventMonTable, EMT_LD_ERR_EID);
        SendEvent(DISABLE_EVENTMON_ERR_EID);
      }
      if !x.matLoad {
        LoseTable(MsgActsTable, MAT_LD_ERR_EID);
      }
    }

    /** Start-up once memory has been cleared, up to the main loop; `running` tells whether that runs cycles. */
    method Start(x: InitIn) returns (running: bool)
      requires Valid() && AcquireFits(cfg, x.acquire)
      modifies this, countdown, lastCount, enables, cooldown, cfe
      ensures Valid() && Now() == Subscribed(FromBoot(old(Now()), x), x)
      ensures running == LoopRuns(FromBoot(old(Now()), x), x)
    {
      hide CdsPhase, LoadPhase, Acquire, Emit, SubscribeBoth;
      RestoreFromStore(x.cds);
      if Registered(x.end) {
        LoadTables(x);
        AcquirePointers(x.acquire);
      }
      SendEvent(EndReport(x.end));
      running := Piped(x.end);
      if x.end.Initialized? {
        if eventMonState {
          running := TrySubscribe(x.longSub, x.shortSub, SUB_LONG_EVS_ERR_EID, SUB_SHORT_EVS_ERR_EID);
        }
      }
    }
  }

  lemma StepNone(s: State, ds: seq<CmdDelivery>)
    requires WF(s)
    ensures DrainCmds(s, ds, 0) == s
  {
  }

  lemma StepCmds(s: State, ds: seq<CmdDelivery>, k: nat)
    requires WF(s) && k < |ds|
    ensures DrainCmds(s, ds, k + 1) == if ds[k].GotCmd? then OneCmd(DrainCmds(s, ds, k), ds[k]) else DrainCmds(s, ds, k)
  {
  }

  /** Power-on or reboot: a new instance over the same store and log, then start-up. */
  method Reboot(cfg: Config, cfe: Cfe, x: InitIn, ghost before: State) returns (app: App, running: bool)
    requires ValidConfig(cfg) && AcquireFits(cfg, x.acquire)
    requires WF(before) && before.cfg == cfg && before.rst.store == cfe.store && before.log == cfe.log
    modifies cfe
    ensures app.cfe == cfe && app.Valid() && app.Now() == StartUp(before, x)
    ensures running == StartUpOk(before, x)
  {
    app := new App(cfg, cfe);
    assert app.Now() == Booted(cfg, before.rst.store, cfe.log) by {
      hide App.AppOf, App.MsgOf, App.CpuOf, App.ModesOf, App.LoadsOf, App.ResetOf, App.CountOf;
    }
    BootIsFresh(before);
    running := app.Start(x);
  }

  lemma BootIsFresh(s: State)
    requires WF(s)
    ensures Do(s, Boot) == Booted(s.cfg, s.rst.store, Then(s.log, Boot))
  {
    hide MarksOf, TableOk, Sampled, HalfDisabled, Deeds;
  }
}
