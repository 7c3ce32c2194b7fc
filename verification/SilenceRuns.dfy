/** A silent application over whole cycles. */
module SilenceRuns {
  import opened HsTypes
  import opened HsState
  import opened HsSteps
  import opened HsRuns
  import opened ResetRuns
  import opened ActionRuns
  import AppMonitor
  import AppMonitorRuns
  import CycleRuns
  import HsSound
  import Utilization

  // ---------- Steps that leave the application monitor alone ----------

  /** The application part is as it was, and the log only grew. */
  predicate Stays(s: State, r: State) {
    r.app == s.app && Extends(r.log, s.log)
  }

  lemma {:induction false} ExtendsOn(c: Trace, b: Trace, a: Trace)
    requires Extends(c, b) && Extends(b, a)
    ensures Extends(c, a)
  {
    if c != b {
      ExtendsOn(c.before, b, a);
    }
  }

  lemma StaysOn(a: State, b: State, c: State)
    requires Stays(a, b) && Stays(b, c)
    ensures Stays(a, c)
  {
    ExtendsOn(c.log, b.log, a.log);
  }

  lemma OpStays(s: State, op: Op)
    requires WF(s) && Fits(s, op) && !op.Boot? && !op.RefreshAppMon? && !op.Saw?
    ensures Stays(s, Do(s, op))
  {
    hide EmtEffect, MsgEffect, CpuEffect, ModesEffect, LoadsEffect, ResetEffect, BusEffect, CountEffect, AliveEffect,
         Confined, SameMarks, SameTables, HalfDisabled, Deeds;
    var r := Do(s, op);
    assert r.log == Then(s.log, op) && Extends(s.log, s.log);
  }

  lemma TwoStay(s: State, first: Op, second: Op)
    requires WF(s) && Fits(s, first) && !first.Boot? && !first.RefreshAppMon? && !first.Saw?
    requires Fits(Do(s, first), second) && !second.Boot? && !second.RefreshAppMon? && !second.Saw?
    ensures Stays(s, Do(Do(s, first), second))
  {
    hide Do, Stays, WF, Fits;
    OpStays(s, first);
    OpStays(Do(s, first), second);
    StaysOn(s, Do(s, first), Do(Do(s, first), second));
  }

  lemma EmitStays(s: State, eid: uint16)
    requires WF(s)
    ensures Stays(s, Emit(s, eid))
  {
    hide Do, Stays;
    OpStays(s, Event(eid));
  }

  /** An operation and a report of it. */
  lemma OpEmitStays(s: State, op: Op, eid: uint16)
    requires WF(s) && Fits(s, op) && !op.Boot? && !op.RefreshAppMon? && !op.Saw?
    ensures Stays(s, Do(s, op)) && Stays(s, Emit(Do(s, op), eid))
  {
    hide Do, Stays, WF, Fits, Acted;
    OpStays(s, op);
    EmitStays(Do(s, op), eid);
    StaysOn(s, Do(s, op), Emit(Do(s, op), eid));
  }

  lemma StaysSame(s: State)
    ensures Stays(s, s)
  {
  }

  lemma ResetStays(s: State, eid: uint16)
    requires WF(s)
    ensures Stays(s, ProcReset(s, eid))
  {
    hide Do, Emit, Stays, Acted, WF, Confined, SameMarks, SameTables, HalfDisabled, Deeds;
    var s1 := Emit(s, eid);
    EmitStays(s, eid);
    var c := s1.rst.cds;
    if c.resets < c.max {
      TwoStay(s1, SetCds(Counted, c.resets + 1, c.max), ResetCfe);
    } else {
      EmitStays(s1, RESET_LIMIT_ERR_EID);
    }
    StaysOn(s, s1, ProcReset(s, eid));
  }

  lemma MessageStays(s: State, action: uint16, eid: uint16)
    requires WF(s) && action > ACT_LAST_NONMSG
    ensures Stays(s, MsgAction(s, action, eid))
  {
    hide Do, Emit, Stays, Acted, Confined, SameMarks, SameTables, HalfDisabled, Deeds;
    var m := action - ACT_LAST_NONMSG - 1;
    StaysSame(s);
    if m < s.cfg.msgActs {
      OpEmitStays(s, Transmit(m), eid);
    }
  }

  lemma ActionStays(s: State, e: AmtEntry, x: AppInput)
    requires WF(s) && e.action != ACT_NOACT
    ensures Stays(s, AppAction(s, e, x))
  {
    hide Do, Emit, ProcReset, MsgAction, Stays, Acted, WF;
    ResetStays(s, APPMON_PROC_ERR_EID);
    EmitStays(s, APPMON_FAIL_ERR_EID);
    if e.action > ACT_LAST_NONMSG {
      MessageStays(s, e.action, APPMON_MSGACTS_ERR_EID);
    }
    EmitStays(s, APPMON_RESTART_ERR_EID);
    var s1 := Emit(s, APPMON_RESTART_ERR_EID);
    EmitStays(s1, APPMON_NOT_RESTARTED_ERR_EID);
    StaysOn(s, s1, Emit(s1, APPMON_NOT_RESTARTED_ERR_EID));
    var call := RestartApp(e.name, x.restartOk);
    OpEmitStays(s1, call, APPMON_NOT_RESTARTED_ERR_EID);
    StaysOn(s, s1, Do(s1, call));
    StaysOn(s, s1, Emit(Do(s1, call), APPMON_NOT_RESTARTED_ERR_EID));
  }

  lemma ManageStays(s: State, x: EntryInput, eid: uint16, call: Op, failed: uint16)
    requires WF(s) && (call.RestartApp? || call.DeleteApp?)
    ensures Stays(s, ManageAction(s, x, eid, call, failed))
  {
    hide Do, Emit, Stays, Acted, WF;
    EmitStays(s, failed);
    EmitStays(s, eid);
    var s1 := Emit(s, eid);
    OpEmitStays(s1, call, failed);
    StaysOn(s, s1, Do(s1, call));
    StaysOn(s, s1, Emit(Do(s1, call), failed));
  }

  lemma EventActionStays(s: State, e: EmtEntry, x: EntryInput)
    requires WF(s) && e.action != ACT_NOACT
    ensures Stays(s, EventAction(s, e, x))
  {
    hide ProcReset, ManageAction, MsgAction, Stays, Acted, WF;
    ResetStays(s, EVENTMON_PROC_ERR_EID);
    ManageStays(s, x, EVENTMON_RESTART_ERR_EID, RestartApp(e.name, x.callOk), EVENTMON_NOT_RESTARTED_ERR_EID);
    ManageStays(s, x, EVENTMON_DELETE_ERR_EID, DeleteApp(e.name, x.callOk), EVENTMON_NOT_DELETED_ERR_EID);
    if e.action > ACT_LAST_NONMSG {
      MessageStays(s, e.action, EVENTMON_MSGACTS_ERR_EID);
    }
  }

  lemma EventEntryStays(s: State, i: nat, ev: EventMsg, x: EntryInput)
    requires WF(s) && i < s.cfg.events
    ensures Stays(s, EventEntry(s, i, ev, x))
  {
    hide Do, EventAction, Stays, Kept, Acted, Confined, SameMarks, SameTables, HalfDisabled, Deeds;
    StaysSame(s);
    if Matches(s.emt[i], ev) {
      var op := Attempt(ev, i, x.resolved);
      OpStays(s, op);
      EventActionStays(Do(s, op), s.emt[i], x);
      StaysOn(s, Do(s, op), EventAction(Do(s, op), s.emt[i], x));
    }
  }

  lemma {:induction false} MonitorEventStays(s: State, ev: EventMsg, xs: seq<EntryInput>, n: nat)
    requires WF(s) && n <= |xs| == s.cfg.events
    ensures Stays(s, MonitorEvent(s, ev, xs, n))
  {
    hide EventEntry, Stays, SameMarks, SameTables, HalfDisabled, WF;
    StaysSame(s);
    if n > 0 {
      var s1 := MonitorEvent(s, ev, xs, n - 1);
      MonitorEventStays(s, ev, xs, n - 1);
      EventEntryStays(s1, n - 1, ev, xs[n - 1]);
      StaysOn(s, s1, MonitorEvent(s, ev, xs, n));
    }
  }

  lemma OneEventStays(s: State, d: EventDelivery)
    requires WF(s) && DeliveryFits(s.cfg, d)
    ensures Stays(s, OneEvent(s, d))
  {
    hide Do, MonitorEvent, Stays, Kept, Confined, SameMarks, SameTables, HalfDisabled, Deeds, WF;
    StaysSame(s);
    if d.GotEvent? {
      var s1 := Do(s, RunEventMon(d.event));
      OpStays(s, RunEventMon(d.event));
      MonitorEventStays(s1, d.event, d.inputs, s.cfg.events);
      StaysOn(s, s1, MonitorEvent(s1, d.event, d.inputs, s.cfg.events));
    }
  }

  lemma {:induction false} DrainEventsStay(s: State, ds: seq<EventDelivery>, n: nat)
    requires WF(s) && n <= |ds| && forall d | d in ds :: DeliveryFits(s.cfg, d)
    ensures Stays(s, DrainEvents(s, ds, n))
  {
    hide OneEvent, Stays, SameMarks, SameTables, HalfDisabled, WF;
    StaysSame(s);
    if n > 0 {
      var s1 := DrainEvents(s, ds, n - 1);
      DrainEventsStay(s, ds, n - 1);
      OneEventStays(s1, ds[n - 1]);
      StaysOn(s, s1, DrainEvents(s, ds, n));
    }
  }

  // ---------- Commands other than the one that arms the monitor again ----------

  lemma BothStay(s: State, first: Op, second: Op, firstEid: uint16, secondEid: uint16)
    requires WF(s) && (first.Subscribe? || first.Unsubscribe?) && (second.Subscribe? || second.Unsubscribe?)
    ensures Stays(s, Emit(Do(s, first), firstEid)) && Stays(s, Do(Do(s, first), second))
    ensures Stays(s, Emit(Do(Do(s, first), second), secondEid))
  {
    hide Do, Emit, Stays, WF, Acted;
    OpEmitStays(s, first, firstEid);
    var s1 := Do(s, first);
    OpEmitStays(s1, second, secondEid);
    StaysOn(s, s1, Do(s1, second));
    StaysOn(s, s1, Emit(Do(s1, second), secondEid));
  }

  lemma SwitchStays(s: State, mode: Mode, on: bool, eid: uint16)
    requires WF(s)
    ensures Stays(s, SwitchCmd(s, mode, on, eid))
  {
    hide Do, Emit, Stays, WF, Acted;
    OpStays(s, CmdAccepted);
    var s1 := Do(s, CmdAccepted);
    OpEmitStays(s1, Switch(mode, on), eid);
    StaysOn(s, s1, Emit(Do(s1, Switch(mode, on)), eid));
  }

  lemma SetCdsStays(s: State, why: CdsReason, resets: uint16, max: uint16, eid: uint16)
    requires WF(s)
    ensures Stays(s, SetCdsCmd(s, why, resets, max, eid))
  {
    hide Do, Emit, Stays, WF, Acted;
    OpStays(s, CmdAccepted);
    var s1 := Do(s, CmdAccepted);
    OpEmitStays(s1, SetCds(why, resets, max), eid);
    StaysOn(s, s1, Emit(Do(s1, SetCds(why, resets, max)), eid));
  }

  lemma EnableStays(s: State, long: bool, short: bool)
    requires WF(s)
    ensures Stays(s, EnableEventMon(s, long, short))
  {
    hide Do, Emit, Stays, WF, Acted, SwitchCmd, Quiet;
    SwitchStays(s, EventMonMode, true, ENABLE_EVENTMON_DBG_EID);
    BothStay(s, Subscribe(LongFormat, long), Subscribe(ShortFormat, short), EVENTMON_LONG_SUB_EID,
             EVENTMON_SHORT_SUB_EID);
    var s1 := SubscribeBoth(s, long, short, EVENTMON_LONG_SUB_EID, EVENTMON_SHORT_SUB_EID);
    OpStays(s1, CmdRejected);
    StaysOn(s, s1, Reject(s1));
    SwitchStays(s1, EventMonMode, true, ENABLE_EVENTMON_DBG_EID);
    StaysOn(s, s1, SwitchCmd(s1, EventMonMode, true, ENABLE_EVENTMON_DBG_EID));
  }

  lemma DisableStays(s: State, long: bool, short: bool)
    requires WF(s)
    ensures Stays(s, DisableEventMon(s, long, short))
  {
    hide Do, Emit, Stays, WF, Acted, SwitchCmd, Quiet;
    SwitchStays(s, EventMonMode, false, DISABLE_EVENTMON_DBG_EID);
    BothStay(s, Unsubscribe(LongFormat, long), Unsubscribe(ShortFormat, short), EVENTMON_LONG_UNSUB_EID,
             EVENTMON_SHORT_UNSUB_EID);
    var s1 := UnsubscribeBoth(s, long, short);
    OpStays(s1, CmdRejected);
    StaysOn(s, s1, Reject(s1));
    SwitchStays(s1, EventMonMode, false, DISABLE_EVENTMON_DBG_EID);
    StaysOn(s, s1, SwitchCmd(s1, EventMonMode, false, DISABLE_EVENTMON_DBG_EID));
  }

  /** A command that would arm every application again. */
  predicate ArmsAgain(d: CmdDelivery) {
    d.GotCmd? && d.msg.kind.Command? && d.msg.code == CC_ENABLE_APP_MON
  }

  lemma ExecuteStays(s: State, d: CmdDelivery)
    requires WF(s) && d.GotCmd? && d.msg.code <= CC_DISABLE_CPU_HOG && d.msg.code != CC_ENABLE_APP_MON
    ensures Stays(s, Execute(s, d))
  {
    hide Do, Emit, Stays, WF, Acted, SwitchCmd, SetCdsCmd, EnableEventMon, DisableEventMon, Quiet, Plugged;
    var code := d.msg.code;
    if code == CC_NOOP {
      OpEmitStays(s, CmdAccepted, NOOP_INF_EID);
    } else if code == CC_RESET {
      OpEmitStays(s, ClearCounters, RESET_INF_EID);
    } else if code == CC_DISABLE_APP_MON {
      SwitchStays(s, AppMonMode, false, DISABLE_APPMON_DBG_EID);
    } else if code == CC_ENABLE_EVENT_MON {
      EnableStays(s, d.long, d.short);
    } else if code == CC_DISABLE_EVENT_MON {
      DisableStays(s, d.long, d.short);
    } else if code == CC_ENABLE_ALIVENESS {
      SwitchStays(s, AlivenessMode, true, ENABLE_ALIVENESS_DBG_EID);
    } else if code == CC_DISABLE_ALIVENESS {
      SwitchStays(s, AlivenessMode, false, DISABLE_ALIVENESS_DBG_EID);
    } else if code == CC_RESET_RESETS_PERFORMED {
      SetCdsStays(s, Cleared, 0, s.rst.cds.max, RESET_RESETS_DBG_EID);
    } else if code == CC_SET_MAX_RESETS {
      SetCdsStays(s, Limited, s.rst.cds.resets, d.msg.maxResets, SET_MAX_RESETS_DBG_EID);
    } else if code == CC_ENABLE_CPU_HOG {
      SwitchStays(s, CpuHogMode, true, ENABLE_CPUHOG_DBG_EID);
    } else {
      SwitchStays(s, CpuHogMode, false, DISABLE_CPUHOG_DBG_EID);
    }
  }

  lemma RejectStays(s: State, eid: uint16)
    requires WF(s)
    ensures Stays(s, Reject(Emit(s, eid))) && Stays(s, Emit(Reject(s), eid))
  {
    hide Do, Emit, Stays, WF, Acted;
    EmitStays(s, eid);
    OpStays(Emit(s, eid), CmdRejected);
    StaysOn(s, Emit(s, eid), Reject(Emit(s, eid)));
    OpEmitStays(s, CmdRejected, eid);
  }

  lemma CmdStays(s: State, d: CmdDelivery)
    requires WF(s) && !ArmsAgain(d)
    ensures Stays(s, OneCmd(s, d))
  {
    hide Do, Emit, Stays, WF, Acted, Execute, Reject, Quiet;
    StaysSame(s);
    EmitStays(s, HKREQ_LEN_ERR_EID);
    OpStays(s, SendHk);
    RejectStays(s, CC_ERR_EID);
    RejectStays(s, CMD_LEN_ERR_EID);
    RejectStays(s, MID_ERR_EID);
    if d.GotCmd? && d.msg.code <= CC_DISABLE_CPU_HOG && d.msg.code != CC_ENABLE_APP_MON {
      ExecuteStays(s, d);
    }
  }

  lemma {:induction false} DrainCmdsStay(s: State, ds: seq<CmdDelivery>, n: nat)
    requires WF(s) && n <= |ds| && forall d | d in ds :: !ArmsAgain(d)
    ensures Stays(s, DrainCmds(s, ds, n))
  {
    hide OneCmd, Stays, SameMarks, WF, ArmsAgain;
    StaysSame(s);
    if n > 0 {
      var s1 := DrainCmds(s, ds, n - 1);
      DrainCmdsStay(s, ds, n - 1);
      CmdStays(s1, ds[n - 1]);
      StaysOn(s, s1, DrainCmds(s, ds, n));
    }
  }

  lemma PipesStay(s: State, p: Pipes)
    requires WF(s) && PipesFit(s.cfg, p) && forall d | d in p.cmds :: !ArmsAgain(d)
    ensures Stays(s, ProcessCommands(s, p))
  {
    hide DrainEvents, DrainCmds, Stays, Kept, Quiet, WF, ArmsAgain;
    StaysSame(s);
    DrainEventsStay(s, p.events, |p.events|);
    var s1 := ProcessEvents(s, p);
    DrainCmdsStay(s1, p.cmds, |p.cmds|);
    StaysOn(s, s1, DrainCmds(s1, p.cmds, |p.cmds|));
  }

  // ---------- The phases before the application monitor runs ----------

  /** As `Stays`, and application monitoring is on or off as it was. */
  predicate Steady(s: State, r: State) {
    Stays(s, r) && r.modes.appMon == s.modes.appMon
  }

  lemma SteadyOn(a: State, b: State, c: State)
    requires Steady(a, b) && Steady(b, c)
    ensures Steady(a, c)
  {
    hide Stays;
    StaysOn(a, b, c);
  }

  lemma OpSteady(s: State, op: Op)
    requires WF(s) && Fits(s, op) && !op.Boot? && !op.RefreshAppMon? && !op.Saw?
    requires op.Switch? ==> !op.mode.AppMonMode?
    requires op.Dropped? ==> !op.table.AppMonTable?
    ensures Steady(s, Do(s, op))
  {
    hide AppEffect, EmtEffect, MsgEffect, CpuEffect, LoadsEffect, ResetEffect, BusEffect, CountEffect, AliveEffect,
         Confined, SameMarks, SameTables, HalfDisabled, Deeds, Stays;
    OpStays(s, op);
  }

  lemma EmitSteady(s: State, eid: uint16)
    requires WF(s)
    ensures Steady(s, Emit(s, eid))
  {
    hide Do, Steady;
    OpSteady(s, Event(eid));
  }

  lemma LostSteady(s: State, table: Table, eid: uint16)
    requires WF(s) && !table.AppMonTable?
    ensures Steady(s, Lost(s, table, eid))
  {
    hide Do, Emit, Steady, Acted, WF;
    EmitSteady(s, eid);
    OpSteady(Emit(s, eid), Dropped(table));
    SteadyOn(s, Emit(s, eid), Lost(s, table, eid));
  }

  lemma UnsubSteady(s: State, f: Format, ok: bool, eid: uint16)
    requires WF(s)
    ensures Steady(s, Unsub(s, f, ok, eid))
  {
    hide Do, Emit, Steady, Acted, WF;
    var s1 := Do(s, Unsubscribe(f, ok));
    OpSteady(s, Unsubscribe(f, ok));
    EmitSteady(s1, eid);
    SteadyOn(s, s1, Emit(s1, eid));
  }

  lemma EmtLostSteady(s: State, long: bool, short: bool)
    requires WF(s)
    ensures Steady(s, EmtLost(s, long, short))
  {
    hide Do, Emit, Unsub, Steady, Acted, WF, Quiet;
    var s1 := Emit(s, EVENTMON_GETADDR_ERR_EID);
    EmitSteady(s, EVENTMON_GETADDR_ERR_EID);
    UnsubSteady(s1, LongFormat, long, BADEMT_LONG_UNSUB_EID);
    var s2 := Unsub(s1, LongFormat, long, BADEMT_LONG_UNSUB_EID);
    SteadyOn(s, s1, s2);
    UnsubSteady(s2, ShortFormat, short, BADEMT_SHORT_UNSUB_EID);
    var s3 := Unsub(s2, ShortFormat, short, BADEMT_SHORT_UNSUB_EID);
    SteadyOn(s, s2, s3);
    var s4 := if s.modes.eventMon then s3 else s1;
    OpSteady(s4, Dropped(EventMonTable));
    SteadyOn(s, s4, Do(s4, Dropped(EventMonTable)));
  }

  lemma EmtSteady(s: State, g: TableGet<EmtEntry>, long: bool, short: bool)
    requires WF(s) && (g.Updated? ==> |g.table| == s.cfg.events)
    ensures Steady(s, AcquireEmt(s, g, long, short))
  {
    hide Do, EmtLost, Steady, Quiet, WF, Confined, SameMarks, SameTables, HalfDisabled, Deeds;
    var s1 := Do(s, GotTable(EventMonTable, !g.Failed?));
    OpSteady(s, GotTable(EventMonTable, !g.Failed?));
    if g.Updated? {
      OpSteady(s1, LoadEmt(g.table));
    }
    EmtLostSteady(s1, long, short);
    SteadyOn(s, s1, EmtLost(s1, long, short));
    if g.Updated? {
      SteadyOn(s, s1, Do(s1, LoadEmt(g.table)));
    }
  }

  lemma MatSteady(s: State, g: TableGet<MatEntry>)
    requires WF(s) && (g.Updated? ==> |g.table| == s.cfg.msgActs)
    ensures Steady(s, AcquireMat(s, g))
  {
    hide Do, Lost, Steady, Quiet, WF, Confined, SameMarks, SameTables, HalfDisabled, Deeds;
    var s1 := Do(s, GotTable(MsgActsTable, !g.Failed?));
    OpSteady(s, GotTable(MsgActsTable, !g.Failed?));
    LostSteady(s1, MsgActsTable, MSGACTS_GETADDR_ERR_EID);
    SteadyOn(s, s1, Lost(s1, MsgActsTable, MSGACTS_GETADDR_ERR_EID));
    if g.Updated? {
      OpSteady(s1, RefreshMsgActs(g.table));
      SteadyOn(s, s1, Do(s1, RefreshMsgActs(g.table)));
    }
  }

  lemma XctSteady(s: State, ok: bool)
    requires WF(s)
    ensures Steady(s, AcquireXct(s, ok))
  {
    hide Do, Lost, Steady, Quiet, WF, Confined, SameMarks, SameTables, HalfDisabled, Deeds;
    var s1 := Do(s, GotTable(ExeCountTable, ok));
    OpSteady(s, GotTable(ExeCountTable, ok));
    LostSteady(s1, ExeCountTable, EXECOUNT_GETADDR_ERR_EID);
    SteadyOn(s, s1, Lost(s1, ExeCountTable, EXECOUNT_GETADDR_ERR_EID));
  }

  lemma AcquireSteady(s: State, a: AcquireIn)
    requires WF(s) && AcquireFits(s.cfg, a) && a.amt.Same?
    ensures Steady(s, Acquire(s, a))
  {
    hide Do, AcquireEmt, AcquireMat, AcquireXct, Steady, WF, Confined, SameMarks, SameTables, HalfDisabled,
         Deeds;
    var s1 := AcquireAmt(s, a.amt);
    OpSteady(s, GotTable(AppMonTable, true));
    EmtSteady(s1, a.emt, a.longUnsub, a.shortUnsub);
    var s2 := AcquireEmt(s1, a.emt, a.longUnsub, a.shortUnsub);
    SteadyOn(s, s1, s2);
    MatSteady(s2, a.mat);
    var s3 := AcquireMat(s2, a.mat);
    SteadyOn(s, s2, s3);
    XctSteady(s3, a.xctOk);
    SteadyOn(s, s3, AcquireXct(s3, a.xctOk));
  }

  lemma UtilSteady(s: State, reading: int32)
    requires WF(s)
    ensures Steady(s, UtilPhase(s, reading))
  {
    hide Do, Steady, WF, Confined, SameMarks, SameTables, HalfDisabled, Deeds, Utilization.Alarm;
    var op := TakeSample(Utilization.Sample(reading, s.modes.cpuHog));
    OpSteady(s, op);
    OpSteady(Do(s, op), HogEvent);
    SteadyOn(s, Do(s, op), Do(Do(s, op), HogEvent));
    OpSteady(s, UtilTick);
    var s1 := MonitorUtil(s, reading);
    OpSteady(s1, UtilTick);
    SteadyOn(s, s1, Do(s1, UtilTick));
  }

  lemma PrepareSteady(s: State, x: CycleIn)
    requires WF(s) && CycleFits(s.cfg, x) && x.acquire.amt.Same?
    ensures Steady(s, Prepare(s, x))
  {
    hide Do, Acquire, UtilPhase, Steady, Quiet, WF, Confined, SameMarks, SameTables, HalfDisabled, Deeds;
    var s0 := Do(s, CycleStart);
    OpSteady(s, CycleStart);
    AcquireSteady(s0, x.acquire);
    var s1 := Acquire(s0, x.acquire);
    SteadyOn(s, s0, s1);
    OpSteady(s1, Tick);
    SteadyOn(s, s1, Do(s1, Tick));
    UtilSteady(Do(s1, Tick), x.reading);
    SteadyOn(s, Do(s1, Tick), Prepare(s, x));
  }

  // ---------- One cycle of silence ----------

  /** From s to r the log grew; entry j counts down as before. */
  predicate Spares(s: State, r: State, j: nat)
    requires j < |s.app.mon.countdown| == |s.app.mon.last|
  {
    && |r.app.mon.countdown| == |s.app.mon.countdown| && |r.app.mon.last| == |s.app.mon.last|
    && r.app.mon.countdown[j] == s.app.mon.countdown[j] && r.app.mon.last[j] == s.app.mon.last[j]
    && Extends(r.log, s.log)
  }

  /** From s to r entry i was looked at and gave no sign of life; the look is the end of `look`. */
  predicate Ticked(s: State, r: State, i: nat, look: Trace)
    requires i < |s.app.mon.countdown| == |s.app.mon.last| && s.app.mon.countdown[i] >= 1
  {
    && |r.app.mon.countdown| == |s.app.mon.countdown| && |r.app.mon.last| == |s.app.mon.last|
    && r.app.mon.countdown[i] == s.app.mon.countdown[i] - 1 && r.app.mon.last[i] == s.app.mon.last[i]
    && Extends(r.log, look) && Extends(look, s.log) && look.Then? && look.op.Saw? && look.op.entry == i
    && look.op.fired == (s.app.mon.countdown[i] == 1)
  }

  lemma NameStays(s: State, i: nat, x: AppInput)
    requires WF(s) && i < s.cfg.apps
    ensures Stays(s, NameReport(s, i, x))
  {
    hide Do, Emit, Stays, Acted;
    StaysSame(s);
    EmitStays(s, APPMON_APPNAME_ERR_EID);
    EmitStays(s, APPMON_APPNAME_DBG_EID);
  }

  lemma SawEffect(s: State, i: nat, x: Sighting)
    requires WF(s) && i < s.cfg.apps && s.app.mon.countdown[i] != 0
    ensures var op := Saw(i, x, AppMonitor.Expires(s.app.mon, i, x));
            && Do(s, op).app.mon == AppMonitor.Look(s.cfg.apps, s.app.mon, s.app.amt[i], i, x)
            && Do(s, op).log == Then(s.log, op)
  {
    hide AppMonitor.Look, AppMonitor.Expires;
  }

  lemma EntrySpares(s: State, i: nat, x: AppInput, j: nat)
    requires WF(s) && i < s.cfg.apps && j < s.cfg.apps && j != i
    ensures Spares(s, AppEntry(s, i, x), j)
  {
    hide Do, Emit, NameReport, AppAction, Acted, AppMonitor.Expires, Confined, SameMarks, SameTables, HalfDisabled,
         Deeds;
    if s.app.amt[i].action != ACT_NOACT && s.app.mon.countdown[i] != 0 {
      NameStays(s, i, x);
      var s1 := NameReport(s, i, x);
      SawEffect(s1, i, x.sight);
      var op := Saw(i, x.sight, AppMonitor.Expires(s1.app.mon, i, x.sight));
      var s2 := Do(s1, op);
      ExtendsOn(s2.log, s1.log, s.log);
      ActionStays(s2, s.app.amt[i], x);
      ExtendsOn(AppAction(s2, s.app.amt[i], x).log, s2.log, s.log);
    }
  }

  lemma EntryTicks(s: State, i: nat, x: AppInput) returns (look: Trace)
    requires WF(s) && i < s.cfg.apps && s.app.mon.countdown[i] != 0 && s.app.amt[i].action != ACT_NOACT
    requires AppMonitor.Missed(s.app.mon.last[i], x.sight)
    ensures Ticked(s, AppEntry(s, i, x), i, look)
  {
    hide Do, Emit, NameReport, AppAction, Acted, Confined, SameMarks, SameTables, HalfDisabled, Deeds,
         AppMonitor.ClearBit;
    NameStays(s, i, x);
    var s1 := NameReport(s, i, x);
    SawEffect(s1, i, x.sight);
    var op := Saw(i, x.sight, AppMonitor.Expires(s1.app.mon, i, x.sight));
    var s2 := Do(s1, op);
    look := s2.log;
    ExtendsOn(s2.log, s1.log, s.log);
    ActionStays(s2, s.app.amt[i], x);
    StaysSame(s2);
  }

  lemma {:induction false} MonitorSpares(s: State, xs: seq<AppInput>, n: nat, j: nat)
    requires WF(s) && n <= j < s.cfg.apps && |xs| == s.cfg.apps
    ensures Spares(s, MonitorApps(s, xs, n), j)
  {
    hide AppEntry, Acted;
    if n > 0 {
      var s1 := MonitorApps(s, xs, n - 1);
      MonitorSpares(s, xs, n - 1, j);
      EntrySpares(s1, n - 1, xs[n - 1], j);
      ExtendsOn(MonitorApps(s, xs, n).log, s1.log, s.log);
    }
  }

  lemma {:induction false} MonitorTicks(s: State, xs: seq<AppInput>, n: nat, i: nat) returns (look: Trace)
    requires WF(s) && i < n <= s.cfg.apps && |xs| == s.cfg.apps
    requires s.app.mon.countdown[i] != 0 && s.app.amt[i].action != ACT_NOACT
    requires AppMonitor.Missed(s.app.mon.last[i], xs[i].sight)
    ensures Ticked(s, MonitorApps(s, xs, n), i, look)
  {
    hide AppEntry, SameMarks, SameTables, HalfDisabled, Deeds, AppMonitor.Missed;
    var s1 := MonitorApps(s, xs, n - 1);
    if n - 1 == i {
      MonitorSpares(s, xs, i, i);
      look := EntryTicks(s1, i, xs[i]);
      ExtendsOn(look, s1.log, s.log);
    } else {
      look := MonitorTicks(s, xs, n - 1, i);
      EntrySpares(s1, n - 1, xs[n - 1], i);
      ExtendsOn(MonitorApps(s, xs, n).log, s1.log, look);
    }
  }

  /** In this cycle monitoring is on, the application table and the armed entries stay, and entry i gives no sign of
      life. */
  predicate Silent(s: State, x: CycleIn, i: nat)
    requires WF(s) && CycleFits(s.cfg, x) && i < s.cfg.apps
  {
    && s.modes.appMon && x.acquire.amt.Same? && (forall d | d in x.pipes.cmds :: !ArmsAgain(d))
    && AppMonitor.Missed(s.app.mon.last[i], x.apps[i].sight)
  }

  lemma TickedBetween(s: State, a: State, b: State, r: State, i: nat, look: Trace)
    requires i < |s.app.mon.countdown| == |s.app.mon.last| && s.app.mon.countdown[i] >= 1
    requires Stays(s, a) && Ticked(a, b, i, look) && Stays(b, r)
    ensures Ticked(s, r, i, look) && r.app == b.app
  {
    hide Extends;
    ExtendsOn(look, a.log, s.log);
    ExtendsOn(r.log, b.log, look);
  }

  /** After the application monitor a cycle leaves its part alone. */
  lemma RestStays(s: State, p: Pipes)
    requires WF(s) && PipesFit(s.cfg, p) && forall d | d in p.cmds :: !ArmsAgain(d)
    ensures Stays(s, WatchdogPhase(ProcessCommands(AlivePhase(s), p)))
  {
    hide Do, ProcessCommands, Stays, Quiet, WF, ArmsAgain, Confined, SameMarks, SameTables, HalfDisabled, Deeds;
    StaysSame(s);
    OpStays(s, AliveTick(s.alive + 1 >= s.cfg.alivePeriod));
    var s1 := AlivePhase(s);
    PipesStay(s1, p);
    var s2 := ProcessCommands(s1, p);
    StaysOn(s, s1, s2);
    OpStays(s2, Watchdog);
    StaysOn(s, s2, Do(s2, Watchdog));
  }

  lemma SilentCycle(s: State, x: CycleIn, i: nat) returns (look: Trace)
    requires WF(s) && CycleFits(s.cfg, x) && i < s.cfg.apps && Silent(s, x, i)
    requires s.app.mon.countdown[i] != 0 && s.app.amt[i].action != ACT_NOACT
    ensures Ticked(s, Cycle(s, x), i, look) && Cycle(s, x).app.amt == s.app.amt
  {
    hide Do, Prepare, MonitorApps, AlivePhase, ProcessCommands, WatchdogPhase, Confined, SameMarks, SameTables,
         HalfDisabled, Deeds, ArmsAgain, AppMonitor.Missed, Ticked, Extends;
    PrepareSteady(s, x);
    var s1 := Prepare(s, x);
    var s2 := Do(s1, RunAppMon);
    OpStays(s1, RunAppMon);
    StaysOn(s, s1, s2);
    var s3 := MonitorApps(s2, x.apps, s.cfg.apps);
    look := MonitorTicks(s2, x.apps, s.cfg.apps, i);
    RestStays(s3, x.pipes);
    TickedBetween(s, s2, s3, Cycle(s, x), i, look);
  }

  // ---------- Consecutive cycles of a run ----------

  /** The last k steps of the run were cycles in which entry i was silent. */
  predicate SilentFor(cfg: Config, run: Run, i: nat, k: nat)
    requires Possible(cfg, run) && i < cfg.apps
  {
    k == 0 || (run.Wakeup? && SilentFor(cfg, run.before, i, k - 1) && Silent(After(cfg, run.before), run.cycle, i))
  }

  /** The run without its last k steps. */
  function Back(run: Run, k: nat): Run {
    if k == 0 || run.PowerOff? then run else Back(run.before, k - 1)
  }

  lemma {:induction false} BackPossible(cfg: Config, run: Run, k: nat)
    requires Possible(cfg, run)
    ensures Possible(cfg, Back(run, k))
  {
    hide After, Up;
    if k > 0 && !run.PowerOff? {
      BackPossible(cfg, run.before, k - 1);
    }
  }

  /** The silence that the table allows entry i after this run: its cycle count less the misses so far. */
  function Patience(cfg: Config, run: Run, i: nat): int
    requires Possible(cfg, run) && i < cfg.apps
  {
    After(cfg, run).app.amt[i].cycleCount - AppMonitorRuns.Misses(After(cfg, run).log, i)
  }

  /** An armed entry that has not fired has patience left, which is its countdown. */
  lemma PatienceIsCountdown(cfg: Config, run: Run, i: nat)
    requires Possible(cfg, run) && i < cfg.apps && AppMonitor.Active(After(cfg, run).app.amt[i])
    ensures After(cfg, run).app.mon.countdown[i] == Patience(cfg, run, i)
  {
    hide After, AppMonitorRuns.Misses, AppMonitorRuns.LastSeen, AppMonitorRuns.Firings, Replay, Lawful;
    AppMonitorRuns.EntryInvariant(cfg, After(cfg, run).log, i);
  }

  /** Each silent cycle costs one; the k-th of them, when that is all there was, uses the countdown up. */
  lemma {:induction false} SilenceCosts(cfg: Config, run: Run, i: nat, k: nat)
    requires Possible(cfg, run) && i < cfg.apps && SilentFor(cfg, run, i, k) && Possible(cfg, Back(run, k))
    requires AppMonitor.Active(After(cfg, Back(run, k)).app.amt[i]) && k <= Patience(cfg, Back(run, k), i)
    ensures After(cfg, run).app.amt == After(cfg, Back(run, k)).app.amt
    ensures After(cfg, run).app.mon.countdown[i] == Patience(cfg, Back(run, k), i) - k
  {
    hide After, Cycle, Silent, Patience, Up, Reachable, HsSound.Resting, AppMonitor.Active, Extends, WF, Possible;
    PatienceIsCountdown(cfg, Back(run, k), i);
    if k > 0 {
      BackPossible(cfg, run, 1);
      assert Back(run, 1) == run.before;
      SilenceCosts(cfg, run.before, i, k - 1);
      var look := SilentStep(cfg, run, i);
    }
  }

  lemma SilentStep(cfg: Config, run: Run, i: nat) returns (look: Trace)
    requires Possible(cfg, run) && run.Wakeup? && i < cfg.apps && Silent(After(cfg, run.before), run.cycle, i)
    requires After(cfg, run.before).app.mon.countdown[i] != 0
    requires AppMonitor.Active(After(cfg, run.before).app.amt[i])
    ensures Ticked(After(cfg, run.before), After(cfg, run), i, look)
    ensures After(cfg, run).app.amt == After(cfg, run.before).app.amt
  {
    hide Cycle, Silent, Ticked, Replay, Lawful, Do, Can;
    look := SilentCycle(After(cfg, run.before), run.cycle, i);
  }

  /** HS2000.2 over whole cycles: in every run in which HS is up, an application that was silent in the last k cycles,
      all its table entry had left for it, was looked at in the last of them and its countdown used up; what its entry
      asks for was carried out if the message table and cooldown grant it. */
  lemma SilentAppActedOn(cfg: Config, run: Run, i: nat, k: nat) returns (look: Trace, p: Trace)
    requires Possible(cfg, run) && Up(cfg, run) && i < cfg.apps && k >= 1 && SilentFor(cfg, run, i, k)
    requires Possible(cfg, Back(run, k)) && AppMonitor.Active(After(cfg, Back(run, k)).app.amt[i])
    requires k == Patience(cfg, Back(run, k), i)
    ensures ThisBoot(cfg, run, look) && Extends(look, After(cfg, run.before).log)
    ensures look.Then? && look.op.Saw? && look.op.entry == i && look.op.fired
    ensures Granted(Replay(cfg, look), Asked(Replay(cfg, look), look.op)) ==>
              CarriedOut(cfg, run, look, Asked(Replay(cfg, look), look.op), p)
  {
    hide After, Up, Silent, Patience, Granted, Asked, Pending, CarriedOut, Replay, Lawful;
    SilenceCosts(cfg, run.before, i, k - 1);
    look := SilentStep(cfg, run, i);
    LookInBoot(cfg, run, look);
    p := look;
    if Granted(Replay(cfg, look), Asked(Replay(cfg, look), look.op)) {
      CallOwes(cfg, look);
      p := EveryCallAnswered(cfg, run, look);
    }
  }

  lemma LookInBoot(cfg: Config, run: Run, look: Trace)
    requires Possible(cfg, run) && Up(cfg, run) && run.Wakeup?
    requires Extends(After(cfg, run).log, look) && Extends(look, After(cfg, run.before).log)
    ensures ThisBoot(cfg, run, look)
  {
    hide Cycle, Replay, Lawful, Do, Can, CycleOk, BeforePipes;
    PrefixLawful(cfg, After(cfg, run).log, look);
    BootsGrow(After(cfg, run).log, look);
    BootsGrow(look, After(cfg, run.before).log);
    CycleRuns.CycleMarks(After(cfg, run.before), run.cycle);
  }
}
