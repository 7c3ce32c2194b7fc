/** The functions of HS as compositions of primitive operations: what one call does to the state. */
module HsSteps {
  import opened HsTypes
  import opened CriticalData
  import opened HsState
  import AppMonitor
  import Utilization

  // ---------- What a step leaves alone ----------

  /** Nothing but the log, the reset record, the counters, the cooldowns and the countdowns may differ. */
  predicate Kept(s: State, r: State) {
    && r.cfg == s.cfg
    && r.app.amt == s.app.amt && r.emt == s.emt && r.msg.mat == s.msg.mat
    && r.modes == s.modes && r.loads == s.loads && r.bus == s.bus
    && r.cpu == s.cpu && r.alive == s.alive
    && SameMarks(s.log, r.log) && SameTables(s.log, r.log)
    && HalfDisabled(r.log) == HalfDisabled(s.log)
  }

  /** As `Kept`, and no event was handed to the event monitor or matched by it. */
  predicate Acted(s: State, r: State) {
    Kept(s, r) && Deeds(r.log) == Deeds(s.log)
  }

  /** The event subscriptions are as they were. */
  predicate Plugged(s: State, r: State) {
    r.bus == s.bus && HalfDisabled(r.log) == HalfDisabled(s.log)
  }

  /** No cycle work was done: commands, table acquisition and start-up. */
  predicate Quiet(s: State, r: State) {
    r.cfg == s.cfg && r.cpu == s.cpu && r.alive == s.alive && SameMarks(s.log, r.log)
  }

  // ---------- Actions shared by both monitors ----------

  function Emit(s: State, eid: uint16): (r: State)
    requires WF(s)
    ensures WF(r) && Acted(s, r)
    ensures r.rst == s.rst
  {
    hide WF, MarksOf, TableOk, Sampled, HalfDisabled, Deeds;
    Do(s, Event(eid))
  }

  /** The processor reset action; `eid` announces it. */
  function ProcReset(s: State, eid: uint16): (r: State)
    requires WF(s)
    ensures WF(r) && Acted(s, r)
  {
    hide WF, Do;
    hide MarksOf, TableOk, Sampled, HalfDisabled, Deeds;
    var s1 := Emit(s, eid);
    var c := s1.rst.cds;
    if c.resets < c.max then
      Do(Do(s1, SetCds(Counted, c.resets + 1, c.max)), ResetCfe)
    else
      Emit(s1, RESET_LIMIT_ERR_EID)
  }

  /** A message action; `eid` reports it unless the entry asks for silence. */
  function MsgAction(s: State, action: uint16, eid: uint16): (r: State)
    requires WF(s) && action > ACT_LAST_NONMSG
    ensures WF(r) && Acted(s, r)
  {
    hide Do;
    hide MarksOf, TableOk, Sampled, HalfDisabled, Deeds;
    var m := action - ACT_LAST_NONMSG - 1;
    if s.loads.msgActs && m < s.cfg.msgActs && s.msg.cooldown[m] == 0
       && s.msg.mat[m].enable != MAT_STATE_DISABLED then
      var s1 := Do(s, Transmit(m));
      if s.msg.mat[m].enable != MAT_STATE_NOEVENT then Emit(s1, eid) else s1
    else s
  }

  // ---------- Application monitor ----------

  function AppAction(s: State, e: AmtEntry, x: AppInput): (r: State)
    requires WF(s) && e.action != ACT_NOACT
    ensures WF(r) && Acted(s, r)
  {
    hide Do;
    hide MarksOf, TableOk, Sampled, HalfDisabled, Deeds;
    if e.action == ACT_PROC_RESET then ProcReset(s, APPMON_PROC_ERR_EID)
    else if e.action == ACT_APP_RESTART then
      var s1 := Emit(s, APPMON_RESTART_ERR_EID);
      var s2 := if x.sight.Seen? then Do(s1, RestartApp(e.name, x.restartOk)) else s1;
      if x.sight.Seen? && x.restartOk then s2 else Emit(s2, APPMON_NOT_RESTARTED_ERR_EID)
    else if e.action == AMT_ACT_EVENT then Emit(s, APPMON_FAIL_ERR_EID)
    else MsgAction(s, e.action, APPMON_MSGACTS_ERR_EID)
  }

  /** The report that a monitored name did not resolve: an error the first time, debug after that. */
  function NameReport(s: State, i: nat, x: AppInput): (r: State)
    requires WF(s) && i < s.cfg.apps
    ensures WF(r) && Acted(s, r) && r.app == s.app
  {
    hide MarksOf, TableOk, Sampled, HalfDisabled, Deeds;
    if !x.sight.Unresolved? then s
    else if s.app.mon.countdown[i] == s.app.amt[i].cycleCount then Emit(s, APPMON_APPNAME_ERR_EID)
    else Emit(s, APPMON_APPNAME_DBG_EID)
  }

  function AppEntry(s: State, i: nat, x: AppInput): (r: State)
    requires WF(s) && i < s.cfg.apps
    ensures WF(r) && Acted(s, r)
  {
    hide AppAction, AppMonitor.Expires, Utilization.Valid, ValidConfig,
         MarksOf, TableOk, Sampled, HalfDisabled, Deeds;
    var e := s.app.amt[i];
    if e.action == ACT_NOACT || s.app.mon.countdown[i] == 0 then s else
      var s1 := NameReport(s, i, x);
      var fired := AppMonitor.Expires(s1.app.mon, i, x.sight);
      var s2 := Do(s1, Saw(i, x.sight, fired));
      if fired then AppAction(s2, e, x) else s2
  }

  /** The first n table entries. */
  function MonitorApps(s: State, xs: seq<AppInput>, n: nat): (r: State)
    requires WF(s) && n <= |xs| == s.cfg.apps
    ensures WF(r) && Acted(s, r)
  {
    hide WF, AppEntry,
         MarksOf, TableOk, Sampled, HalfDisabled, Deeds;
    if n == 0 then s else AppEntry(MonitorApps(s, xs, n - 1), n - 1, xs[n - 1])
  }

  // ---------- Event monitor ----------

  /** Restart or delete the application that the entry names, if it is still there. */
  function ManageAction(s: State, x: EntryInput, eid: uint16, call: Op, failed: uint16): (r: State)
    requires WF(s) && (call.RestartApp? || call.DeleteApp?)
    ensures WF(r) && Acted(s, r)
  {
    hide WF, Do;
    hide Emit,
         MarksOf, TableOk, Sampled, HalfDisabled, Deeds;
    var s1 := if x.resolved then Do(Emit(s, eid), call) else s;
    if x.resolved && x.callOk then s1 else Emit(s1, failed)
  }

  function EventAction(s: State, e: EmtEntry, x: EntryInput): (r: State)
    requires WF(s) && e.action != ACT_NOACT
    ensures WF(r) && Acted(s, r)
  {
    hide WF, ProcReset, ManageAction, MsgAction,
         MarksOf, TableOk, Sampled, HalfDisabled, Deeds;
    if e.action == ACT_PROC_RESET then
      ProcReset(s, EVENTMON_PROC_ERR_EID)
    else if e.action == ACT_APP_RESTART then
      ManageAction(s, x, EVENTMON_RESTART_ERR_EID, RestartApp(e.name, x.callOk), EVENTMON_NOT_RESTARTED_ERR_EID)
    else if e.action == EMT_ACT_APP_DELETE then
      ManageAction(s, x, EVENTMON_DELETE_ERR_EID, DeleteApp(e.name, x.callOk), EVENTMON_NOT_DELETED_ERR_EID)
    else
      MsgAction(s, e.action, EVENTMON_MSGACTS_ERR_EID)
  }

  function EventEntry(s: State, i: nat, ev: EventMsg, x: EntryInput): (r: State)
    requires WF(s) && i < s.cfg.events
    ensures WF(r) && Kept(s, r)
  {
    hide EventAction,
         MarksOf, TableOk, Sampled, HalfDisabled, Deeds;
    if Matches(s.emt[i], ev) then EventAction(Do(s, Attempt(ev, i, x.resolved)), s.emt[i], x) else s
  }

  function MonitorEvent(s: State, ev: EventMsg, xs: seq<EntryInput>, n: nat): (r: State)
    requires WF(s) && n <= |xs| == s.cfg.events
    ensures WF(r) && Kept(s, r)
  {
    hide WF, EventEntry,
         MarksOf, TableOk, Sampled, HalfDisabled, Deeds;
    if n == 0 then s else EventEntry(MonitorEvent(s, ev, xs, n - 1), n - 1, ev, xs[n - 1])
  }

  predicate DeliveryFits(cfg: Config, d: EventDelivery) {
    d.GotEvent? ==> |d.inputs| == cfg.events
  }

  function OneEvent(s: State, d: EventDelivery): (r: State)
    requires WF(s) && DeliveryFits(s.cfg, d)
    ensures WF(r) && Kept(s, r)
  {
    hide WF, MonitorEvent,
         MarksOf, TableOk, Sampled, HalfDisabled, Deeds;
    match d
    case NullEvent => s
    case GotEvent(ev, xs) => MonitorEvent(Do(s, RunEventMon(ev)), ev, xs, s.cfg.events)
  }

  function DrainEvents(s: State, ds: seq<EventDelivery>, n: nat): (r: State)
    requires WF(s) && n <= |ds| && forall d | d in ds :: DeliveryFits(s.cfg, d)
    ensures WF(r) && Kept(s, r)
  {
    hide WF, OneEvent,
         MarksOf, TableOk, Sampled, HalfDisabled, Deeds;
    if n == 0 then s else OneEvent(DrainEvents(s, ds, n - 1), ds[n - 1])
  }

  // ---------- Utilization ----------

  function MonitorUtil(s: State, reading: int32): (r: State)
    requires WF(s)
    ensures WF(r) && r.cfg == s.cfg
  {
    var x := Utilization.Sample(reading, s.modes.cpuHog);
    var s1 := Do(s, TakeSample(x));
    if Utilization.Alarm(s.cfg, s.cpu.util.hogTime, x) then Do(s1, HogEvent) else s1
  }

  function UtilPhase(s: State, reading: int32): (r: State)
    requires WF(s)
    ensures WF(r) && r.cfg == s.cfg
  {
    Do(if s.cpu.cycle == 0 then MonitorUtil(s, reading) else s, UtilTick)
  }

  // ---------- Commands ----------

  /** Subscribe to both event formats, long first; stop at the first refusal. */
  function SubscribeBoth(s: State, long: bool, short: bool, longEid: uint16, shortEid: uint16): (r: State)
    requires WF(s)
    ensures WF(r) && Quiet(s, r)
    ensures r.rst == s.rst
    ensures r.modes == s.modes
  {
    hide WF, Do;
    hide Emit,
         MarksOf, TableOk, Sampled, HalfDisabled, Deeds;
    var s1 := Do(s, Subscribe(LongFormat, long));
    if !long then Emit(s1, longEid) else
      var s2 := Do(s1, Subscribe(ShortFormat, short));
      if short then s2 else Emit(s2, shortEid)
  }

  function UnsubscribeBoth(s: State, long: bool, short: bool): (r: State)
    requires WF(s)
    ensures WF(r) && Quiet(s, r)
    ensures r.modes == s.modes
  {
    hide WF, Do;
    hide Emit,
         MarksOf, TableOk, Sampled, HalfDisabled, Deeds;
    var s1 := Do(s, Unsubscribe(LongFormat, long));
    if !long then Emit(s1, EVENTMON_LONG_UNSUB_EID) else
      var s2 := Do(s1, Unsubscribe(ShortFormat, short));
      if short then s2 else Emit(s2, EVENTMON_SHORT_UNSUB_EID)
  }

  function Reject(s: State): (r: State)
    requires WF(s)
    ensures WF(r) && Quiet(s, r)
    ensures Plugged(s, r) && r.modes.eventMon == s.modes.eventMon
  {
    hide WF, Do;
    hide MarksOf, TableOk, Sampled, HalfDisabled, Deeds;
    Do(s, CmdRejected)
  }

  function EnableEventMon(s: State, long: bool, short: bool): (r: State)
    requires WF(s)
    ensures WF(r) && Quiet(s, r)
  {
    hide WF, SubscribeBoth, SwitchCmd, Reject,
         MarksOf, TableOk, Sampled, HalfDisabled, Deeds;
    if s.modes.eventMon then
      SwitchCmd(s, EventMonMode, true, ENABLE_EVENTMON_DBG_EID)
    else
      var s1 := SubscribeBoth(s, long, short, EVENTMON_LONG_SUB_EID, EVENTMON_SHORT_SUB_EID);
      if long && short then SwitchCmd(s1, EventMonMode, true, ENABLE_EVENTMON_DBG_EID) else Reject(s1)
  }

  function DisableEventMon(s: State, long: bool, short: bool): (r: State)
    requires WF(s)
    ensures WF(r) && Quiet(s, r)
  {
    hide WF, UnsubscribeBoth, SwitchCmd, Reject,
         MarksOf, TableOk, Sampled, HalfDisabled, Deeds;
    if !s.modes.eventMon then
      SwitchCmd(s, EventMonMode, false, DISABLE_EVENTMON_DBG_EID)
    else
      var s1 := UnsubscribeBoth(s, long, short);
      if long && short then SwitchCmd(s1, EventMonMode, false, DISABLE_EVENTMON_DBG_EID) else Reject(s1)
  }

  function CountCmd(s: State, op: Op, eid: uint16): (r: State)
    requires WF(s) && (op.CmdAccepted? || op.ClearCounters?)
    ensures WF(r) && Quiet(s, r)
    ensures Plugged(s, r) && r.modes.eventMon == s.modes.eventMon
  {
    hide WF, Do;
    hide MarksOf, TableOk, Sampled, HalfDisabled, Deeds;
    Emit(Do(s, op), eid)
  }

  function SwitchCmd(s: State, mode: Mode, on: bool, eid: uint16): (r: State)
    requires WF(s)
    ensures WF(r) && Quiet(s, r)
    ensures Plugged(s, r) && r.modes.eventMon == if mode.EventMonMode? then on else s.modes.eventMon
  {
    hide WF, MarksOf, TableOk, Sampled, HalfDisabled, Deeds;
    Emit(Do(Do(s, CmdAccepted), Switch(mode, on)), eid)
  }

  function EnableAppMon(s: State): (r: State)
    requires WF(s)
    ensures WF(r) && Quiet(s, r)
    ensures Plugged(s, r) && r.modes.eventMon == s.modes.eventMon
  {
    hide WF, MarksOf, TableOk, Sampled, HalfDisabled, Deeds;
    var s1 := Do(s, CmdAccepted);
    Emit(Do(Do(s1, RefreshAppMon(s1.app.amt)), Switch(AppMonMode, true)), ENABLE_APPMON_DBG_EID)
  }

  function SetCdsCmd(s: State, why: CdsReason, resets: uint16, max: uint16, eid: uint16): (r: State)
    requires WF(s)
    ensures WF(r) && Quiet(s, r)
    ensures Plugged(s, r) && r.modes.eventMon == s.modes.eventMon
  {
    hide WF, Do;
    hide MarksOf, TableOk, Sampled, HalfDisabled, Deeds;
    Emit(Do(Do(s, CmdAccepted), SetCds(why, resets, max)), eid)
  }

  /** A command whose code is known and whose length is right. */
  function Execute(s: State, d: CmdDelivery): (r: State)
    requires WF(s) && d.GotCmd? && d.msg.code <= CC_DISABLE_CPU_HOG
    ensures WF(r) && Quiet(s, r)
  {
    hide WF, Quiet, Plugged, CountCmd, EnableAppMon, SwitchCmd, EnableEventMon, DisableEventMon, SetCdsCmd,
         MarksOf, TableOk, Sampled, HalfDisabled, Deeds;
    var code := d.msg.code;
    if code == CC_NOOP then CountCmd(s, CmdAccepted, NOOP_INF_EID)
    else if code == CC_RESET then CountCmd(s, ClearCounters, RESET_INF_EID)
    else if code == CC_ENABLE_APP_MON then EnableAppMon(s)
    else if code == CC_DISABLE_APP_MON then SwitchCmd(s, AppMonMode, false, DISABLE_APPMON_DBG_EID)
    else if code == CC_ENABLE_EVENT_MON then EnableEventMon(s, d.long, d.short)
    else if code == CC_DISABLE_EVENT_MON then DisableEventMon(s, d.long, d.short)
    else if code == CC_ENABLE_ALIVENESS then SwitchCmd(s, AlivenessMode, true, ENABLE_ALIVENESS_DBG_EID)
    else if code == CC_DISABLE_ALIVENESS then SwitchCmd(s, AlivenessMode, false, DISABLE_ALIVENESS_DBG_EID)
    else if code == CC_RESET_RESETS_PERFORMED then
      SetCdsCmd(s, Cleared, 0, s.rst.cds.max, RESET_RESETS_DBG_EID)
    else if code == CC_SET_MAX_RESETS then
      SetCdsCmd(s, Limited, s.rst.cds.resets, d.msg.maxResets, SET_MAX_RESETS_DBG_EID)
    else if code == CC_ENABLE_CPU_HOG then SwitchCmd(s, CpuHogMode, true, ENABLE_CPUHOG_DBG_EID)
    else SwitchCmd(s, CpuHogMode, false, DISABLE_CPUHOG_DBG_EID)
  }

  function ExpectedLength(cfg: Config, code: uint16): nat {
    if code == CC_SET_MAX_RESETS then cfg.setMaxLength else cfg.cmdLength
  }

  function OneCmd(s: State, d: CmdDelivery): (r: State)
    requires WF(s)
    ensures WF(r) && Quiet(s, r)
  {
    hide WF, Emit, Execute, Reject,
         MarksOf, TableOk, Sampled, HalfDisabled, Deeds;
    if d.NullCmd? then s else
    match d.msg.kind
    case HkRequest =>
      if d.msg.length != s.cfg.hkLength then Emit(s, HKREQ_LEN_ERR_EID) else Do(s, SendHk)
    case Command =>
      if d.msg.code > CC_DISABLE_CPU_HOG then Reject(Emit(s, CC_ERR_EID))
      else if d.msg.length != ExpectedLength(s.cfg, d.msg.code) then Reject(Emit(s, CMD_LEN_ERR_EID))
      else Execute(s, d)
    case Unknown => Emit(Reject(s), MID_ERR_EID)
  }

  function DrainCmds(s: State, ds: seq<CmdDelivery>, n: nat): (r: State)
    requires WF(s) && n <= |ds|
    ensures WF(r) && Quiet(s, r)
  {
    hide WF, OneCmd,
         MarksOf, TableOk, Sampled, HalfDisabled, Deeds;
    if n == 0 then s else OneCmd(DrainCmds(s, ds, n - 1), ds[n - 1])
  }

  /** What the two polled pipes deliver in one cycle. */
  datatype Pipes = Pipes(events: seq<EventDelivery>, eventEnd: PipeEnd, cmds: seq<CmdDelivery>, cmdEnd: PipeEnd)

  predicate PipesFit(cfg: Config, p: Pipes) {
    forall d | d in p.events :: DeliveryFits(cfg, d)
  }

  function ProcessEvents(s: State, p: Pipes): (r: State)
    requires WF(s) && PipesFit(s.cfg, p)
    ensures WF(r) && Kept(s, r)
  {
    hide WF, MarksOf, TableOk, Sampled, HalfDisabled, Deeds;
    if s.modes.eventMon then DrainEvents(s, p.events, |p.events|) else s
  }

  /** The event pipe broke, so the commands of this cycle are not read. */
  predicate EventsBroke(s: State, p: Pipes) {
    s.modes.eventMon && p.eventEnd.Broken?
  }

  function ProcessCommands(s: State, p: Pipes): (r: State)
    requires WF(s) && PipesFit(s.cfg, p)
    ensures WF(r) && Quiet(s, r)
  {
    hide WF, ProcessEvents, DrainCmds,
         MarksOf, TableOk, Sampled, HalfDisabled, Deeds;
    var s1 := ProcessEvents(s, p);
    if EventsBroke(s, p) then s1 else DrainCmds(s1, p.cmds, |p.cmds|)
  }

  // ---------- Table acquisition ----------

  datatype AcquireIn = AcquireIn(
    amt: TableGet<AmtEntry>, emt: TableGet<EmtEntry>, longUnsub: bool, shortUnsub: bool,
    mat: TableGet<MatEntry>, xctOk: bool)

  predicate AcquireFits(cfg: Config, a: AcquireIn) {
    && (a.amt.Updated? ==> |a.amt.table| == cfg.apps)
    && (a.emt.Updated? ==> |a.emt.table| == cfg.events)
    && (a.mat.Updated? ==> |a.mat.table| == cfg.msgActs)
  }

  /** A table could not be had: report it and mark it, and the monitor that needs it, as off. */
  function Lost(s: State, table: Table, eid: uint16): (r: State)
    requires WF(s)
    ensures WF(r) && Quiet(s, r)
    ensures r.rst == s.rst
  {
    hide WF, Do;
    hide MarksOf, TableOk, Sampled, HalfDisabled, Deeds;
    Do(Emit(s, eid), Dropped(table))
  }

  lemma StaysQuiet(s: State, op: Op)
    requires WF(s) && Fits(s, op)
    requires op.GotTable? || op.Dropped? || op.Subscribe? || op.Unsubscribe? || op.Switch?
    ensures Quiet(s, Do(s, op)) && Do(s, op).rst == s.rst
  {
    hide Do, MarksOf, TableOk, Sampled, HalfDisabled, Deeds;
  }

  function NewAmt(s: State, table: seq<AmtEntry>): (r: State)
    requires WF(s) && |table| == s.cfg.apps
    ensures WF(r) && Quiet(s, r)
    ensures r.rst == s.rst
  {
    hide WF, Do, MarksOf, TableOk, Sampled, HalfDisabled, Deeds;
    Do(s, RefreshAppMon(table))
  }

  function NewEmt(s: State, table: seq<EmtEntry>): (r: State)
    requires WF(s) && |table| == s.cfg.events
    ensures WF(r) && Quiet(s, r)
    ensures r.rst == s.rst
  {
    hide WF, Do, MarksOf, TableOk, Sampled, HalfDisabled, Deeds;
    Do(s, LoadEmt(table))
  }

  function NewMat(s: State, table: seq<MatEntry>): (r: State)
    requires WF(s) && |table| == s.cfg.msgActs
    ensures WF(r) && Quiet(s, r)
    ensures r.rst == s.rst
  {
    hide WF, Do, MarksOf, TableOk, Sampled, HalfDisabled, Deeds;
    Do(s, RefreshMsgActs(table))
  }

  function AcquireAmt(s: State, g: TableGet<AmtEntry>): (r: State)
    requires WF(s) && (g.Updated? ==> |g.table| == s.cfg.apps)
    ensures WF(r) && Quiet(s, r)
    ensures r.rst == s.rst
  {
    hide WF, Do, Fits, NewAmt, Lost, Confined, SameTables, MarksOf, TableOk, Sampled, HalfDisabled, Deeds;
    StaysQuiet(s, GotTable(AppMonTable, !g.Failed?));
    var s1 := Do(s, GotTable(AppMonTable, !g.Failed?));
    if g.Updated? then NewAmt(s1, g.table)
    else if g.Failed? && (s.loads.appMon || s.modes.appMon) then
      Lost(s1, AppMonTable, APPMON_GETADDR_ERR_EID)
    else s1
  }

  function Unsub(s: State, f: Format, ok: bool, eid: uint16): (r: State)
    requires WF(s)
    ensures WF(r) && Quiet(s, r)
    ensures r.rst == s.rst
  {
    hide WF, Do;
    hide MarksOf, TableOk, Sampled, HalfDisabled, Deeds;
    var s1 := Do(s, Unsubscribe(f, ok));
    if ok then s1 else Emit(s1, eid)
  }

  /** The event table was lost: report, give up the subscriptions if monitoring was on, and disable. */
  function EmtLost(s: State, long: bool, short: bool): (r: State)
    requires WF(s)
    ensures WF(r) && Quiet(s, r)
    ensures r.rst == s.rst
  {
    hide WF, Do;
    hide Emit, Unsub,
         MarksOf, TableOk, Sampled, HalfDisabled, Deeds;
    var s1 := Emit(s, EVENTMON_GETADDR_ERR_EID);
    var s2 := if s.modes.eventMon
              then Unsub(Unsub(s1, LongFormat, long, BADEMT_LONG_UNSUB_EID),
                         ShortFormat, short, BADEMT_SHORT_UNSUB_EID)
              else s1;
    Do(s2, Dropped(EventMonTable))
  }

  function AcquireEmt(s: State, g: TableGet<EmtEntry>, long: bool, short: bool): (r: State)
    requires WF(s) && (g.Updated? ==> |g.table| == s.cfg.events)
    ensures WF(r) && Quiet(s, r)
    ensures r.rst == s.rst
  {
    hide WF, Do, Fits, NewEmt, EmtLost, Confined, SameTables, MarksOf, TableOk, Sampled, HalfDisabled, Deeds;
    StaysQuiet(s, GotTable(EventMonTable, !g.Failed?));
    var s1 := Do(s, GotTable(EventMonTable, !g.Failed?));
    if g.Updated? then NewEmt(s1, g.table)
    else if g.Failed? && (s.loads.eventMon || s.modes.eventMon) then EmtLost(s1, long, short)
    else s1
  }

  function AcquireMat(s: State, g: TableGet<MatEntry>): (r: State)
    requires WF(s) && (g.Updated? ==> |g.table| == s.cfg.msgActs)
    ensures WF(r) && Quiet(s, r)
    ensures r.rst == s.rst
  {
    hide WF, Do, Fits, NewMat, Lost, Confined, SameTables, MarksOf, TableOk, Sampled, HalfDisabled, Deeds;
    StaysQuiet(s, GotTable(MsgActsTable, !g.Failed?));
    var s1 := Do(s, GotTable(MsgActsTable, !g.Failed?));
    if g.Updated? then NewMat(s1, g.table)
    else if g.Failed? && s.loads.msgActs then Lost(s1, MsgActsTable, MSGACTS_GETADDR_ERR_EID)
    else s1
  }

  function AcquireXct(s: State, ok: bool): (r: State)
    requires WF(s)
    ensures WF(r) && Quiet(s, r)
    ensures r.rst == s.rst
  {
    hide WF, Do;
    hide Lost;
    hide MarksOf, TableOk, Sampled, HalfDisabled, Deeds;
    var s1 := Do(s, GotTable(ExeCountTable, ok));
    if !ok && s.loads.exeCount then Lost(s1, ExeCountTable, EXECOUNT_GETADDR_ERR_EID) else s1
  }

  function Acquire(s: State, a: AcquireIn): (r: State)
    requires WF(s) && AcquireFits(s.cfg, a)
    ensures WF(r) && Quiet(s, r)
    ensures r.rst == s.rst
  {
    hide WF, AcquireAmt, AcquireEmt, AcquireMat, AcquireXct,
         MarksOf, TableOk, Sampled, HalfDisabled, Deeds;
    AcquireXct(AcquireMat(AcquireEmt(AcquireAmt(s, a.amt), a.emt, a.longUnsub, a.shortUnsub), a.mat), a.xctOk)
  }

  // ---------- One cycle ----------

  datatype CycleIn = CycleIn(acquire: AcquireIn, reading: int32, apps: seq<AppInput>, pipes: Pipes)

  predicate CycleFits(cfg: Config, x: CycleIn) {
    AcquireFits(cfg, x.acquire) && |x.apps| == cfg.apps && PipesFit(cfg, x.pipes)
  }

  function AppPhase(s: State, xs: seq<AppInput>): (r: State)
    requires WF(s) && |xs| == s.cfg.apps
    ensures WF(r) && r.cfg == s.cfg
  {
    if s.modes.appMon then MonitorApps(Do(s, RunAppMon), xs, s.cfg.apps) else s
  }

  function AlivePhase(s: State): (r: State)
    requires WF(s)
    ensures WF(r) && r.cfg == s.cfg
  {
    if s.modes.aliveness then Do(s, AliveTick(s.alive + 1 >= s.cfg.alivePeriod)) else s
  }

  function WatchdogPhase(s: State): (r: State)
    requires WF(s)
    ensures WF(r) && r.cfg == s.cfg
  {
    if s.rst.watchdog then Do(s, Watchdog) else s
  }

  /** Tables, cooldowns and utilization. */
  function Prepare(s: State, x: CycleIn): (r: State)
    requires WF(s) && CycleFits(s.cfg, x)
    ensures WF(r) && r.cfg == s.cfg
  {
    hide WF, Acquire, UtilPhase;
    UtilPhase(Do(Acquire(Do(s, CycleStart), x.acquire), Tick), x.reading)
  }

  function BeforePipes(s: State, x: CycleIn): (r: State)
    requires WF(s) && CycleFits(s.cfg, x)
    ensures WF(r) && r.cfg == s.cfg
  {
    hide WF, Prepare, AppPhase, AlivePhase;
    AlivePhase(AppPhase(Prepare(s, x), x.apps))
  }

  function Cycle(s: State, x: CycleIn): (r: State)
    requires WF(s) && CycleFits(s.cfg, x)
    ensures WF(r) && r.cfg == s.cfg
  {
    hide WF, BeforePipes, ProcessCommands;
    WatchdogPhase(ProcessCommands(BeforePipes(s, x), x.pipes))
  }

  /** Whether the cycle returns success; if not, the main loop ends. */
  predicate CycleOk(s: State, x: CycleIn)
    requires WF(s) && CycleFits(s.cfg, x)
  {
    !EventsBroke(BeforePipes(s, x), x.pipes) && x.pipes.cmdEnd.NoMessage?
  }

  // ---------- Start-up ----------

  /** What registering the critical data store returned. */
  datatype CdsStatus = AlreadyExists(restoreOk: bool) | Created | Refused

  /** The calls that set up the software bus. */
  datatype BusCall = CmdPipe | EventPipe | WakeupPipe | HkSubscription | CmdSubscription | WakeupSubscription

  /** The call that made HS_AppInit return early, if any. */
  datatype InitEnd = Initialized | BusRefused(call: BusCall) | TableRefused(table: Table) | DeviceRefused

  datatype InitIn = InitIn(cds: CdsStatus, xctLoad: bool, amtLoad: bool, emtLoad: bool, matLoad: bool,
                           acquire: AcquireIn, end: InitEnd, longSub: bool, shortSub: bool)

  /** The event that ends initialization. */
  function EndReport(end: InitEnd): uint16 {
    match end
    case Initialized => INIT_INF_EID
    case BusRefused(CmdPipe) => CR_PIPE_ERR_EID
    case BusRefused(EventPipe) => CR_EVENT_PIPE_ERR_EID
    case BusRefused(WakeupPipe) => CR_WAKEUP_PIPE_ERR_EID
    case BusRefused(HkSubscription) => SUB_REQ_ERR_EID
    case BusRefused(CmdSubscription) => SUB_CMD_ERR_EID
    case BusRefused(WakeupSubscription) => SUB_WAKEUP_ERR_EID
    case TableRefused(AppMonTable) => AMT_REG_ERR_EID
    case TableRefused(EventMonTable) => EMT_REG_ERR_EID
    case TableRefused(MsgActsTable) => MAT_REG_ERR_EID
    case TableRefused(ExeCountTable) => XCT_REG_ERR_EID
    case DeviceRefused => SYSMON_INIT_ERR_EID
  }

  /** All four tables were registered. */
  predicate Registered(end: InitEnd) {
    end.Initialized? || end.DeviceRefused?
  }

  /** The pipe that the main loop waits on, the last of the three, was created. */
  predicate Piped(end: InitEnd) {
    end.BusRefused? ==> !end.call.CmdPipe? && !end.call.EventPipe? && !end.call.WakeupPipe?
  }

  function InitCds(s: State): (r: State)
    requires WF(s)
    ensures WF(r) && r.cfg == s.cfg && SameMarks(s.log, r.log)
  {
    Do(s, SetCds(Initialised, 0, s.cfg.maxRestarts))
  }

  function CdsPhase(s: State, status: CdsStatus): (r: State)
    requires WF(s)
    ensures WF(r) && r.cfg == s.cfg && SameMarks(s.log, r.log)
  {
    match status
    case AlreadyExists(true) =>
      var s1 := Do(s, RestoreCds);
      if Consistent(s1.rst.cds) then s1 else InitCds(Emit(s1, CDS_CORRUPT_ERR_EID))
    case AlreadyExists(false) => InitCds(Emit(s, CDS_RESTORE_ERR_EID))
    case Created => InitCds(s)
    case Refused => InitCds(Do(s, CdsOff))
  }

  function LoadPhase(s: State, x: InitIn): (r: State)
    requires WF(s)
    ensures WF(r) && r.cfg == s.cfg && SameMarks(s.log, r.log)
    ensures r.rst == s.rst
  {
    hide WF, Lost, Emit;
    var s1 := if x.xctLoad then s else Lost(s, ExeCountTable, XCT_LD_ERR_EID);
    var s2 := if x.amtLoad then s1
              else Emit(Lost(s1, AppMonTable, AMT_LD_ERR_EID), DISABLE_APPMON_ERR_EID);
    var s3 := if x.emtLoad then s2
              else Emit(Lost(s2, EventMonTable, EMT_LD_ERR_EID), DISABLE_EVENTMON_ERR_EID);
    if x.matLoad then s3 else Lost(s3, MsgActsTable, MAT_LD_ERR_EID)
  }

  /** The tables are loaded and acquired once all are registered. */
  function TablePhase(s: State, x: InitIn): (r: State)
    requires WF(s) && AcquireFits(s.cfg, x.acquire)
    ensures WF(r) && r.cfg == s.cfg && SameMarks(s.log, r.log)
    ensures r.rst == s.rst
  {
    hide WF, LoadPhase, Acquire;
    if Registered(x.end) then Acquire(LoadPhase(s, x), x.acquire) else s
  }

  /** Initialization once memory has been cleared. */
  function FromBoot(s: State, x: InitIn): (r: State)
    requires WF(s) && AcquireFits(s.cfg, x.acquire)
    ensures WF(r) && r.cfg == s.cfg && SameMarks(s.log, r.log)
  {
    hide WF, CdsPhase, TablePhase, Emit;
    Emit(TablePhase(CdsPhase(s, x.cds), x), EndReport(x.end))
  }

  function AppInit(s: State, x: InitIn): (r: State)
    requires WF(s) && AcquireFits(s.cfg, x.acquire)
    ensures WF(r) && r.cfg == s.cfg
  {
    FromBoot(Do(s, Boot), x)
  }

  function SubscribePhase(s: State, long: bool, short: bool): (r: State)
    requires WF(s)
    ensures WF(r) && Quiet(s, r)
    ensures r.rst == s.rst
  {
    hide WF, SubscribeBoth,
         MarksOf, TableOk, Sampled, HalfDisabled, Deeds;
    if s.modes.eventMon then SubscribeBoth(s, long, short, SUB_LONG_EVS_ERR_EID, SUB_SHORT_EVS_ERR_EID) else s
  }

  /** Events are subscribed only after a complete initialization. */
  function Subscribed(s: State, x: InitIn): (r: State)
    requires WF(s)
    ensures WF(r) && Quiet(s, r)
    ensures r.rst == s.rst
  {
    hide WF, SubscribePhase;
    if x.end.Initialized? then SubscribePhase(s, x.longSub, x.shortSub) else s
  }

  predicate LoopRuns(s: State, x: InitIn) {
    if x.end.Initialized? then s.modes.eventMon ==> x.longSub && x.shortSub else Piped(x.end)
  }

  function StartUp(s: State, x: InitIn): (r: State)
    requires WF(s) && AcquireFits(s.cfg, x.acquire)
    ensures WF(r) && r.cfg == s.cfg
  {
    Subscribed(AppInit(s, x), x)
  }

  /** Whether the main loop runs cycles. It is entered also after a failed initialization, but without its pipe
      the first receive fails and ends it. */
  predicate StartUpOk(s: State, x: InitIn)
    requires WF(s) && AcquireFits(s.cfg, x.acquire)
  {
    LoopRuns(AppInit(s, x), x)
  }
}
