/** A start-up: its exchange with the environment and the state it leaves, as functions of the answers. */
module StartExchange {
  import opened HsTypes
  import opened CriticalData
  import opened HsState
  import opened HsSteps
  import opened StepEffects
  import opened Exchange
  import opened CycleExchange
  import AppMonitor
  import CdsRuns
  import EventRuns
  import Utilization

  // ---------- The exchange ----------

  /** Only a stored record that is damaged or cannot be read is reported. */
  function CdsTalk(store: Cds, status: CdsStatus): seq<Op> {
    match status
    case AlreadyExists(true) => if Consistent(store) then [] else [Event(CDS_CORRUPT_ERR_EID)]
    case AlreadyExists(false) => [Event(CDS_RESTORE_ERR_EID)]
    case _ => []
  }

  /** Every table that does not load is reported; so is the end of the monitoring that needs it. */
  function LoadTalk(x: InitIn): seq<Op> {
    When(!x.xctLoad, [Event(XCT_LD_ERR_EID)])
    + When(!x.amtLoad, [Event(AMT_LD_ERR_EID), Event(DISABLE_APPMON_ERR_EID)])
    + When(!x.emtLoad, [Event(EMT_LD_ERR_EID), Event(DISABLE_EVENTMON_ERR_EID)])
    + When(!x.matLoad, [Event(MAT_LD_ERR_EID)])
  }

  /** The modes and load marks once the tables were loaded into cleared memory. */
  function ModesLoaded(cfg: Config, x: InitIn): Modes {
    Modes(cfg.appMonDefault && x.amtLoad, cfg.eventMonDefault && x.emtLoad, cfg.aliveDefault, cfg.hogDefault)
  }

  function LoadsLoaded(x: InitIn): Loads {
    Loads(x.amtLoad, x.emtLoad, x.matLoad, x.xctLoad)
  }

  function TablesTalk(cfg: Config, x: InitIn): seq<Op> {
    When(Registered(x.end), LoadTalk(x) + AcquireTalk(LoadsLoaded(x), ModesLoaded(cfg, x), x.acquire))
  }

  function SubscribeTalk(on: bool, x: InitIn): seq<Op> {
    When(x.end.Initialized? && on,
         BothTalk(Subscribe(LongFormat, x.longSub), Subscribe(ShortFormat, x.shortSub), x.longSub, x.shortSub,
                  SUB_LONG_EVS_ERR_EID, SUB_SHORT_EVS_ERR_EID))
  }

  /** The report at the end tells where initialization ended. */
  lemma EndReportTells(a: InitEnd, b: InitEnd)
    requires EndReport(a) == EndReport(b)
    ensures a == b
  {
  }

  lemma EndReportPlain(end: InitEnd)
    ensures EndReport(end) !in LIMITED && EndReport(end) !in MONITOR_EIDS
  {
  }

  lemma InitSays(s: State)
    requires WF(s)
    ensures Says(s, InitCds(s), [], false)
  {
    hide Do, Says;
    OpOwn(s, SetCds(Initialised, 0, s.cfg.maxRestarts), false);
  }

  lemma EmitInitSays(s: State, eid: uint16)
    requires WF(s) && eid !in LIMITED && eid !in MONITOR_EIDS
    ensures Says(s, InitCds(Emit(s, eid)), [Event(eid)], false)
  {
    hide Emit, InitCds, Says, WF, Acted, LIMITED, MONITOR_EIDS;
    EmitOwn(s, eid, false);
    InitSays(Emit(s, eid));
    SaysOn(s, Emit(s, eid), InitCds(Emit(s, eid)), [Event(eid)], [], false);
    assert [Event(eid)] + [] == [Event(eid)];
  }

  lemma CdsSays(s: State, status: CdsStatus)
    requires WF(s)
    ensures Says(s, CdsPhase(s, status), CdsTalk(s.rst.store, status), false)
  {
    hide Do, Emit, InitCds, Says, Acted, SameMarks, SameTables, HalfDisabled, Deeds, Consistent, WF;
    var none: seq<Op> := [];
    assert none + none == none;
    match status
    case AlreadyExists(true) =>
      var s1 := Do(s, RestoreCds);
      DoReset(s, RestoreCds);
      OpOwn(s, RestoreCds, false);
      EmitInitSays(s1, CDS_CORRUPT_ERR_EID);
      SaysOn(s, s1, InitCds(Emit(s1, CDS_CORRUPT_ERR_EID)), [], [Event(CDS_CORRUPT_ERR_EID)], false);
      assert none + [Event(CDS_CORRUPT_ERR_EID)] == [Event(CDS_CORRUPT_ERR_EID)];
    case AlreadyExists(false) =>
      EmitInitSays(s, CDS_RESTORE_ERR_EID);
    case Created =>
      InitSays(s);
    case Refused =>
      OpOwn(s, CdsOff, false);
      InitSays(Do(s, CdsOff));
      SaysOn(s, Do(s, CdsOff), InitCds(Do(s, CdsOff)), [], [], false);
  }

  /** A table that did not load: its report, and that of the monitoring it ends. */
  lemma UnloadedSays(s: State, t: Table, eid: uint16, ended: uint16)
    requires WF(s) && eid !in LIMITED && eid !in MONITOR_EIDS && ended !in LIMITED && ended !in MONITOR_EIDS
    ensures Says(s, Lost(s, t, eid), [Event(eid)], false)
    ensures Says(s, Emit(Lost(s, t, eid), ended), [Event(eid), Event(ended)], false)
  {
    hide Lost, Emit, Says, WF, Acted, Quiet, LIMITED, MONITOR_EIDS;
    LostSays(s, t, eid);
    EmitOwn(Lost(s, t, eid), ended, false);
    SaysOn(s, Lost(s, t, eid), Emit(Lost(s, t, eid), ended), [Event(eid)], [Event(ended)], false);
    assert [Event(eid)] + [Event(ended)] == [Event(eid), Event(ended)];
  }

  lemma LoadSays(s: State, x: InitIn)
    requires WF(s)
    ensures Says(s, LoadPhase(s, x), LoadTalk(x), false)
  {
    hide Lost, Emit, Says, WF, Acted, Quiet;
    SaysNothing(s);
    UnloadedSays(s, ExeCountTable, XCT_LD_ERR_EID, XCT_LD_ERR_EID);
    var s1 := if x.xctLoad then s else Lost(s, ExeCountTable, XCT_LD_ERR_EID);
    var p1 := When(!x.xctLoad, [Event(XCT_LD_ERR_EID)]);
    SaysNothing(s1);
    UnloadedSays(s1, AppMonTable, AMT_LD_ERR_EID, DISABLE_APPMON_ERR_EID);
    var s2 := if x.amtLoad then s1
              else Emit(Lost(s1, AppMonTable, AMT_LD_ERR_EID), DISABLE_APPMON_ERR_EID);
    var p2 := When(!x.amtLoad, [Event(AMT_LD_ERR_EID), Event(DISABLE_APPMON_ERR_EID)]);
    SaysOn(s, s1, s2, p1, p2, false);
    SaysNothing(s2);
    UnloadedSays(s2, EventMonTable, EMT_LD_ERR_EID, DISABLE_EVENTMON_ERR_EID);
    var s3 := if x.emtLoad then s2
              else Emit(Lost(s2, EventMonTable, EMT_LD_ERR_EID), DISABLE_EVENTMON_ERR_EID);
    var p3 := When(!x.emtLoad, [Event(EMT_LD_ERR_EID), Event(DISABLE_EVENTMON_ERR_EID)]);
    SaysOn(s, s2, s3, p1 + p2, p3, false);
    SaysNothing(s3);
    UnloadedSays(s3, MsgActsTable, MAT_LD_ERR_EID, MAT_LD_ERR_EID);
    SaysOn(s, s3, LoadPhase(s, x), p1 + p2 + p3, When(!x.matLoad, [Event(MAT_LD_ERR_EID)]), false);
  }

  // ---------- The state ----------

  /** Memory after a boot and the start-up check: nothing but the reset record and the log is not a default. */
  predicate Cleared(r: State, cfg: Config) {
    && r.cfg == cfg
    && r.app.amt == Copies(cfg.apps, NO_APP) && r.emt == Copies(cfg.events, NO_EVENT)
    && r.app.mon.countdown == Copies(cfg.apps, 0) && r.app.mon.last == Copies(cfg.apps, 0)
    && r.msg == MsgPart(Copies(cfg.msgActs, NO_MSG), Copies(cfg.msgActs, 0))
    && r.modes == Modes(cfg.appMonDefault, cfg.eventMonDefault, cfg.aliveDefault, cfg.hogDefault)
    && r.loads == Loads(true, true, true, true) && r.bus == Bus(false, false)
    && r.count == Counters(0, 0, 0, 0) && r.alive == 0 && r.cpu.cycle == 0 && r.rst.watchdog
  }

  lemma BootClears(s: State)
    requires WF(s)
    ensures Cleared(Do(s, Boot), s.cfg) && Do(s, Boot).rst.store == s.rst.store
  {
    hide AppMonitor.NoBits, Confined, SameMarks, SameTables, HalfDisabled, Deeds;
  }

  lemma CdsLeaves(s: State, status: CdsStatus)
    requires WF(s)
    ensures var r := CdsPhase(s, status); r == s.(rst := r.rst, log := r.log) && r.rst.watchdog == s.rst.watchdog
  {
    hide Do, Consistent, ResetEffect, WF, Confined, SameMarks, SameTables, HalfDisabled, Deeds, Acted;
    var op := SetCds(Initialised, 0, s.cfg.maxRestarts);
    match status
    case AlreadyExists(true) =>
      ResetOnly(s, RestoreCds);
      var s1 := Do(s, RestoreCds);
      EmitIs(s1, CDS_CORRUPT_ERR_EID);
      ResetOnly(Emit(s1, CDS_CORRUPT_ERR_EID), op);
      FlagStays(s, RestoreCds);
      FlagStays(Emit(s1, CDS_CORRUPT_ERR_EID), op);
    case AlreadyExists(false) =>
      EmitIs(s, CDS_RESTORE_ERR_EID);
      ResetOnly(Emit(s, CDS_RESTORE_ERR_EID), op);
      FlagStays(Emit(s, CDS_RESTORE_ERR_EID), op);
    case Created =>
      ResetOnly(s, op);
      FlagStays(s, op);
    case Refused =>
      ResetOnly(s, CdsOff);
      ResetOnly(Do(s, CdsOff), op);
      FlagStays(s, CdsOff);
      FlagStays(Do(s, CdsOff), op);
  }

  lemma FlagStays(s: State, op: Op)
    requires WF(s) && (op.RestoreCds? || op.SetCds? || op.CdsOff?)
    ensures ResetEffect(s, op).watchdog == s.rst.watchdog
  {
  }

  /** The state a start-up leaves, save the reset record. */
  predicate LeftBy(cfg: Config, r: State, x: InitIn) {
    && r.cfg == cfg && r.count == Counters(0, 0, 0, 0) && r.alive == 0 && r.cpu.cycle == 0 && r.rst.watchdog
    && r.modes == Modes(StartsWatching(cfg, x), EventRuns.StartsMonitoring(cfg, x), cfg.aliveDefault, cfg.hogDefault)
    && r.loads == (if Registered(x.end) then Loads(!x.acquire.amt.Failed?, !x.acquire.emt.Failed?,
                                                   !x.acquire.mat.Failed?, x.acquire.xctOk)
                   else Loads(true, true, true, true))
    && r.app.amt == (if Registered(x.end) && x.acquire.amt.Updated? then x.acquire.amt.table
                     else Copies(cfg.apps, NO_APP))
    && Rearmed(r.app.amt, r.app.mon)
    && r.emt == (if Registered(x.end) && x.acquire.emt.Updated? then x.acquire.emt.table
                 else Copies(cfg.events, NO_EVENT))
    && r.msg.mat == (if Registered(x.end) && x.acquire.mat.Updated? then x.acquire.mat.table
                     else Copies(cfg.msgActs, NO_MSG))
    && |r.msg.cooldown| == |r.msg.mat| && (forall m | 0 <= m < |r.msg.mat| :: r.msg.cooldown[m] == 0)
  }

  /** Application monitoring is configured on, and its table was not lost if it came to loading it. */
  predicate StartsWatching(cfg: Config, x: InitIn) {
    cfg.appMonDefault && (Registered(x.end) ==> x.amtLoad && !x.acquire.amt.Failed?)
  }

  lemma TablesLeft(s: State, x: InitIn)
    requires WF(s) && AcquireFits(s.cfg, x.acquire) && Cleared(s, s.cfg)
    ensures LeftBy(s.cfg, TablePhase(s, x), x) && Says(s, TablePhase(s, x), TablesTalk(s.cfg, x), false)
    ensures TablePhase(s, x).modes.eventMon == EventRuns.StartsMonitoring(s.cfg, x)
  {
    hide LoadPhase, Acquire, Says, LoadTalk, AcquireTalk, Quiet, Unplugged, WF;
    SaysNothing(s);
    if Registered(x.end) {
      LoadFollowsAnswers(s, x);
      LoadSays(s, x);
      var s1 := LoadPhase(s, x);
      AcquisitionFollowsAnswers(s1, x.acquire);
      AcquireSays(s1, x.acquire);
      SaysOn(s, s1, TablePhase(s, x), LoadTalk(x), AcquireTalk(LoadsLoaded(x), ModesLoaded(s.cfg, x), x.acquire),
             false);
    }
  }

  lemma SubscribedSays(s: State, x: InitIn)
    requires WF(s)
    ensures Says(s, Subscribed(s, x), SubscribeTalk(s.modes.eventMon, x), false)
    ensures Subscribed(s, x) == s.(bus := Subscribed(s, x).bus, log := Subscribed(s, x).log)
  {
    hide Do, Emit, Says, Acted, Quiet, BothTalk, WF;
    SaysNothing(s);
    SubscribeIs(s, x.longSub, x.shortSub, SUB_LONG_EVS_ERR_EID, SUB_SHORT_EVS_ERR_EID);
    BothSay(s, Subscribe(LongFormat, x.longSub), Subscribe(ShortFormat, x.shortSub), x.longSub, x.shortSub,
            SUB_LONG_EVS_ERR_EID, SUB_SHORT_EVS_ERR_EID);
  }

  /** The exchange of a start-up, in order, and the state it leaves, from any state and for all answers. */
  lemma StartUpFollowsAnswers(s: State, x: InitIn)
    requires WF(s) && AcquireFits(s.cfg, x.acquire)
    ensures var r := StartUp(s, x);
            && Says(s, r, [Boot] + CdsTalk(s.rst.store, x.cds) + TablesTalk(s.cfg, x) + [Event(EndReport(x.end))]
                          + SubscribeTalk(EventRuns.StartsMonitoring(s.cfg, x), x), false)
            && LeftBy(s.cfg, r, x)
  {
    hide Do, CdsPhase, TablePhase, Subscribed, Emit, Says, CdsTalk, TablesTalk, SubscribeTalk, EndReport, Cleared,
         LeftBy, EventRuns.StartsMonitoring, Acted, Quiet, SameMarks, WF;
    var s0 := Do(s, Boot);
    BootClears(s);
    OpOwn(s, Boot, false);
    var s1 := CdsPhase(s0, x.cds);
    CdsSays(s0, x.cds);
    CdsLeaves(s0, x.cds);
    StillCleared(s0, s1, s.cfg);
    var s2 := TablePhase(s1, x);
    TablesLeft(s1, x);
    var s3 := Emit(s2, EndReport(x.end));
    EndReportPlain(x.end);
    EmitOwn(s2, EndReport(x.end), false);
    EmitIs(s2, EndReport(x.end));
    SubscribedSays(s3, x);
    var p, q := CdsTalk(s.rst.store, x.cds), TablesTalk(s.cfg, x);
    SaysOn(s, s0, s1, [Boot], p, false);
    SaysOn(s, s1, s2, [Boot] + p, q, false);
    SaysOn(s, s2, s3, [Boot] + p + q, [Event(EndReport(x.end))], false);
    SaysOn(s, s3, StartUp(s, x), [Boot] + p + q + [Event(EndReport(x.end))],
           SubscribeTalk(EventRuns.StartsMonitoring(s.cfg, x), x), false);
    StillLeft(s.cfg, s2, StartUp(s, x), x);
  }

  lemma StillCleared(s: State, r: State, cfg: Config)
    requires Cleared(s, cfg) && r == s.(rst := r.rst, log := r.log) && r.rst.watchdog == s.rst.watchdog
    ensures Cleared(r, cfg)
  {
  }

  lemma StillLeft(cfg: Config, s: State, r: State, x: InitIn)
    requires LeftBy(cfg, s, x) && r == s.(bus := r.bus, log := r.log)
    ensures LeftBy(cfg, r, x)
  {
  }

  /** Cycles follow exactly if initialization was complete and event monitoring, if on, got both subscriptions, or
      else if it failed once the pipes were there. */
  lemma StartUpOkIff(s: State, x: InitIn)
    requires WF(s) && AcquireFits(s.cfg, x.acquire)
    ensures StartUpOk(s, x) <==>
              if x.end.Initialized? then EventRuns.StartsMonitoring(s.cfg, x) ==> x.longSub && x.shortSub
              else x.end.BusRefused? ==> x.end.call.HkSubscription? || x.end.call.CmdSubscription?
                                         || x.end.call.WakeupSubscription?
  {
    hide AppInit, EventRuns.StartsMonitoring;
    EventRuns.InitLink(s, x);
  }
}
