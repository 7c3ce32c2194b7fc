/** What table acquisition, a command and a start-up do to the state, as functions of what the environment answers. */
module StepEffects {
  import opened HsTypes
  import opened CriticalData
  import opened HsState
  import opened HsSteps
  import opened CommandRuns
  import AppMonitor

  /** Every entry with an action and a cycle count is armed in full, no execution count is remembered. */
  predicate Rearmed(amt: seq<AmtEntry>, mon: AppMonitor.AppMon) {
    && |mon.countdown| == |mon.last| == |amt|
    && (forall i | 0 <= i < |amt| ::
          mon.countdown[i] == if amt[i].cycleCount != 0 && amt[i].action != ACT_NOACT then amt[i].cycleCount else 0)
    && forall i | 0 <= i < |amt| :: mon.last[i] == 0
  }

  lemma RefreshRearms(amt: seq<AmtEntry>)
    requires |amt| >= 1
    ensures Rearmed(amt, AppMonitor.Refreshed(amt))
  {
  }

  lemma EmitIs(s: State, eid: uint16)
    requires WF(s)
    ensures Emit(s, eid) == s.(log := Then(s.log, Event(eid)))
  {
    hide Do;
    LogOnly(s, Event(eid));
  }

  // ---------- Table acquisition ----------

  /** The application table after it was asked for: new contents arm the monitor, a failure switches it off. */
  predicate AmtAnswered(s: State, r: State, g: TableGet<AmtEntry>) {
    && r == s.(app := r.app, modes := s.modes.(appMon := s.modes.appMon && !g.Failed?),
               loads := s.loads.(appMon := !g.Failed?), log := r.log)
    && if g.Updated? then r.app.amt == g.table && Rearmed(g.table, r.app.mon) else r.app == s.app
  }

  lemma GotIs(s: State, t: Table, ok: bool)
    requires WF(s)
    ensures Do(s, GotTable(t, ok)) == s.(loads := if ok then Marked(s.loads, t, true) else s.loads,
                                         log := Then(s.log, GotTable(t, ok)))
  {
    hide Do, Marked;
    LoadsAndModes(s, GotTable(t, ok));
  }

  lemma LostIs(s: State, t: Table, eid: uint16)
    requires WF(s)
    ensures var r := Lost(s, t, eid);
            r == s.(loads := Marked(s.loads, t, false), modes := Stopped(s.modes, t), log := r.log)
  {
    hide Do, Emit, Marked, Stopped, Quiet, Acted;
    EmitIs(s, eid);
    DropOnly(Emit(s, eid), t);
  }

  lemma AmtEffectOf(s: State, g: TableGet<AmtEntry>)
    requires WF(s) && (g.Updated? ==> |g.table| == s.cfg.apps)
    ensures AmtAnswered(s, AcquireAmt(s, g), g)
  {
    hide Do, Lost, Quiet, Confined, SameMarks, SameTables, HalfDisabled, Deeds, AppMonitor.Refreshed, Rearmed;
    var s1 := Do(s, GotTable(AppMonTable, !g.Failed?));
    GotIs(s, AppMonTable, !g.Failed?);
    LostIs(s1, AppMonTable, APPMON_GETADDR_ERR_EID);
    if g.Updated? {
      AppOnly(s1, RefreshAppMon(g.table));
      RefreshRearms(g.table);
    }
  }

  /** The subscriptions after both were given up with these answers. */
  function Unplugged(b: Bus, long: bool, short: bool): Bus {
    Bus(b.long && !long, b.short && !short)
  }

  /** The event table: a failure ends event monitoring, and its subscriptions if it was on. */
  predicate EmtAnswered(s: State, r: State, g: TableGet<EmtEntry>, long: bool, short: bool) {
    r == s.(emt := if g.Updated? then g.table else s.emt,
            modes := s.modes.(eventMon := s.modes.eventMon && !g.Failed?),
            loads := s.loads.(eventMon := !g.Failed?),
            bus := if g.Failed? && s.modes.eventMon then Unplugged(s.bus, long, short) else s.bus,
            log := r.log)
  }

  lemma UnsubIs(s: State, f: Format, ok: bool, eid: uint16)
    requires WF(s)
    ensures var r := Unsub(s, f, ok, eid); r == s.(bus := BusEffect(s.bus, Unsubscribe(f, ok)), log := r.log)
  {
    hide Do, Emit, BusEffect, Quiet, Acted;
    BusOnly(s, Unsubscribe(f, ok));
    EmitIs(Do(s, Unsubscribe(f, ok)), eid);
  }

  lemma EmtLostIs(s: State, long: bool, short: bool)
    requires WF(s)
    ensures var r := EmtLost(s, long, short);
            r == s.(modes := s.modes.(eventMon := false), loads := s.loads.(eventMon := false),
                    bus := if s.modes.eventMon then Unplugged(s.bus, long, short) else s.bus, log := r.log)
  {
    hide Do, Emit, Unsub, Quiet, Acted, WF;
    var s1 := Emit(s, EVENTMON_GETADDR_ERR_EID);
    EmitIs(s, EVENTMON_GETADDR_ERR_EID);
    UnsubIs(s1, LongFormat, long, BADEMT_LONG_UNSUB_EID);
    var s2 := Unsub(s1, LongFormat, long, BADEMT_LONG_UNSUB_EID);
    UnsubIs(s2, ShortFormat, short, BADEMT_SHORT_UNSUB_EID);
    var s3 := if s.modes.eventMon then Unsub(s2, ShortFormat, short, BADEMT_SHORT_UNSUB_EID) else s1;
    DropOnly(s3, EventMonTable);
  }

  lemma EmtEffectOf(s: State, g: TableGet<EmtEntry>, long: bool, short: bool)
    requires WF(s) && (g.Updated? ==> |g.table| == s.cfg.events)
    ensures EmtAnswered(s, AcquireEmt(s, g, long, short), g, long, short)
  {
    hide Do, EmtLost, Quiet, Confined, SameMarks, SameTables, HalfDisabled, Deeds, Unplugged;
    var s1 := Do(s, GotTable(EventMonTable, !g.Failed?));
    GotIs(s, EventMonTable, !g.Failed?);
    EmtLostIs(s1, long, short);
    if g.Updated? {
      EmtOnly(s1, LoadEmt(g.table));
    }
  }

  /** The message table: new contents clear every cooldown. */
  predicate MatAnswered(s: State, r: State, g: TableGet<MatEntry>) {
    && r == s.(msg := r.msg, loads := s.loads.(msgActs := !g.Failed?), log := r.log)
    && if g.Updated? then r.msg.mat == g.table && |r.msg.cooldown| == |g.table|
                          && forall m | 0 <= m < |g.table| :: r.msg.cooldown[m] == 0
       else r.msg == s.msg
  }

  lemma MatEffectOf(s: State, g: TableGet<MatEntry>)
    requires WF(s) && (g.Updated? ==> |g.table| == s.cfg.msgActs)
    ensures MatAnswered(s, AcquireMat(s, g), g)
  {
    hide Do, Lost, Quiet, Confined, SameMarks, SameTables, HalfDisabled, Deeds;
    var s1 := Do(s, GotTable(MsgActsTable, !g.Failed?));
    GotIs(s, MsgActsTable, !g.Failed?);
    LostIs(s1, MsgActsTable, MSGACTS_GETADDR_ERR_EID);
    if g.Updated? {
      MsgOnly(s1, RefreshMsgActs(g.table));
    }
  }

  lemma XctEffectOf(s: State, ok: bool)
    requires WF(s)
    ensures var r := AcquireXct(s, ok); r == s.(loads := s.loads.(exeCount := ok), log := r.log)
  {
    hide Do, Lost, Quiet, Confined, SameMarks, SameTables, HalfDisabled, Deeds;
    var s1 := Do(s, GotTable(ExeCountTable, ok));
    GotIs(s, ExeCountTable, ok);
    LostIs(s1, ExeCountTable, EXECOUNT_GETADDR_ERR_EID);
  }

  /** All four, from any state and for all answers: a table that could not be had is marked so and its monitor is
      off; one that could be had is marked so and its monitor stays as it was; new contents are installed. */
  predicate Answered(s: State, r: State, a: AcquireIn) {
    && r == s.(app := r.app, emt := if a.emt.Updated? then a.emt.table else s.emt, msg := r.msg,
               modes := s.modes.(appMon := s.modes.appMon && !a.amt.Failed?,
                                 eventMon := s.modes.eventMon && !a.emt.Failed?),
               loads := Loads(!a.amt.Failed?, !a.emt.Failed?, !a.mat.Failed?, a.xctOk),
               bus := if a.emt.Failed? && s.modes.eventMon then Unplugged(s.bus, a.longUnsub, a.shortUnsub) else s.bus,
               log := r.log)
    && (if a.amt.Updated? then r.app.amt == a.amt.table && Rearmed(a.amt.table, r.app.mon) else r.app == s.app)
    && (if a.mat.Updated? then r.msg.mat == a.mat.table && |r.msg.cooldown| == |a.mat.table|
                               && forall m | 0 <= m < |a.mat.table| :: r.msg.cooldown[m] == 0
        else r.msg == s.msg)
  }

  lemma AllAnswered(s: State, s1: State, s2: State, s3: State, r: State, a: AcquireIn)
    requires AmtAnswered(s, s1, a.amt) && EmtAnswered(s1, s2, a.emt, a.longUnsub, a.shortUnsub)
    requires MatAnswered(s2, s3, a.mat) && r == s3.(loads := s3.loads.(exeCount := a.xctOk), log := r.log)
    ensures Answered(s, r, a)
  {
    hide Rearmed, Unplugged;
  }

  lemma AcquisitionFollowsAnswers(s: State, a: AcquireIn)
    requires WF(s) && AcquireFits(s.cfg, a)
    ensures Answered(s, Acquire(s, a), a)
  {
    hide AcquireAmt, AcquireEmt, AcquireMat, AcquireXct, WF, AmtAnswered, EmtAnswered, MatAnswered, Answered,
         SameMarks;
    var s1 := AcquireAmt(s, a.amt);
    AmtEffectOf(s, a.amt);
    EmtEffectOf(s1, a.emt, a.longUnsub, a.shortUnsub);
    var s2 := AcquireEmt(s1, a.emt, a.longUnsub, a.shortUnsub);
    MatEffectOf(s2, a.mat);
    var s3 := AcquireMat(s2, a.mat);
    XctEffectOf(s3, a.xctOk);
    AllAnswered(s, s1, s2, s3, Acquire(s, a), a);
  }

  // ---------- Commands ----------

  /** The modes after this well-formed command; those of event monitoring need both answers of the software bus. */
  function ModesAfter(m: Modes, d: CmdDelivery): Modes
    requires d.GotCmd?
  {
    var code := d.msg.code;
    if code == CC_ENABLE_APP_MON then m.(appMon := true)
    else if code == CC_DISABLE_APP_MON then m.(appMon := false)
    else if code == CC_ENABLE_EVENT_MON then m.(eventMon := m.eventMon || (d.long && d.short))
    else if code == CC_DISABLE_EVENT_MON then m.(eventMon := m.eventMon && !(d.long && d.short))
    else if code == CC_ENABLE_ALIVENESS then m.(aliveness := true)
    else if code == CC_DISABLE_ALIVENESS then m.(aliveness := false)
    else if code == CC_ENABLE_CPU_HOG then m.(cpuHog := true)
    else if code == CC_DISABLE_CPU_HOG then m.(cpuHog := false)
    else m
  }

  /** The subscriptions: the short format is only asked for, or given up, once the long one went through. */
  function BusAfter(b: Bus, on: bool, d: CmdDelivery): Bus
    requires d.GotCmd?
  {
    if d.msg.code == CC_ENABLE_EVENT_MON && !on then Bus(b.long || d.long, b.short || (d.long && d.short))
    else if d.msg.code == CC_DISABLE_EVENT_MON && on then Bus(b.long && !d.long, b.short && !(d.long && d.short))
    else b
  }

  /** The reset record in memory, and in the store while that is in use. */
  function RecordAfter(p: ResetPart, d: CmdDelivery): ResetPart
    requires d.GotCmd?
  {
    if d.msg.code == CC_RESET_RESETS_PERFORMED then
      var c := Sealed(0, p.cds.max);
      p.(cds := c, store := if p.cdsInUse then c else p.store)
    else if d.msg.code == CC_SET_MAX_RESETS then
      var c := Sealed(p.cds.resets, d.msg.maxResets);
      p.(cds := c, store := if p.cdsInUse then c else p.store)
    else p
  }

  /** The state after this command, save the counters, which have a statement of their own, and the log. */
  predicate Obeyed(s: State, r: State, d: CmdDelivery)
    requires d.GotCmd?
  {
    && r == s.(app := r.app, modes := ModesAfter(s.modes, d), bus := BusAfter(s.bus, s.modes.eventMon, d),
               rst := RecordAfter(s.rst, d), count := r.count, log := r.log)
    && if d.msg.code == CC_ENABLE_APP_MON then r.app.amt == s.app.amt && Rearmed(s.app.amt, r.app.mon)
       else r.app == s.app
  }

  lemma CountIs(s: State, op: Op, eid: uint16)
    requires WF(s) && (op.CmdAccepted? || op.ClearCounters?)
    ensures var r := CountCmd(s, op, eid); r == s.(count := r.count, log := r.log)
  {
    hide Do, Emit, Quiet, Acted, CountEffect;
    CountOnly(s, op);
    EmitIs(Do(s, op), eid);
  }

  lemma SwitchIs(s: State, mode: Mode, on: bool, eid: uint16)
    requires WF(s)
    ensures var r := SwitchCmd(s, mode, on, eid);
            r == s.(modes := Switched(s.modes, mode, on), count := r.count, log := r.log)
  {
    hide Do, Emit, Quiet, Acted, CountEffect, Switched, WF;
    var s1 := Do(s, CmdAccepted);
    CountOnly(s, CmdAccepted);
    ModesOnly(s1, Switch(mode, on));
    EmitIs(Do(s1, Switch(mode, on)), eid);
  }

  lemma RejectIs(s: State)
    requires WF(s)
    ensures Reject(s) == s.(count := Reject(s).count, log := Reject(s).log)
  {
    hide Do, Quiet, CountEffect;
    CountOnly(s, CmdRejected);
  }

  lemma SetCdsIs(s: State, why: CdsReason, resets: uint16, max: uint16, eid: uint16)
    requires WF(s)
    ensures var r, c := SetCdsCmd(s, why, resets, max, eid), Sealed(resets, max);
            r == s.(rst := s.rst.(cds := c, store := if s.rst.cdsInUse then c else s.rst.store),
                    count := r.count, log := r.log)
  {
    hide Do, Emit, Quiet, Acted, CountEffect, WF, Sealed;
    var s1 := Do(s, CmdAccepted);
    CountOnly(s, CmdAccepted);
    ResetOnly(s1, SetCds(why, resets, max));
    EmitIs(Do(s1, SetCds(why, resets, max)), eid);
  }

  lemma EnableAppIs(s: State)
    requires WF(s)
    ensures var r := EnableAppMon(s);
            && r == s.(app := r.app, modes := s.modes.(appMon := true), count := r.count, log := r.log)
            && r.app.amt == s.app.amt && Rearmed(s.app.amt, r.app.mon)
  {
    hide Do, Emit, Quiet, Acted, CountEffect, AppMonitor.Refreshed, Rearmed, Confined, SameMarks, SameTables,
         HalfDisabled, Deeds;
    var s1 := Do(s, CmdAccepted);
    CountOnly(s, CmdAccepted);
    var s2 := Do(s1, RefreshAppMon(s1.app.amt));
    AppOnly(s1, RefreshAppMon(s1.app.amt));
    RefreshRearms(s1.app.amt);
    ModesOnly(s2, Switch(AppMonMode, true));
    EmitIs(Do(s2, Switch(AppMonMode, true)), ENABLE_APPMON_DBG_EID);
  }

  lemma SubscribeIs(s: State, long: bool, short: bool, longEid: uint16, shortEid: uint16)
    requires WF(s)
    ensures var r := SubscribeBoth(s, long, short, longEid, shortEid);
            r == s.(bus := Bus(s.bus.long || long, s.bus.short || (long && short)), log := r.log)
  {
    hide Do, Emit, Quiet, Acted, WF;
    var s1 := Do(s, Subscribe(LongFormat, long));
    BusOnly(s, Subscribe(LongFormat, long));
    EmitIs(s1, longEid);
    BusOnly(s1, Subscribe(ShortFormat, short));
    EmitIs(Do(s1, Subscribe(ShortFormat, short)), shortEid);
  }

  lemma UnsubscribeIs(s: State, long: bool, short: bool)
    requires WF(s)
    ensures var r := UnsubscribeBoth(s, long, short);
            r == s.(bus := Bus(s.bus.long && !long, s.bus.short && !(long && short)), log := r.log)
  {
    hide Do, Emit, Quiet, Acted, WF;
    var s1 := Do(s, Unsubscribe(LongFormat, long));
    BusOnly(s, Unsubscribe(LongFormat, long));
    EmitIs(s1, EVENTMON_LONG_UNSUB_EID);
    BusOnly(s1, Unsubscribe(ShortFormat, short));
    EmitIs(Do(s1, Unsubscribe(ShortFormat, short)), EVENTMON_SHORT_UNSUB_EID);
  }

  lemma EventMonIs(s: State, d: CmdDelivery)
    requires WF(s) && d.GotCmd?
    ensures d.msg.code == CC_ENABLE_EVENT_MON ==> Obeyed(s, EnableEventMon(s, d.long, d.short), d)
    ensures d.msg.code == CC_DISABLE_EVENT_MON ==> Obeyed(s, DisableEventMon(s, d.long, d.short), d)
  {
    hide SwitchCmd, SubscribeBoth, UnsubscribeBoth, Reject, Quiet, Plugged, WF;
    SwitchIs(s, EventMonMode, true, ENABLE_EVENTMON_DBG_EID);
    SwitchIs(s, EventMonMode, false, DISABLE_EVENTMON_DBG_EID);
    SubscribeIs(s, d.long, d.short, EVENTMON_LONG_SUB_EID, EVENTMON_SHORT_SUB_EID);
    UnsubscribeIs(s, d.long, d.short);
    var s1 := SubscribeBoth(s, d.long, d.short, EVENTMON_LONG_SUB_EID, EVENTMON_SHORT_SUB_EID);
    SwitchIs(s1, EventMonMode, true, ENABLE_EVENTMON_DBG_EID);
    RejectIs(s1);
    var s2 := UnsubscribeBoth(s, d.long, d.short);
    SwitchIs(s2, EventMonMode, false, DISABLE_EVENTMON_DBG_EID);
    RejectIs(s2);
  }

  lemma ExecuteObeys(s: State, d: CmdDelivery)
    requires WF(s) && d.GotCmd? && d.msg.code <= CC_DISABLE_CPU_HOG
    ensures Obeyed(s, Execute(s, d), d)
  {
    hide CountCmd, SwitchCmd, SetCdsCmd, EnableAppMon, EnableEventMon, DisableEventMon, Quiet, Plugged, WF, Rearmed,
         Sealed;
    var code := d.msg.code;
    if code == CC_NOOP {
      CountIs(s, CmdAccepted, NOOP_INF_EID);
    } else if code == CC_RESET {
      CountIs(s, ClearCounters, RESET_INF_EID);
    } else if code == CC_ENABLE_APP_MON {
      EnableAppIs(s);
    } else if code == CC_DISABLE_APP_MON {
      SwitchIs(s, AppMonMode, false, DISABLE_APPMON_DBG_EID);
    } else if code == CC_ENABLE_EVENT_MON || code == CC_DISABLE_EVENT_MON {
      EventMonIs(s, d);
    } else if code == CC_ENABLE_ALIVENESS {
      SwitchIs(s, AlivenessMode, true, ENABLE_ALIVENESS_DBG_EID);
    } else if code == CC_DISABLE_ALIVENESS {
      SwitchIs(s, AlivenessMode, false, DISABLE_ALIVENESS_DBG_EID);
    } else if code == CC_RESET_RESETS_PERFORMED {
      SetCdsIs(s, Cleared, 0, s.rst.cds.max, RESET_RESETS_DBG_EID);
    } else if code == CC_SET_MAX_RESETS {
      SetCdsIs(s, Limited, s.rst.cds.resets, d.msg.maxResets, SET_MAX_RESETS_DBG_EID);
    } else if code == CC_ENABLE_CPU_HOG {
      SwitchIs(s, CpuHogMode, true, ENABLE_CPUHOG_DBG_EID);
    } else {
      SwitchIs(s, CpuHogMode, false, DISABLE_CPUHOG_DBG_EID);
    }
  }

  /** Whatever is received on the command pipe: a well-formed command does what its code says, and nothing else
      changes; anything else changes at most the counters and the log. */
  lemma CommandsDoWhatTheySay(s: State, d: CmdDelivery)
    requires WF(s)
    ensures var r := OneCmd(s, d);
            if d.GotCmd? && d.msg.kind.Command? && !Malformed(s.cfg, d.msg) then Obeyed(s, r, d)
            else r == s.(count := r.count, log := r.log)
  {
    hide Execute, Emit, Reject, Quiet, Acted, Obeyed, WF, Do;
    EmitIs(s, HKREQ_LEN_ERR_EID);
    LogOnly(s, SendHk);
    EmitIs(s, CC_ERR_EID);
    EmitIs(s, CMD_LEN_ERR_EID);
    RejectIs(Emit(s, CC_ERR_EID));
    RejectIs(Emit(s, CMD_LEN_ERR_EID));
    RejectIs(s);
    EmitIs(Reject(s), MID_ERR_EID);
    if d.GotCmd? && d.msg.code <= CC_DISABLE_CPU_HOG {
      ExecuteObeys(s, d);
    }
  }

  // ---------- Start-up ----------

  /** The tables that load; a failed load marks its table and switches its monitor off. */
  lemma LoadFollowsAnswers(s: State, x: InitIn)
    requires WF(s)
    ensures var r := LoadPhase(s, x);
            r == s.(modes := s.modes.(appMon := s.modes.appMon && x.amtLoad, eventMon := s.modes.eventMon && x.emtLoad),
                    loads := Loads(s.loads.appMon && x.amtLoad, s.loads.eventMon && x.emtLoad,
                                   s.loads.msgActs && x.matLoad, s.loads.exeCount && x.xctLoad), log := r.log)
  {
    hide WF, Lost, Emit, Quiet, Acted;
    LostIs(s, ExeCountTable, XCT_LD_ERR_EID);
    var s1 := if x.xctLoad then s else Lost(s, ExeCountTable, XCT_LD_ERR_EID);
    LostIs(s1, AppMonTable, AMT_LD_ERR_EID);
    EmitIs(Lost(s1, AppMonTable, AMT_LD_ERR_EID), DISABLE_APPMON_ERR_EID);
    var s2 := if x.amtLoad then s1
              else Emit(Lost(s1, AppMonTable, AMT_LD_ERR_EID), DISABLE_APPMON_ERR_EID);
    LostIs(s2, EventMonTable, EMT_LD_ERR_EID);
    EmitIs(Lost(s2, EventMonTable, EMT_LD_ERR_EID), DISABLE_EVENTMON_ERR_EID);
    var s3 := if x.emtLoad then s2
              else Emit(Lost(s2, EventMonTable, EMT_LD_ERR_EID), DISABLE_EVENTMON_ERR_EID);
    LostIs(s3, MsgActsTable, MAT_LD_ERR_EID);
  }
}
