/** The exchange of a whole cycle, in order, and what follows for runs. */
module CycleExchange {
  import opened HsTypes
  import opened HsState
  import opened HsSteps
  import opened ResetRuns
  import opened StepEffects
  import opened CommandRuns
  import opened Exchange
  import AppMonitor
  import SilenceRuns
  import Utilization

  function When(b: bool, ops: seq<Op>): seq<Op> {
    if b then ops else []
  }

  // ---------- Table acquisition ----------

  /** A table is asked for; its loss is reported while it, or the monitor that needs it, is still marked on. */
  function LossTalk(t: Table, ok: bool, marked: bool, eid: uint16): seq<Op> {
    [GotTable(t, ok)] + When(!ok && marked, [Event(eid)])
  }

  function UnsubTalk(f: Format, ok: bool, eid: uint16): seq<Op> {
    [Unsubscribe(f, ok)] + When(!ok, [Event(eid)])
  }

  /** The event table; its loss also ends the subscriptions if monitoring is on. */
  function EmtTalk(l: Loads, m: Modes, a: AcquireIn): seq<Op> {
    LossTalk(EventMonTable, !a.emt.Failed?, l.eventMon || m.eventMon, EVENTMON_GETADDR_ERR_EID)
    + When(a.emt.Failed? && m.eventMon,
           UnsubTalk(LongFormat, a.longUnsub, BADEMT_LONG_UNSUB_EID)
           + UnsubTalk(ShortFormat, a.shortUnsub, BADEMT_SHORT_UNSUB_EID))
  }

  function AcquireTalk(l: Loads, m: Modes, a: AcquireIn): seq<Op> {
    LossTalk(AppMonTable, !a.amt.Failed?, l.appMon || m.appMon, APPMON_GETADDR_ERR_EID)
    + EmtTalk(l, m, a)
    + LossTalk(MsgActsTable, !a.mat.Failed?, l.msgActs, MSGACTS_GETADDR_ERR_EID)
    + LossTalk(ExeCountTable, a.xctOk, l.exeCount, EXECOUNT_GETADDR_ERR_EID)
  }

  lemma LostSays(s: State, t: Table, eid: uint16)
    requires WF(s) && eid !in LIMITED && eid !in MONITOR_EIDS
    ensures Says(s, Lost(s, t, eid), [Event(eid)], false)
  {
    hide Do, Emit, Says, WF, Acted, Quiet, LIMITED, MONITOR_EIDS;
    EmitOwn(s, eid, false);
    var s1 := Emit(s, eid);
    OpOwn(s1, Dropped(t), false);
    SaysOn(s, s1, Lost(s, t, eid), [Event(eid)], [], false);
    assert [Event(eid)] + [] == [Event(eid)];
  }

  lemma AmtSays(s: State, g: TableGet<AmtEntry>)
    requires WF(s) && (g.Updated? ==> |g.table| == s.cfg.apps)
    ensures Says(s, AcquireAmt(s, g),
                 LossTalk(AppMonTable, !g.Failed?, s.loads.appMon || s.modes.appMon, APPMON_GETADDR_ERR_EID), false)
  {
    hide Do, Lost, Says, Quiet, Confined, SameMarks, SameTables, HalfDisabled, Deeds, WF;
    var op := GotTable(AppMonTable, !g.Failed?);
    var s1, r := Do(s, op), AcquireAmt(s, g);
    OpOwn(s, op, false);
    assert [op] + [] == [op];
    if g.Updated? {
      OpOwn(s1, RefreshAppMon(g.table), false);
      SaysOn(s, s1, r, [op], [], false);
    } else if g.Failed? && (s.loads.appMon || s.modes.appMon) {
      LostSays(s1, AppMonTable, APPMON_GETADDR_ERR_EID);
      SaysOn(s, s1, r, [op], [Event(APPMON_GETADDR_ERR_EID)], false);
    }
  }

  lemma UnsubSays(s: State, f: Format, ok: bool, eid: uint16)
    requires WF(s) && eid !in LIMITED && eid !in MONITOR_EIDS
    ensures Says(s, Unsub(s, f, ok, eid), UnsubTalk(f, ok, eid), false)
  {
    hide Do, Emit, Says, WF, Acted, Quiet, LIMITED, MONITOR_EIDS;
    var op := Unsubscribe(f, ok);
    OpEmitSays(s, op, eid, false);
    assert [op] + [] == [op];
  }

  /** Losing the event table, as reported and with the subscriptions given up. */
  function EmtLostTalk(on: bool, long: bool, short: bool): seq<Op> {
    [Event(EVENTMON_GETADDR_ERR_EID)]
    + When(on, UnsubTalk(LongFormat, long, BADEMT_LONG_UNSUB_EID)
               + UnsubTalk(ShortFormat, short, BADEMT_SHORT_UNSUB_EID))
  }

  lemma EmtLostSays(s: State, long: bool, short: bool)
    requires WF(s)
    ensures Says(s, EmtLost(s, long, short), EmtLostTalk(s.modes.eventMon, long, short), false)
  {
    hide Do, Emit, Unsub, UnsubTalk, Says, WF, Acted, Quiet;
    var first := [Event(EVENTMON_GETADDR_ERR_EID)];
    var p := UnsubTalk(LongFormat, long, BADEMT_LONG_UNSUB_EID);
    var q := UnsubTalk(ShortFormat, short, BADEMT_SHORT_UNSUB_EID);
    var s1 := Emit(s, EVENTMON_GETADDR_ERR_EID);
    EmitOwn(s, EVENTMON_GETADDR_ERR_EID, false);
    var s2 := Unsub(s1, LongFormat, long, BADEMT_LONG_UNSUB_EID);
    UnsubSays(s1, LongFormat, long, BADEMT_LONG_UNSUB_EID);
    var s3 := Unsub(s2, ShortFormat, short, BADEMT_SHORT_UNSUB_EID);
    UnsubSays(s2, ShortFormat, short, BADEMT_SHORT_UNSUB_EID);
    SaysOn(s1, s2, s3, p, q, false);
    SaysOn(s, s1, s3, first, p + q, false);
    var s4, ops := if s.modes.eventMon then s3 else s1, EmtLostTalk(s.modes.eventMon, long, short);
    assert first + [] == first;
    OpOwn(s4, Dropped(EventMonTable), false);
    SaysOn(s, s4, Do(s4, Dropped(EventMonTable)), ops, [], false);
    assert ops + [] == ops;
  }

  lemma EmtSays(s: State, a: AcquireIn)
    requires WF(s) && AcquireFits(s.cfg, a)
    ensures Says(s, AcquireEmt(s, a.emt, a.longUnsub, a.shortUnsub), EmtTalk(s.loads, s.modes, a), false)
  {
    hide Do, EmtLost, UnsubTalk, Says, Quiet, Confined, SameMarks, SameTables, HalfDisabled, Deeds, WF;
    var op := GotTable(EventMonTable, !a.emt.Failed?);
    var s1, r := Do(s, op), AcquireEmt(s, a.emt, a.longUnsub, a.shortUnsub);
    GotIs(s, EventMonTable, !a.emt.Failed?);
    OpOwn(s, op, false);
    assert [op] + [] == [op] && [op] + [] + [] == [op];
    if a.emt.Updated? {
      OpOwn(s1, LoadEmt(a.emt.table), false);
      SaysOn(s, s1, r, [op], [], false);
    } else if a.emt.Failed? && (s.loads.eventMon || s.modes.eventMon) {
      EmtLostSays(s1, a.longUnsub, a.shortUnsub);
      var ops := EmtLostTalk(s.modes.eventMon, a.longUnsub, a.shortUnsub);
      SaysOn(s, s1, r, [op], ops, false);
      assert [op] + ops == EmtTalk(s.loads, s.modes, a);
    }
  }

  lemma MatSays(s: State, g: TableGet<MatEntry>)
    requires WF(s) && (g.Updated? ==> |g.table| == s.cfg.msgActs)
    ensures Says(s, AcquireMat(s, g),
                 LossTalk(MsgActsTable, !g.Failed?, s.loads.msgActs, MSGACTS_GETADDR_ERR_EID), false)
  {
    hide Do, Lost, Says, Quiet, Confined, SameMarks, SameTables, HalfDisabled, Deeds, WF;
    var op := GotTable(MsgActsTable, !g.Failed?);
    var s1, r := Do(s, op), AcquireMat(s, g);
    OpOwn(s, op, false);
    assert [op] + [] == [op];
    if g.Updated? {
      OpOwn(s1, RefreshMsgActs(g.table), false);
      SaysOn(s, s1, r, [op], [], false);
    } else if g.Failed? && s.loads.msgActs {
      LostSays(s1, MsgActsTable, MSGACTS_GETADDR_ERR_EID);
      SaysOn(s, s1, r, [op], [Event(MSGACTS_GETADDR_ERR_EID)], false);
    }
  }

  lemma XctSays(s: State, ok: bool)
    requires WF(s)
    ensures Says(s, AcquireXct(s, ok), LossTalk(ExeCountTable, ok, s.loads.exeCount, EXECOUNT_GETADDR_ERR_EID), false)
  {
    hide Do, Lost, Says, Quiet, Confined, SameMarks, SameTables, HalfDisabled, Deeds, WF;
    var op := GotTable(ExeCountTable, ok);
    var s1, r := Do(s, op), AcquireXct(s, ok);
    OpOwn(s, op, false);
    assert [op] + [] == [op];
    if !ok && s.loads.exeCount {
      LostSays(s1, ExeCountTable, EXECOUNT_GETADDR_ERR_EID);
      SaysOn(s, s1, r, [op], [Event(EXECOUNT_GETADDR_ERR_EID)], false);
    }
  }

  lemma AcquireSays(s: State, a: AcquireIn)
    requires WF(s) && AcquireFits(s.cfg, a)
    ensures Says(s, Acquire(s, a), AcquireTalk(s.loads, s.modes, a), false)
  {
    hide AcquireAmt, AcquireEmt, AcquireMat, AcquireXct, Says, WF, LossTalk, EmtTalk, Rearmed, Unplugged, SameMarks;
    var s1 := AcquireAmt(s, a.amt);
    AmtSays(s, a.amt);
    AmtEffectOf(s, a.amt);
    var s2 := AcquireEmt(s1, a.emt, a.longUnsub, a.shortUnsub);
    EmtSays(s1, a);
    SameEmtTalk(s, s1, a);
    EmtEffectOf(s1, a.emt, a.longUnsub, a.shortUnsub);
    var s3 := AcquireMat(s2, a.mat);
    MatSays(s2, a.mat);
    MatEffectOf(s2, a.mat);
    XctSays(s3, a.xctOk);
    var p := LossTalk(AppMonTable, !a.amt.Failed?, s.loads.appMon || s.modes.appMon, APPMON_GETADDR_ERR_EID);
    var q := EmtTalk(s.loads, s.modes, a);
    var m := LossTalk(MsgActsTable, !a.mat.Failed?, s.loads.msgActs, MSGACTS_GETADDR_ERR_EID);
    SaysOn(s, s1, s2, p, q, false);
    SaysOn(s, s2, s3, p + q, m, false);
    SaysOn(s, s3, Acquire(s, a), p + q + m,
           LossTalk(ExeCountTable, a.xctOk, s.loads.exeCount, EXECOUNT_GETADDR_ERR_EID), false);
  }

  lemma SameEmtTalk(s: State, r: State, a: AcquireIn)
    requires s.loads.eventMon == r.loads.eventMon && s.modes.eventMon == r.modes.eventMon
    ensures EmtTalk(s.loads, s.modes, a) == EmtTalk(r.loads, r.modes, a)
  {
  }

  // ---------- Utilization ----------

  /** On a sampling cycle the reading is taken over as it is. */
  function UtilTalk(due: bool, reading: int32, hog: bool): seq<Op> {
    When(due, [TakeSample(Utilization.Sample(reading, hog))]) + [UtilTick]
  }

  lemma UtilSays(s: State, reading: int32)
    requires WF(s)
    ensures Says(s, UtilPhase(s, reading), UtilTalk(s.cpu.cycle == 0, reading, s.modes.cpuHog), false)
  {
    hide Do, Says, WF, Confined, SameMarks, SameTables, HalfDisabled, Deeds, Utilization.Alarm;
    var op := TakeSample(Utilization.Sample(reading, s.modes.cpuHog));
    var s1 := MonitorUtil(s, reading);
    OpOwn(s, op, false);
    OpOwn(Do(s, op), HogEvent, false);
    SaysOn(s, Do(s, op), Do(Do(s, op), HogEvent), [op], [], false);
    assert [op] + [] == [op] && [] + [UtilTick] == [UtilTick];
    OpOwn(s, UtilTick, false);
    OpOwn(s1, UtilTick, false);
    SaysOn(s, s1, Do(s1, UtilTick), [op], [UtilTick], false);
  }

  // ---------- Commands ----------

  /** The report of a command that was carried out. */
  function Reply(code: uint16): uint16 {
    if code == CC_NOOP then NOOP_INF_EID
    else if code == CC_RESET then RESET_INF_EID
    else if code == CC_ENABLE_APP_MON then ENABLE_APPMON_DBG_EID
    else if code == CC_DISABLE_APP_MON then DISABLE_APPMON_DBG_EID
    else if code == CC_ENABLE_EVENT_MON then ENABLE_EVENTMON_DBG_EID
    else if code == CC_DISABLE_EVENT_MON then DISABLE_EVENTMON_DBG_EID
    else if code == CC_ENABLE_ALIVENESS then ENABLE_ALIVENESS_DBG_EID
    else if code == CC_DISABLE_ALIVENESS then DISABLE_ALIVENESS_DBG_EID
    else if code == CC_RESET_RESETS_PERFORMED then RESET_RESETS_DBG_EID
    else if code == CC_SET_MAX_RESETS then SET_MAX_RESETS_DBG_EID
    else if code == CC_ENABLE_CPU_HOG then ENABLE_CPUHOG_DBG_EID
    else DISABLE_CPUHOG_DBG_EID
  }

  /** Two calls to the software bus, the second only if the first went through; a refusal is reported. */
  function BothTalk(first: Op, second: Op, long: bool, short: bool, longEid: uint16, shortEid: uint16): seq<Op> {
    [first] + if !long then [Event(longEid)] else [second] + When(!short, [Event(shortEid)])
  }

  /** A well-formed command: the calls it takes, then its count and its report, or its rejection. */
  function CommandTalk(on: bool, d: CmdDelivery): seq<Op>
    requires d.GotCmd?
  {
    var code := d.msg.code;
    var done := [if code == CC_RESET then ClearCounters else CmdAccepted, Event(Reply(code))];
    if code == CC_ENABLE_EVENT_MON && !on then
      BothTalk(Subscribe(LongFormat, d.long), Subscribe(ShortFormat, d.short), d.long, d.short,
               EVENTMON_LONG_SUB_EID, EVENTMON_SHORT_SUB_EID)
      + if d.long && d.short then done else [CmdRejected]
    else if code == CC_DISABLE_EVENT_MON && on then
      BothTalk(Unsubscribe(LongFormat, d.long), Unsubscribe(ShortFormat, d.short), d.long, d.short,
               EVENTMON_LONG_UNSUB_EID, EVENTMON_SHORT_UNSUB_EID)
      + if d.long && d.short then done else [CmdRejected]
    else done
  }

  function CmdTalk(cfg: Config, on: bool, d: CmdDelivery): seq<Op> {
    if d.NullCmd? then []
    else if d.msg.kind.HkRequest? then
      if d.msg.length == cfg.hkLength then [SendHk] else [Event(HKREQ_LEN_ERR_EID)]
    else if d.msg.kind.Unknown? then [CmdRejected, Event(MID_ERR_EID)]
    else if d.msg.code > CC_DISABLE_CPU_HOG then [Event(CC_ERR_EID), CmdRejected]
    else if Malformed(cfg, d.msg) then [Event(CMD_LEN_ERR_EID), CmdRejected]
    else CommandTalk(on, d)
  }

  lemma CountSays(s: State, op: Op, eid: uint16)
    requires WF(s) && (op.CmdAccepted? || op.ClearCounters?) && eid !in LIMITED && eid !in MONITOR_EIDS
    ensures Says(s, CountCmd(s, op, eid), [op, Event(eid)], false)
  {
    hide Do, Emit, Says, Acted, Quiet, LIMITED, MONITOR_EIDS;
    OpEmitSays(s, op, eid, false);
    assert [op] + [Event(eid)] == [op, Event(eid)];
  }

  /** Accepted, one change to HS's own data, reported. */
  lemma AcceptSays(s: State, op: Op, eid: uint16)
    requires WF(s) && (op.Switch? || op.SetCds?) && eid !in LIMITED && eid !in MONITOR_EIDS
    ensures Says(s, Emit(Do(Do(s, CmdAccepted), op), eid), [CmdAccepted, Event(eid)], false)
  {
    hide Do, Emit, Says, Acted, WF, LIMITED, MONITOR_EIDS;
    var s1 := Do(s, CmdAccepted);
    OpOwn(s, CmdAccepted, false);
    OpEmitSays(s1, op, eid, false);
    SaysOn(s, s1, Emit(Do(s1, op), eid), [CmdAccepted], [] + [Event(eid)], false);
    assert [CmdAccepted] + ([] + [Event(eid)]) == [CmdAccepted, Event(eid)];
  }

  lemma SwitchSays(s: State, mode: Mode, on: bool, eid: uint16)
    requires WF(s) && eid !in LIMITED && eid !in MONITOR_EIDS
    ensures Says(s, SwitchCmd(s, mode, on, eid), [CmdAccepted, Event(eid)], false)
  {
    hide Do, Emit, Says, Acted, Quiet, Plugged, LIMITED, MONITOR_EIDS;
    AcceptSays(s, Switch(mode, on), eid);
  }

  lemma SetCdsSays(s: State, why: CdsReason, resets: uint16, max: uint16, eid: uint16)
    requires WF(s) && eid !in LIMITED && eid !in MONITOR_EIDS
    ensures Says(s, SetCdsCmd(s, why, resets, max, eid), [CmdAccepted, Event(eid)], false)
  {
    hide Do, Emit, Says, Acted, Quiet, Plugged, LIMITED, MONITOR_EIDS;
    AcceptSays(s, SetCds(why, resets, max), eid);
  }

  lemma EnableAppSays(s: State)
    requires WF(s)
    ensures Says(s, EnableAppMon(s), [CmdAccepted, Event(ENABLE_APPMON_DBG_EID)], false)
  {
    hide Do, Emit, Says, Acted, Quiet, Plugged, Confined, SameMarks, SameTables, HalfDisabled, Deeds;
    var s1 := Do(s, CmdAccepted);
    OpOwn(s, CmdAccepted, false);
    var op := RefreshAppMon(s1.app.amt);
    var s2 := Do(s1, op);
    OpOwn(s1, op, false);
    SaysOn(s, s1, s2, [CmdAccepted], [], false);
    OpEmitSays(s2, Switch(AppMonMode, true), ENABLE_APPMON_DBG_EID, false);
    SaysOn(s, s2, EnableAppMon(s), [CmdAccepted] + [], [] + [Event(ENABLE_APPMON_DBG_EID)], false);
    assert [CmdAccepted] + [] + ([] + [Event(ENABLE_APPMON_DBG_EID)]) == [CmdAccepted, Event(ENABLE_APPMON_DBG_EID)];
  }

  lemma BothSay(s: State, first: Op, second: Op, long: bool, short: bool, longEid: uint16, shortEid: uint16)
    requires WF(s) && (first.Subscribe? || first.Unsubscribe?) && (second.Subscribe? || second.Unsubscribe?)
    requires longEid !in LIMITED && longEid !in MONITOR_EIDS && shortEid !in LIMITED && shortEid !in MONITOR_EIDS
    ensures var s1, s2 := Do(s, first), Do(Do(s, first), second);
            var r := if !long then Emit(s1, longEid) else if short then s2 else Emit(s2, shortEid);
            Says(s, r, BothTalk(first, second, long, short, longEid, shortEid), false)
  {
    hide Do, Emit, Says, Acted, WF, LIMITED, MONITOR_EIDS;
    var s1 := Do(s, first);
    var s2 := Do(s1, second);
    OpEmitSays(s, first, longEid, false);
    OpEmitSays(s1, second, shortEid, false);
    SaysOn(s, s1, s2, [first], [second], false);
    SaysOn(s, s1, Emit(s2, shortEid), [first], [second] + [Event(shortEid)], false);
    assert [second] + [] == [second];
  }

  /** After the calls: the switch, or the rejection. */
  lemma ThenSays(s: State, s1: State, calls: seq<Op>, on: bool, eid: uint16)
    requires WF(s1) && Says(s, s1, calls, false) && eid !in LIMITED && eid !in MONITOR_EIDS
    ensures Says(s, SwitchCmd(s1, EventMonMode, on, eid), calls + [CmdAccepted, Event(eid)], false)
    ensures Says(s, Reject(s1), calls + [CmdRejected], false)
  {
    hide SwitchCmd, Do, Says, Quiet, Plugged, LIMITED, MONITOR_EIDS;
    SwitchSays(s1, EventMonMode, on, eid);
    SaysOn(s, s1, SwitchCmd(s1, EventMonMode, on, eid), calls, [CmdAccepted, Event(eid)], false);
    OpOwn(s1, CmdRejected, false);
    SaysOn(s, s1, Reject(s1), calls, [CmdRejected], false);
  }

  lemma EnableSays(s: State, d: CmdDelivery)
    requires WF(s) && d.GotCmd? && d.msg.code == CC_ENABLE_EVENT_MON
    ensures Says(s, EnableEventMon(s, d.long, d.short), CommandTalk(s.modes.eventMon, d), false)
  {
    hide Do, Emit, SwitchCmd, Reject, BothTalk, Says, Quiet, Plugged, Acted, WF;
    if s.modes.eventMon {
      SwitchSays(s, EventMonMode, true, ENABLE_EVENTMON_DBG_EID);
    } else {
      var first, second := Subscribe(LongFormat, d.long), Subscribe(ShortFormat, d.short);
      BothSay(s, first, second, d.long, d.short, EVENTMON_LONG_SUB_EID, EVENTMON_SHORT_SUB_EID);
      ThenSays(s, SubscribeBoth(s, d.long, d.short, EVENTMON_LONG_SUB_EID, EVENTMON_SHORT_SUB_EID),
               BothTalk(first, second, d.long, d.short, EVENTMON_LONG_SUB_EID, EVENTMON_SHORT_SUB_EID), true,
               ENABLE_EVENTMON_DBG_EID);
    }
  }

  lemma DisableSays(s: State, d: CmdDelivery)
    requires WF(s) && d.GotCmd? && d.msg.code == CC_DISABLE_EVENT_MON
    ensures Says(s, DisableEventMon(s, d.long, d.short), CommandTalk(s.modes.eventMon, d), false)
  {
    hide Do, Emit, SwitchCmd, Reject, BothTalk, Says, Quiet, Plugged, Acted, WF;
    if !s.modes.eventMon {
      SwitchSays(s, EventMonMode, false, DISABLE_EVENTMON_DBG_EID);
    } else {
      var first, second := Unsubscribe(LongFormat, d.long), Unsubscribe(ShortFormat, d.short);
      BothSay(s, first, second, d.long, d.short, EVENTMON_LONG_UNSUB_EID, EVENTMON_SHORT_UNSUB_EID);
      ThenSays(s, UnsubscribeBoth(s, d.long, d.short),
               BothTalk(first, second, d.long, d.short, EVENTMON_LONG_UNSUB_EID, EVENTMON_SHORT_UNSUB_EID), false,
               DISABLE_EVENTMON_DBG_EID);
    }
  }

  lemma ExecuteSays(s: State, d: CmdDelivery)
    requires WF(s) && d.GotCmd? && d.msg.code <= CC_DISABLE_CPU_HOG
    ensures Says(s, Execute(s, d), CommandTalk(s.modes.eventMon, d), false)
  {
    hide CountCmd, SwitchCmd, SetCdsCmd, EnableAppMon, EnableEventMon, DisableEventMon, Says, Quiet, Plugged, WF,
         BothTalk;
    var code := d.msg.code;
    if code == CC_NOOP {
      CountSays(s, CmdAccepted, NOOP_INF_EID);
    } else if code == CC_RESET {
      CountSays(s, ClearCounters, RESET_INF_EID);
    } else if code == CC_ENABLE_APP_MON {
      EnableAppSays(s);
    } else if code == CC_DISABLE_APP_MON {
      SwitchSays(s, AppMonMode, false, DISABLE_APPMON_DBG_EID);
    } else if code == CC_ENABLE_EVENT_MON {
      EnableSays(s, d);
    } else if code == CC_DISABLE_EVENT_MON {
      DisableSays(s, d);
    } else if code == CC_ENABLE_ALIVENESS {
      SwitchSays(s, AlivenessMode, true, ENABLE_ALIVENESS_DBG_EID);
    } else if code == CC_DISABLE_ALIVENESS {
      SwitchSays(s, AlivenessMode, false, DISABLE_ALIVENESS_DBG_EID);
    } else if code == CC_RESET_RESETS_PERFORMED {
      SetCdsSays(s, Cleared, 0, s.rst.cds.max, RESET_RESETS_DBG_EID);
    } else if code == CC_SET_MAX_RESETS {
      SetCdsSays(s, Limited, s.rst.cds.resets, d.msg.maxResets, SET_MAX_RESETS_DBG_EID);
    } else if code == CC_ENABLE_CPU_HOG {
      SwitchSays(s, CpuHogMode, true, ENABLE_CPUHOG_DBG_EID);
    } else {
      SwitchSays(s, CpuHogMode, false, DISABLE_CPUHOG_DBG_EID);
    }
  }

  lemma RejectSays(s: State, eid: uint16)
    requires WF(s) && eid !in LIMITED && eid !in MONITOR_EIDS
    ensures Says(s, Reject(Emit(s, eid)), [Event(eid), CmdRejected], false)
    ensures Says(s, Emit(Reject(s), eid), [CmdRejected, Event(eid)], false)
  {
    hide Do, Emit, Says, Acted, Quiet, WF, LIMITED, MONITOR_EIDS;
    EmitOwn(s, eid, false);
    OpOwn(Emit(s, eid), CmdRejected, false);
    SaysOn(s, Emit(s, eid), Reject(Emit(s, eid)), [Event(eid)], [CmdRejected], false);
    OpEmitSays(s, CmdRejected, eid, false);
    assert [Event(eid)] + [CmdRejected] == [Event(eid), CmdRejected];
    assert [CmdRejected] + [Event(eid)] == [CmdRejected, Event(eid)];
  }

  lemma CmdSays(s: State, d: CmdDelivery)
    requires WF(s)
    ensures Says(s, OneCmd(s, d), CmdTalk(s.cfg, s.modes.eventMon, d), false)
  {
    hide Do, Emit, Execute, Reject, CommandTalk, Says, Quiet, Acted, WF;
    SaysNothing(s);
    EmitOwn(s, HKREQ_LEN_ERR_EID, false);
    OpOwn(s, SendHk, false);
    RejectSays(s, CC_ERR_EID);
    RejectSays(s, CMD_LEN_ERR_EID);
    RejectSays(s, MID_ERR_EID);
    if d.GotCmd? && d.msg.code <= CC_DISABLE_CPU_HOG {
      ExecuteSays(s, d);
    }
  }

  /** Event monitoring after the first n messages, on or off before them. */
  predicate StillOn(cfg: Config, on: bool, ds: seq<CmdDelivery>, n: nat)
    requires n <= |ds|
  {
    if n == 0 then on else
      var before, d := StillOn(cfg, on, ds, n - 1), ds[n - 1];
      if d.GotCmd? && d.msg.kind.Command? && !Malformed(cfg, d.msg) && d.long && d.short then
        d.msg.code == CC_ENABLE_EVENT_MON || (before && d.msg.code != CC_DISABLE_EVENT_MON)
      else before
  }

  function CmdsTalk(cfg: Config, on: bool, ds: seq<CmdDelivery>, n: nat): seq<Op>
    requires n <= |ds|
  {
    if n == 0 then []
    else CmdsTalk(cfg, on, ds, n - 1) + CmdTalk(cfg, StillOn(cfg, on, ds, n - 1), ds[n - 1])
  }

  lemma CmdModes(s: State, d: CmdDelivery)
    requires WF(s)
    ensures OneCmd(s, d).modes.eventMon == StillOn(s.cfg, s.modes.eventMon, [d], 1)
  {
    hide OneCmd, Rearmed, Malformed, RecordAfter, BusAfter, Quiet;
    CommandsDoWhatTheySay(s, d);
    assert StillOn(s.cfg, s.modes.eventMon, [d], 0) == s.modes.eventMon;
    MalformedCode(s.cfg, d);
  }

  lemma MalformedCode(cfg: Config, d: CmdDelivery)
    ensures d.GotCmd? && d.msg.kind.Command? && !Malformed(cfg, d.msg) ==> d.msg.code <= CC_DISABLE_CPU_HOG
  {
  }

  lemma {:induction false} CmdsSay(s: State, ds: seq<CmdDelivery>, n: nat)
    requires WF(s) && n <= |ds|
    ensures Says(s, DrainCmds(s, ds, n), CmdsTalk(s.cfg, s.modes.eventMon, ds, n), false)
    ensures DrainCmds(s, ds, n).modes.eventMon == StillOn(s.cfg, s.modes.eventMon, ds, n)
  {
    hide OneCmd, CmdTalk, Says, SameMarks, WF, Malformed;
    SaysNothing(s);
    if n > 0 {
      var s1 := DrainCmds(s, ds, n - 1);
      CmdsSay(s, ds, n - 1);
      CmdSays(s1, ds[n - 1]);
      CmdModes(s1, ds[n - 1]);
      assert StillOn(s.cfg, s1.modes.eventMon, [ds[n - 1]], 0) == s1.modes.eventMon;
      SaysOn(s, s1, DrainCmds(s, ds, n), CmdsTalk(s.cfg, s.modes.eventMon, ds, n - 1),
             CmdTalk(s.cfg, s1.modes.eventMon, ds[n - 1]), false);
    }
  }

  // ---------- One cycle ----------

  /** The application table, countdowns and last counts that the monitor works from in this cycle. */
  function TableNow(s: State, x: CycleIn): seq<AmtEntry> {
    if x.acquire.amt.Updated? then x.acquire.amt.table else s.app.amt
  }

  function CountdownNow(s: State, x: CycleIn): seq<uint16> {
    if !x.acquire.amt.Updated? then s.app.mon.countdown else
      var t := x.acquire.amt.table;
      seq(|t|, i requires 0 <= i < |t| =>
            if t[i].cycleCount != 0 && t[i].action != ACT_NOACT then t[i].cycleCount else 0)
  }

  function LastNow(s: State, x: CycleIn): seq<uint32> {
    if x.acquire.amt.Updated? then Copies(|x.acquire.amt.table|, 0) else s.app.mon.last
  }

  function EventsNow(s: State, x: CycleIn): seq<EmtEntry> {
    if x.acquire.emt.Updated? then x.acquire.emt.table else s.emt
  }

  /** Monitoring in this cycle: switched on, and the table was not lost at its begin. */
  predicate AppsMonitored(s: State, x: CycleIn) {
    s.modes.appMon && !x.acquire.amt.Failed?
  }

  predicate EventsMonitored(s: State, x: CycleIn) {
    s.modes.eventMon && !x.acquire.emt.Failed?
  }

  /** Up to the utilization tick. */
  function PrepareTalk(s: State, x: CycleIn): seq<Op> {
    [CycleStart] + AcquireTalk(s.loads, s.modes, x.acquire) + [Tick]
    + UtilTalk(s.cpu.cycle == 0, x.reading, s.modes.cpuHog)
  }

  /** The application monitor and the aliveness output. */
  function WatchTalk(s: State, x: CycleIn): seq<Op>
    requires WF(s) && CycleFits(s.cfg, x)
  {
    When(AppsMonitored(s, x),
         [RunAppMon] + LooksTalk(TableNow(s, x), CountdownNow(s, x), LastNow(s, x), x.apps, s.cfg.apps))
    + When(s.modes.aliveness, [AliveTick(s.alive + 1 >= s.cfg.alivePeriod)])
  }

  /** The two pipes: events before commands, and no commands once the event pipe broke. */
  function PipesTalk(s: State, x: CycleIn): seq<Op>
    requires WF(s) && CycleFits(s.cfg, x)
  {
    var on := EventsMonitored(s, x);
    When(on, EventsTalk(EventsNow(s, x), x.pipes.events, |x.pipes.events|))
    + When(!(on && x.pipes.eventEnd.Broken?), CmdsTalk(s.cfg, on, x.pipes.cmds, |x.pipes.cmds|))
  }

  /** What a cycle starts with in state s is what the monitors then work from in state p. */
  predicate Prepared(s: State, p: State, x: CycleIn) {
    && p.cfg == s.cfg && p.app.amt == TableNow(s, x) && p.app.mon.countdown == CountdownNow(s, x)
    && p.app.mon.last == LastNow(s, x) && p.emt == EventsNow(s, x) && p.alive == s.alive
    && p.modes == s.modes.(appMon := AppsMonitored(s, x), eventMon := EventsMonitored(s, x))
  }

  lemma AnsweredPrepared(s: State, r: State, x: CycleIn)
    requires WF(r) && Answered(s, r, x.acquire)
    ensures Prepared(s, r, x)
  {
    hide Unplugged;
    if x.acquire.amt.Updated? {
      assert r.app.mon.countdown == CountdownNow(s, x);
      assert r.app.mon.last == LastNow(s, x);
    }
  }

  lemma UtilLeaves(s: State, reading: int32)
    requires WF(s)
    ensures var r := UtilPhase(s, reading); r == s.(cpu := r.cpu, log := r.log)
  {
    hide Do, CpuEffect, Utilization.Alarm;
    var op := TakeSample(Utilization.Sample(reading, s.modes.cpuHog));
    CpuOnly(s, op);
    LogOnly(Do(s, op), HogEvent);
    CpuOnly(if s.cpu.cycle == 0 then MonitorUtil(s, reading) else s, UtilTick);
  }

  lemma PrepareSays(s: State, x: CycleIn)
    requires WF(s) && CycleFits(s.cfg, x)
    ensures Says(s, Prepare(s, x), PrepareTalk(s, x), false) && Prepared(s, Prepare(s, x), x)
  {
    hide Do, Acquire, UtilPhase, Says, AcquireTalk, UtilTalk, WF, Quiet, Answered, Prepared, Confined, SameMarks,
         SameTables, HalfDisabled, Deeds;
    var s0 := Do(s, CycleStart);
    LogOnly(s, CycleStart);
    OpOwn(s, CycleStart, false);
    var s1 := Acquire(s0, x.acquire);
    AcquireSays(s0, x.acquire);
    AcquisitionFollowsAnswers(s0, x.acquire);
    var s2 := Do(s1, Tick);
    MsgOnly(s1, Tick);
    OpOwn(s1, Tick, false);
    UtilSays(s2, x.reading);
    UtilLeaves(s2, x.reading);
    var a := AcquireTalk(s.loads, s.modes, x.acquire);
    SaysOn(s, s0, s1, [CycleStart], a, false);
    SaysOn(s, s1, s2, [CycleStart] + a, [Tick], false);
    StillPrepared(s, s0, s1, s2, Prepare(s, x), x);
    SaysOn(s, s2, Prepare(s, x), [CycleStart] + a + [Tick], UtilTalk(s.cpu.cycle == 0, x.reading, s.modes.cpuHog),
           false);
  }

  /** Through the phases of `Prepare`. */
  lemma StillPrepared(s: State, s0: State, s1: State, s2: State, r: State, x: CycleIn)
    requires s0 == s.(log := s0.log) && WF(s1) && Answered(s0, s1, x.acquire)
    requires s2 == s1.(msg := s2.msg, log := s2.log) && r == s2.(cpu := r.cpu, log := r.log)
    ensures Prepared(s, r, x) && s2.cpu == s.cpu && s2.modes.cpuHog == s.modes.cpuHog
  {
    hide Unplugged, Rearmed, WF;
    AnsweredPrepared(s0, s1, x);
  }

  lemma AliveSays(s: State)
    requires WF(s)
    ensures var r := AlivePhase(s);
            && Says(s, r, When(s.modes.aliveness, [AliveTick(s.alive + 1 >= s.cfg.alivePeriod)]), false)
            && r == s.(alive := r.alive, log := r.log)
  {
    hide Do, Says, AliveEffect;
    SaysNothing(s);
    AliveOnly(s, AliveTick(s.alive + 1 >= s.cfg.alivePeriod));
    OpOwn(s, AliveTick(s.alive + 1 >= s.cfg.alivePeriod), false);
  }

  lemma AppSays(p: State, xs: seq<AppInput>)
    requires WF(p) && |xs| == p.cfg.apps
    ensures var r := AppPhase(p, xs);
            && Says(p, r, When(p.modes.appMon,
                               [RunAppMon] + LooksTalk(p.app.amt, p.app.mon.countdown, p.app.mon.last, xs, p.cfg.apps)),
                    false)
            && r.modes == p.modes && r.emt == p.emt && r.alive == p.alive
  {
    hide Do, MonitorApps, LooksTalk, Says, SameMarks, SameTables, HalfDisabled, Deeds;
    SaysNothing(p);
    if p.modes.appMon {
      var s1 := Do(p, RunAppMon);
      LogOnly(p, RunAppMon);
      OpOwn(p, RunAppMon, false);
      MonitorSays(s1, xs, p.cfg.apps);
      SaysOn(p, s1, AppPhase(p, xs), [RunAppMon],
             LooksTalk(p.app.amt, p.app.mon.countdown, p.app.mon.last, xs, p.cfg.apps), false);
    }
  }

  /** Before the pipes are read: tables, cooldowns, utilization, applications and aliveness, in this order; none of
      the event monitor's own events. */
  lemma BeforePipesSays(s: State, x: CycleIn)
    requires WF(s) && CycleFits(s.cfg, x)
    ensures var r := BeforePipes(s, x);
            && Says(s, r, PrepareTalk(s, x) + WatchTalk(s, x), false)
            && r.modes.eventMon == EventsMonitored(s, x) && r.emt == EventsNow(s, x)
  {
    hide Prepare, AppPhase, AlivePhase, PrepareTalk, LooksTalk, Says, AppsMonitored, EventsMonitored, TableNow,
         CountdownNow, LastNow, EventsNow, When;
    PrepareSays(s, x);
    var p := Prepare(s, x);
    AppSays(p, x.apps);
    var q := AppPhase(p, x.apps);
    AliveSays(q);
    var looks := When(AppsMonitored(s, x),
                      [RunAppMon] + LooksTalk(TableNow(s, x), CountdownNow(s, x), LastNow(s, x), x.apps, s.cfg.apps));
    var alive := When(s.modes.aliveness, [AliveTick(s.alive + 1 >= s.cfg.alivePeriod)]);
    SaysOn(p, q, AlivePhase(q), looks, alive, false);
    SaysOn(s, p, AlivePhase(q), PrepareTalk(s, x), looks + alive, false);
  }

  lemma EventsSay(s: State, p: Pipes)
    requires WF(s) && PipesFit(s.cfg, p)
    ensures Says(s, ProcessEvents(s, p), When(s.modes.eventMon, EventsTalk(s.emt, p.events, |p.events|)), true)
  {
    hide DrainEvents, EventsTalk, Says, Kept;
    NothingOwn(s, true);
    DrainSays(s, p.events, |p.events|);
  }

  lemma PipesSay(s: State, p: Pipes)
    requires WF(s) && PipesFit(s.cfg, p)
    ensures Says(s, ProcessCommands(s, p),
                 When(s.modes.eventMon, EventsTalk(s.emt, p.events, |p.events|))
                 + When(!(s.modes.eventMon && p.eventEnd.Broken?), CmdsTalk(s.cfg, s.modes.eventMon, p.cmds, |p.cmds|)),
                 true)
  {
    hide ProcessEvents, DrainCmds, EventsTalk, CmdsTalk, Says, SameMarks, SameTables, HalfDisabled, Quiet;
    EventsSay(s, p);
    var s1 := ProcessEvents(s, p);
    var first := When(s.modes.eventMon, EventsTalk(s.emt, p.events, |p.events|));
    CmdsSay(s1, p.cmds, |p.cmds|);
    var rest := CmdsTalk(s.cfg, s.modes.eventMon, p.cmds, |p.cmds|);
    SaysMore(s1, DrainCmds(s1, p.cmds, |p.cmds|), rest);
    SaysOn(s, s1, DrainCmds(s1, p.cmds, |p.cmds|), first, rest, true);
    assert first + [] == first;
  }

  /** The exchange of a whole cycle, for every state and all that the environment answers and delivers, in order:
      what HS asks, what it is told, what it reports. */
  lemma CycleSays(s: State, x: CycleIn)
    requires WF(s) && CycleFits(s.cfg, x)
    ensures var r := Cycle(s, x);
            Says(s, r, PrepareTalk(s, x) + WatchTalk(s, x) + PipesTalk(s, x) + When(r.rst.watchdog, [Watchdog]), true)
  {
    hide Do, BeforePipes, ProcessCommands, PrepareTalk, WatchTalk, EventsTalk, CmdsTalk, Says, EventsMonitored,
         EventsNow, Quiet, WF;
    BeforePipesSays(s, x);
    var s1 := BeforePipes(s, x);
    var p := PrepareTalk(s, x) + WatchTalk(s, x);
    SaysMore(s, s1, p);
    PipesSay(s1, x.pipes);
    var s2 := ProcessCommands(s1, x.pipes);
    SaysOn(s, s1, s2, p, PipesTalk(s, x), true);
    var all := p + PipesTalk(s, x);
    assert all + [] == all;
    LogOnly(s2, Watchdog);
    OpOwn(s2, Watchdog, true);
    SaysOn(s, s2, Do(s2, Watchdog), all, [Watchdog], true);
  }

  /** The cycle returns success, so that the main loop goes on, exactly when both pipes that were read ran dry. */
  lemma CycleOkIff(s: State, x: CycleIn)
    requires WF(s) && CycleFits(s.cfg, x)
    ensures CycleOk(s, x) <==> (EventsMonitored(s, x) ==> x.pipes.eventEnd.NoMessage?) && x.pipes.cmdEnd.NoMessage?
  {
    hide BeforePipes, Says, EventsMonitored;
    BeforePipesSays(s, x);
  }
}
