/** What HS asks, is told and reports in a cycle, as a function of what the environment answers and delivers. */
module Exchange {
  import opened HsTypes
  import opened HsState
  import opened HsSteps
  import opened ResetRuns
  import opened StepEffects
  import AppMonitor
  import AppMonitorRuns
  import MessageRuns
  import SilenceRuns
  import Utilization

  // ---------- The exchange with the environment ----------

  /** Reports that the reset limit or a cooldown may hold back. */
  const LIMITED: set<uint16> := {RESET_LIMIT_ERR_EID, APPMON_MSGACTS_ERR_EID, EVENTMON_MSGACTS_ERR_EID}

  /** Events that only the event monitor sends. */
  const MONITOR_EIDS: set<uint16> := {
    EVENTMON_MSGACTS_ERR_EID, EVENTMON_PROC_ERR_EID, EVENTMON_RESTART_ERR_EID, EVENTMON_NOT_RESTARTED_ERR_EID,
    EVENTMON_DELETE_ERR_EID, EVENTMON_NOT_DELETED_ERR_EID}

  /** Everything but changes to HS's own data, the resets and sends, which a limit or a cooldown may hold back, and
      the hogging event. */
  predicate Exchanged(op: Op) {
    match op
    case Event(eid) => eid !in LIMITED
    case SetCds(_, _, _) => false
    case ResetCfe => false
    case Transmit(_) => false
    case Switch(_, _) => false
    case Dropped(_) => false
    case RefreshAppMon(_) => false
    case LoadEmt(_) => false
    case RefreshMsgActs(_) => false
    case HogEvent => false
    case CdsOff => false
    case RestoreCds => false
    case CdsUpset(_) => false
    case _ => true
  }

  function Exchanges(t: Trace): seq<Op> {
    match t
    case Start => []
    case Then(before, op) => Exchanges(before) + if Exchanged(op) then [op] else []
  }

  /** The event monitor's own events sent so far. */
  function MonitorEvents(t: Trace): seq<uint16> {
    match t
    case Start => []
    case Then(before, op) =>
      MonitorEvents(before) + if op.Event? && op.eid in MONITOR_EIDS then [op.eid] else []
  }

  /** From s to r the exchange was `ops`; the event monitor's own events were sent only if `own` says so. */
  predicate Says(s: State, r: State, ops: seq<Op>, own: bool) {
    && Extends(r.log, s.log)
    && Exchanges(r.log) == Exchanges(s.log) + ops
    && (own || MonitorEvents(r.log) == MonitorEvents(s.log))
  }

  lemma SaysNothing(s: State)
    ensures Says(s, s, [], false)
  {
  }

  lemma SaysOn(a: State, b: State, c: State, p: seq<Op>, q: seq<Op>, own: bool)
    requires Says(a, b, p, own) && Says(b, c, q, own)
    ensures Says(a, c, p + q, own)
  {
    SilenceRuns.ExtendsOn(c.log, b.log, a.log);
  }

  lemma SaysMore(s: State, r: State, ops: seq<Op>)
    requires Says(s, r, ops, false)
    ensures Says(s, r, ops, true)
  {
  }

  function Own(op: Op): bool {
    op.Event? && op.eid in MONITOR_EIDS
  }

  lemma OpSays(s: State, op: Op)
    requires WF(s) && Fits(s, op)
    ensures Says(s, Do(s, op), if Exchanged(op) then [op] else [], Own(op))
  {
    hide Do, Exchanged;
    DoReset(s, op);
    assert Extends(s.log, s.log);
  }

  lemma EmitSays(s: State, eid: uint16)
    requires WF(s)
    ensures Says(s, Emit(s, eid), if eid in LIMITED then [] else [Event(eid)], eid in MONITOR_EIDS)
  {
    hide Do, Says, LIMITED, MONITOR_EIDS;
    OpSays(s, Event(eid));
  }

  // ---------- Actions ----------

  lemma ResetSays(s: State, eid: uint16, own: bool)
    requires WF(s) && eid !in LIMITED && (eid in MONITOR_EIDS ==> own)
    ensures Says(s, ProcReset(s, eid), [Event(eid)], own)
  {
    hide Do, Emit, Says, WF, Acted;
    EmitOwn(s, eid, own);
    var s1 := Emit(s, eid);
    var c := s1.rst.cds;
    if c.resets < c.max {
      var op := SetCds(Counted, c.resets + 1, c.max);
      OpOwn(s1, op, own);
      OpOwn(Do(s1, op), ResetCfe, own);
      SaysOn(s1, Do(s1, op), ProcReset(s, eid), [], [], own);
    } else {
      EmitOwn(s1, RESET_LIMIT_ERR_EID, own);
    }
    SaysOn(s, s1, ProcReset(s, eid), [Event(eid)], [], own);
    assert [Event(eid)] + [] == [Event(eid)];
  }

  lemma EmitOwn(s: State, eid: uint16, own: bool)
    requires WF(s) && (eid in MONITOR_EIDS ==> own)
    ensures Says(s, Emit(s, eid), if eid in LIMITED then [] else [Event(eid)], own)
  {
    hide Emit, LIMITED, MONITOR_EIDS;
    EmitSays(s, eid);
  }

  lemma OpOwn(s: State, op: Op, own: bool)
    requires WF(s) && Fits(s, op) && (Own(op) ==> own)
    ensures Says(s, Do(s, op), if Exchanged(op) then [op] else [], own)
  {
    hide Do, Exchanged;
    OpSays(s, op);
  }

  /** An operation and a report of it. */
  lemma OpEmitSays(s: State, op: Op, eid: uint16, own: bool)
    requires WF(s) && Fits(s, op) && (Own(op) || eid in MONITOR_EIDS ==> own)
    ensures Says(s, Do(s, op), if Exchanged(op) then [op] else [], own)
    ensures Says(s, Emit(Do(s, op), eid),
                 (if Exchanged(op) then [op] else []) + if eid in LIMITED then [] else [Event(eid)], own)
  {
    hide Do, Emit, Says, WF, Fits, Acted, Exchanged, LIMITED, MONITOR_EIDS;
    OpOwn(s, op, own);
    EmitOwn(Do(s, op), eid, own);
    SaysOn(s, Do(s, op), Emit(Do(s, op), eid), if Exchanged(op) then [op] else [],
           if eid in LIMITED then [] else [Event(eid)], own);
  }

  lemma MessageSays(s: State, action: uint16, eid: uint16, own: bool)
    requires WF(s) && action > ACT_LAST_NONMSG && eid in LIMITED && (eid in MONITOR_EIDS ==> own)
    ensures Says(s, MsgAction(s, action, eid), [], own)
  {
    hide Do, Emit, MsgAction, Says, LIMITED, MONITOR_EIDS, Kept, Acted, Confined, SameMarks, SameTables,
         HalfDisabled, Deeds;
    var m := action - ACT_LAST_NONMSG - 1;
    MessageRuns.MsgActionIs(s, action, eid);
    NothingOwn(s, own);
    var none: seq<Op> := [];
    assert none + none == none;
    if m < s.cfg.msgActs {
      hide WF;
      OpEmitSays(s, Transmit(m), eid, own);
    }
  }

  lemma NothingOwn(s: State, own: bool)
    ensures Says(s, s, [], own)
  {
  }

  /** An application that used up its countdown: the action its entry asks for, with this answer to a restart. */
  function AppTalk(e: AmtEntry, x: AppInput): seq<Op> {
    if e.action == ACT_PROC_RESET then [Event(APPMON_PROC_ERR_EID)]
    else if e.action == ACT_APP_RESTART then
      [Event(APPMON_RESTART_ERR_EID)]
      + (if x.sight.Seen? then [RestartApp(e.name, x.restartOk)] else [])
      + (if x.sight.Seen? && x.restartOk then [] else [Event(APPMON_NOT_RESTARTED_ERR_EID)])
    else if e.action == AMT_ACT_EVENT then [Event(APPMON_FAIL_ERR_EID)]
    else []
  }

  lemma AppActionSays(s: State, e: AmtEntry, x: AppInput)
    requires WF(s) && e.action != ACT_NOACT
    ensures Says(s, AppAction(s, e, x), AppTalk(e, x), false)
  {
    hide Do, Emit, ProcReset, MsgAction, Says, Acted, WF;
    if e.action == ACT_PROC_RESET {
      ResetSays(s, APPMON_PROC_ERR_EID, false);
    } else if e.action == ACT_APP_RESTART {
      RestartSays(s, e, x);
    } else if e.action == AMT_ACT_EVENT {
      EmitOwn(s, APPMON_FAIL_ERR_EID, false);
    } else {
      MessageSays(s, e.action, APPMON_MSGACTS_ERR_EID, false);
    }
  }

  lemma RestartSays(s: State, e: AmtEntry, x: AppInput)
    requires WF(s) && e.action == ACT_APP_RESTART
    ensures Says(s, AppAction(s, e, x), AppTalk(e, x), false)
  {
    hide Do, Emit, Says, Acted, WF;
    var first, lost, call := [Event(APPMON_RESTART_ERR_EID)], APPMON_NOT_RESTARTED_ERR_EID,
                             RestartApp(e.name, x.restartOk);
    var s1 := Emit(s, APPMON_RESTART_ERR_EID);
    EmitOwn(s, APPMON_RESTART_ERR_EID, false);
    if x.sight.Seen? {
      OpEmitSays(s1, call, lost, false);
      SaysOn(s, s1, Do(s1, call), first, [call], false);
      SaysOn(s, s1, Emit(Do(s1, call), lost), first, [call] + [Event(lost)], false);
      assert first + [call] + [] == first + [call];
      assert first + [call] + [Event(lost)] == first + ([call] + [Event(lost)]);
    } else {
      EmitOwn(s1, lost, false);
      SaysOn(s, s1, Emit(s1, lost), first, [Event(lost)], false);
      assert first + [] + [Event(lost)] == first + [Event(lost)];
    }
  }

  /** Restart or delete what the entry names: the call with its answer if it was found, the report unless it was
      found and the call went through. */
  function ManageTalk(x: EntryInput, eid: uint16, call: Op, failed: uint16): seq<Op> {
    (if x.resolved then [Event(eid), call] else []) + if x.resolved && x.callOk then [] else [Event(failed)]
  }

  /** What the entry of a matched event asks for, with these answers. */
  function EventTalk(e: EmtEntry, x: EntryInput): seq<Op> {
    if e.action == ACT_PROC_RESET then [Event(EVENTMON_PROC_ERR_EID)]
    else if e.action == ACT_APP_RESTART then
      ManageTalk(x, EVENTMON_RESTART_ERR_EID, RestartApp(e.name, x.callOk), EVENTMON_NOT_RESTARTED_ERR_EID)
    else if e.action == EMT_ACT_APP_DELETE then
      ManageTalk(x, EVENTMON_DELETE_ERR_EID, DeleteApp(e.name, x.callOk), EVENTMON_NOT_DELETED_ERR_EID)
    else []
  }

  lemma ManageSays(s: State, x: EntryInput, eid: uint16, call: Op, failed: uint16)
    requires WF(s) && (call.RestartApp? || call.DeleteApp?) && eid !in LIMITED && failed !in LIMITED
    ensures Says(s, ManageAction(s, x, eid, call, failed), ManageTalk(x, eid, call, failed), true)
  {
    hide Do, Emit, Says, Acted, WF, LIMITED;
    if x.resolved {
      var s1 := Emit(s, eid);
      EmitOwn(s, eid, true);
      OpEmitSays(s1, call, failed, true);
      SaysOn(s, s1, Do(s1, call), [Event(eid)], [call], true);
      SaysOn(s, s1, Emit(Do(s1, call), failed), [Event(eid)], [call] + [Event(failed)], true);
      assert [Event(eid)] + [call] == [Event(eid), call] + [];
      assert [Event(eid)] + ([call] + [Event(failed)]) == [Event(eid), call] + [Event(failed)];
    } else {
      EmitOwn(s, failed, true);
      assert [] + [Event(failed)] == [Event(failed)];
    }
  }

  lemma EventActionSays(s: State, e: EmtEntry, x: EntryInput)
    requires WF(s) && e.action != ACT_NOACT
    ensures Says(s, EventAction(s, e, x), EventTalk(e, x), true)
  {
    hide ProcReset, ManageAction, MsgAction, ManageTalk, Says, Acted, WF;
    if e.action == ACT_PROC_RESET {
      ResetSays(s, EVENTMON_PROC_ERR_EID, true);
    } else if e.action == ACT_APP_RESTART {
      ManageSays(s, x, EVENTMON_RESTART_ERR_EID, RestartApp(e.name, x.callOk), EVENTMON_NOT_RESTARTED_ERR_EID);
    } else if e.action == EMT_ACT_APP_DELETE {
      ManageSays(s, x, EVENTMON_DELETE_ERR_EID, DeleteApp(e.name, x.callOk), EVENTMON_NOT_DELETED_ERR_EID);
    } else {
      MessageSays(s, e.action, EVENTMON_MSGACTS_ERR_EID, true);
    }
  }

  // ---------- The event monitor ----------

  /** Entry i on event ev: if it names it, the match and its action. */
  function MatchTalk(e: EmtEntry, i: nat, ev: EventMsg, x: EntryInput): seq<Op> {
    if e.action != ACT_NOACT && e.eventId == ev.id && e.name == ev.app
    then [Attempt(ev, i, x.resolved)] + EventTalk(e, x) else []
  }

  /** The first n entries, in table order. */
  function EntriesTalk(emt: seq<EmtEntry>, ev: EventMsg, xs: seq<EntryInput>, n: nat): seq<Op>
    requires n <= |emt| && n <= |xs|
  {
    if n == 0 then [] else EntriesTalk(emt, ev, xs, n - 1) + MatchTalk(emt[n - 1], n - 1, ev, xs[n - 1])
  }

  lemma EventEntrySays(s: State, i: nat, ev: EventMsg, x: EntryInput)
    requires WF(s) && i < s.cfg.events
    ensures Says(s, EventEntry(s, i, ev, x), MatchTalk(s.emt[i], i, ev, x), true)
  {
    hide Do, EventAction, EventTalk, Says, Kept, Acted, Confined, SameMarks, SameTables, HalfDisabled, Deeds;
    NothingOwn(s, true);
    if Matches(s.emt[i], ev) {
      var op := Attempt(ev, i, x.resolved);
      OpOwn(s, op, true);
      EventActionSays(Do(s, op), s.emt[i], x);
      SaysOn(s, Do(s, op), EventEntry(s, i, ev, x), [op], EventTalk(s.emt[i], x), true);
    }
  }

  lemma {:induction false} MonitorEventSays(s: State, ev: EventMsg, xs: seq<EntryInput>, n: nat)
    requires WF(s) && n <= |xs| == s.cfg.events
    ensures Says(s, MonitorEvent(s, ev, xs, n), EntriesTalk(s.emt, ev, xs, n), true)
  {
    hide EventEntry, MatchTalk, Says, SameMarks, SameTables, HalfDisabled;
    NothingOwn(s, true);
    if n > 0 {
      var s1 := MonitorEvent(s, ev, xs, n - 1);
      MonitorEventSays(s, ev, xs, n - 1);
      EventEntrySays(s1, n - 1, ev, xs[n - 1]);
      SaysOn(s, s1, MonitorEvent(s, ev, xs, n), EntriesTalk(s.emt, ev, xs, n - 1),
             MatchTalk(s.emt[n - 1], n - 1, ev, xs[n - 1]), true);
    }
  }

  /** The first n deliveries: each event is monitored, then its matches are acted on. */
  function EventsTalk(emt: seq<EmtEntry>, ds: seq<EventDelivery>, n: nat): seq<Op>
    requires n <= |ds| && forall d | d in ds && d.GotEvent? :: |d.inputs| == |emt|
  {
    if n == 0 then [] else EventsTalk(emt, ds, n - 1) + DeliveryTalk(emt, ds[n - 1])
  }

  function DeliveryTalk(emt: seq<EmtEntry>, d: EventDelivery): seq<Op>
    requires d.GotEvent? ==> |d.inputs| == |emt|
  {
    if d.NullEvent? then [] else [RunEventMon(d.event)] + EntriesTalk(emt, d.event, d.inputs, |emt|)
  }

  lemma OneEventSays(s: State, ev: EventMsg, xs: seq<EntryInput>)
    requires WF(s) && |xs| == s.cfg.events
    ensures Says(s, OneEvent(s, GotEvent(ev, xs)), [RunEventMon(ev)] + EntriesTalk(s.emt, ev, xs, s.cfg.events), true)
  {
    hide Do, MonitorEvent, EntriesTalk, Says, SameMarks, SameTables, HalfDisabled, Deeds;
    var s1 := Do(s, RunEventMon(ev));
    OpOwn(s, RunEventMon(ev), true);
    MonitorEventSays(s1, ev, xs, s.cfg.events);
    SaysOn(s, s1, OneEvent(s, GotEvent(ev, xs)), [RunEventMon(ev)], EntriesTalk(s.emt, ev, xs, s.cfg.events), true);
  }

  /** Whatever is delivered and however restarts and deletions turn out: the calls made, with their answers, and the
      reports of those that could not be made or failed, in order. */
  lemma {:induction false} DrainSays(s: State, ds: seq<EventDelivery>, n: nat)
    requires WF(s) && n <= |ds| && forall d | d in ds :: DeliveryFits(s.cfg, d)
    ensures Says(s, DrainEvents(s, ds, n), EventsTalk(s.emt, ds, n), true)
  {
    hide OneEvent, EntriesTalk, Says, SameMarks, SameTables, HalfDisabled;
    NothingOwn(s, true);
    if n > 0 {
      var s1 := DrainEvents(s, ds, n - 1);
      DrainSays(s, ds, n - 1);
      assert DeliveryFits(s.cfg, ds[n - 1]);
      match ds[n - 1] {
        case NullEvent => NullSays(s1);
        case GotEvent(ev, xs) => OneEventSays(s1, ev, xs);
      }
      SaysOn(s, s1, DrainEvents(s, ds, n), EventsTalk(s.emt, ds, n - 1), DeliveryTalk(s.emt, ds[n - 1]), true);
    }
  }

  lemma NullSays(s: State)
    requires WF(s)
    ensures Says(s, OneEvent(s, NullEvent), [], true)
  {
    hide Says;
    NothingOwn(s, true);
  }

  // ---------- The application monitor ----------

  /** A look that finds the count of the look before, or none, is a miss. */
  predicate Miss(last: uint32, x: Sighting) {
    !x.Seen? || x.count == last
  }

  /** One entry with its countdown and last count: nothing unless it is armed; else the report of an unresolved
      name, the look at exactly what was found, and the action if this miss was the last one allowed. */
  function LookTalk(e: AmtEntry, countdown: uint16, last: uint32, i: nat, x: AppInput): seq<Op> {
    if e.action == ACT_NOACT || countdown == 0 then [] else
      var fired := countdown == 1 && Miss(last, x.sight);
      (if !x.sight.Unresolved? then []
       else [Event(if countdown == e.cycleCount then APPMON_APPNAME_ERR_EID else APPMON_APPNAME_DBG_EID)])
      + [Saw(i, x.sight, fired)]
      + if fired then AppTalk(e, x) else []
  }

  /** The first n entries, in table order. */
  function LooksTalk(amt: seq<AmtEntry>, countdown: seq<uint16>, last: seq<uint32>, xs: seq<AppInput>, n: nat): seq<Op>
    requires n <= |amt| && n <= |countdown| && n <= |last| && n <= |xs|
  {
    if n == 0 then []
    else LooksTalk(amt, countdown, last, xs, n - 1)
         + LookTalk(amt[n - 1], countdown[n - 1], last[n - 1], n - 1, xs[n - 1])
  }

  lemma NameSays(s: State, i: nat, x: AppInput)
    requires WF(s) && i < s.cfg.apps
    ensures Says(s, NameReport(s, i, x),
                 if !x.sight.Unresolved? then []
                 else [Event(if s.app.mon.countdown[i] == s.app.amt[i].cycleCount then APPMON_APPNAME_ERR_EID
                             else APPMON_APPNAME_DBG_EID)], false)
  {
    hide Emit, Says, Acted;
    SaysNothing(s);
    EmitOwn(s, APPMON_APPNAME_ERR_EID, false);
    EmitOwn(s, APPMON_APPNAME_DBG_EID, false);
  }

  lemma EntrySays(s: State, i: nat, x: AppInput)
    requires WF(s) && i < s.cfg.apps
    ensures Says(s, AppEntry(s, i, x),
                 LookTalk(s.app.amt[i], s.app.mon.countdown[i], s.app.mon.last[i], i, x), false)
  {
    hide Do, Emit, NameReport, AppAction, AppTalk, Says, Acted, Confined, SameMarks, SameTables, HalfDisabled, Deeds;
    var e := s.app.amt[i];
    SaysNothing(s);
    if e.action != ACT_NOACT && s.app.mon.countdown[i] != 0 {
      var name := if !x.sight.Unresolved? then []
                  else [Event(if s.app.mon.countdown[i] == e.cycleCount then APPMON_APPNAME_ERR_EID
                              else APPMON_APPNAME_DBG_EID)];
      NameSays(s, i, x);
      var s1 := NameReport(s, i, x);
      var op := Saw(i, x.sight, AppMonitor.Expires(s1.app.mon, i, x.sight));
      OpOwn(s1, op, false);
      var s2 := Do(s1, op);
      SaysOn(s, s1, s2, name, [op], false);
      if op.fired {
        AppActionSays(s2, e, x);
        SaysOn(s, s2, AppEntry(s, i, x), name + [op], AppTalk(e, x), false);
      } else {
        assert name + [op] + [] == name + [op];
      }
    }
  }

  lemma {:induction false} MonitorSays(s: State, xs: seq<AppInput>, n: nat)
    requires WF(s) && n <= |xs| == s.cfg.apps
    ensures Says(s, MonitorApps(s, xs, n), LooksTalk(s.app.amt, s.app.mon.countdown, s.app.mon.last, xs, n), false)
  {
    hide AppEntry, LookTalk, Says, SameMarks, SameTables, HalfDisabled, Deeds;
    SaysNothing(s);
    if n > 0 {
      var s1 := MonitorApps(s, xs, n - 1);
      MonitorSays(s, xs, n - 1);
      SilenceRuns.MonitorSpares(s, xs, n - 1, n - 1);
      EntrySays(s1, n - 1, xs[n - 1]);
      SaysOn(s, s1, MonitorApps(s, xs, n), LooksTalk(s.app.amt, s.app.mon.countdown, s.app.mon.last, xs, n - 1),
             LookTalk(s.app.amt[n - 1], s.app.mon.countdown[n - 1], s.app.mon.last[n - 1], n - 1, xs[n - 1]), false);
    }
  }
}
