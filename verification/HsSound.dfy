/** Every step of HS, whatever the environment answers, extends a lawful trace to a lawful trace, so what
    is proved of lawful traces holds of everything HS does. */
module HsSound {
  import opened HsTypes
  import opened CriticalData
  import opened HsState
  import opened HsSteps
  import AppMonitor
  import Utilization

  /** A reachable state after start-up, with no processor reset half done and a checked reset record. */
  predicate Live(s: State) {
    && WF(s) && Reachable(s) && !Counting(s.log) && !Starting(s.log) && Consistent(s.rst.cds)
    && !Owing(s)
  }

  /** As `Live`, and no action that a table entry asked for is still to be carried out. */
  predicate Sound(s: State) {
    Live(s) && !Due(s)
  }

  /** Message actions are usable only if their table was acquired in this cycle. */
  predicate MsgsOk(s: State) {
    s.loads.msgActs ==> TableOk(s.log, MsgActsTable)
  }

  predicate Ready(s: State) {
    Sound(s) && MsgsOk(s) && !Sampled(s.log)
  }

  /** Between cycles. */
  predicate Resting(s: State) {
    Sound(s) && !Sampled(s.log)
  }

  /** Operations that leave nothing half done. */
  predicate Plain(op: Op) {
    && !op.Boot? && !Counts(op) && !op.CdsUpset? && !op.TakeSample?
    && !Calls(op) && !Acts(op)
  }

  /** Outside an action whatever is not an action itself may come next, and leaves none due. */
  lemma InTurnWhenIdle(s: State, op: Op)
    requires WF(s) && Fits(s, op) && !Due(s) && !Acts(op) && !Counts(op)
    ensures InTurn(s, op)
    ensures !Calls(op) ==> !Due(Do(s, op))
  {
    hide MarksOf, TableOk, Sampled, HalfDisabled, Deeds;
    hide CpuEffect, ModesEffect, BusEffect, CountEffect, AliveEffect;
    var r := Do(s, op);
    assert r.log == Then(s.log, op);
    if !Calls(op) {
      assert Acting(r.log) == if op.Event? || op.CdsUpset? then Acting(s.log) else None;
    }
  }

  lemma Step(s: State, op: Op)
    requires Sound(s) && Can(s, op) && Plain(op)
    ensures Sound(Do(s, op))
    ensures op.GotTable? ==> TableOk(Do(s, op).log, op.table) == op.ok
  {
    hide Due, InTurn;
    Reach(s, op);
    InTurnWhenIdle(s, op);
  }

  /** Operations that the source does not guard. */
  predicate Free(op: Op) {
    || (op.Event? && op.eid !in ANSWERS) || op.Subscribe? || op.Unsubscribe? || op.Switch? || op.CmdAccepted?
    || op.CmdRejected? || op.ClearCounters? || op.SendHk? || op.RefreshAppMon?
  }

  lemma FreeCan(s: State, op: Op)
    requires Sound(s) && Fits(s, op) && Free(op)
    ensures Can(s, op)
  {
    hide Reachable, Due, Owing, InTurn, Counting, Starting, TableOk, Sampled, AppMonitor.Expires, WF, Confined,
         SameMarks, SameTables, HalfDisabled, Deeds;
    InTurnWhenIdle(s, op);
  }

  lemma FreeStep(s: State, op: Op)
    requires WF(s) && Ready(s) && Fits(s, op) && Free(op)
    ensures Ready(Do(s, op))
  {
    hide Do, Can, MarksOf, HalfDisabled, Deeds, Sound, WF;
    FreeCan(s, op);
    Step(s, op);
  }

  lemma RestingStep(s: State, op: Op)
    requires WF(s) && Resting(s) && Fits(s, op) && Free(op)
    ensures Resting(Do(s, op))
  {
    hide Do, Can, MarksOf, HalfDisabled, Deeds, Sound;
    FreeCan(s, op);
    Step(s, op);
  }

  lemma EmitSound(s: State, eid: uint16)
    requires Sound(s) && eid !in ANSWERS
    ensures Sound(Emit(s, eid))
  {
    hide MarksOf, HalfDisabled, Deeds, Reachable, Due, InTurn;
    InTurnWhenIdle(s, Event(eid));
    Step(s, Event(eid));
  }

  // ---------- Actions ----------

  /** HS has been called on to do `o` and has not done it yet. */
  predicate Called(s: State, o: Order) {
    Live(s) && MsgsOk(s) && !Sampled(s.log) && Pending(s) == o
  }

  /** A report leaves what is pending unless it is the report that was asked for. */
  lemma PendingAfter(s: State, eid: uint16)
    requires !Counting(s.log)
    ensures var r := s.(log := Then(s.log, Event(eid)));
            Pending(r) == if Pending(s) == Report(eid) then Nothing else Pending(s)
  {
    hide AppOrder, EventOrder;
    var r := s.(log := Then(s.log, Event(eid)));
    assert Acting(r.log) == Acting(s.log) && Tried(r.log) == Tried(s.log);
    assert forall e: uint16 :: Reported(r.log, e) <==> e == eid || Reported(s.log, e);
  }

  lemma StaysLive(s: State, eid: uint16)
    requires Live(s) && MsgsOk(s) && !Sampled(s.log) && Can(s, Event(eid))
    ensures var r := Do(s, Event(eid)); Live(r) && MsgsOk(r) && !Sampled(r.log)
  {
    hide Do, Can, Consistent, MarksOf, HalfDisabled, Deeds;
    Reach(s, Event(eid));
    LogOnly(s, Event(eid));
  }

  lemma EventCan(s: State, eid: uint16)
    requires Live(s) && (eid in ANSWERS ==> Pending(s) == Report(eid))
    ensures Can(s, Event(eid))
  {
    hide Reachable, Pending, Granted, TableOk, Sampled, AppMonitor.Expires, Consistent;
  }

  /** An announcement leaves the call standing. */
  lemma ReportCalled(s: State, eid: uint16, o: Order)
    requires Called(s, o) && eid !in ANSWERS && o != Report(eid)
    ensures Called(Emit(s, eid), o) && LastReport(Emit(s, eid).log) == Some(eid)
    ensures Emit(s, eid).msg == s.msg && Emit(s, eid).rst == s.rst
  {
    hide Do, Can, Pending, Consistent, Reachable, Owing, Starting, TableOk, Sampled, SameMarks, SameTables,
         HalfDisabled, Deeds, ANSWERS;
    EventCan(s, eid);
    StaysLive(s, eid);
    LogOnly(s, Event(eid));
    PendingAfter(s, eid);
  }

  /** A report that was asked for. */
  lemma Answered(s: State, eid: uint16)
    requires Called(s, Report(eid))
    ensures Ready(Emit(s, eid))
  {
    hide Do, Can, Pending, Consistent, Reachable, Owing, Starting, TableOk, Sampled, SameMarks, SameTables,
         HalfDisabled, Deeds, ANSWERS;
    EventCan(s, eid);
    StaysLive(s, eid);
    LogOnly(s, Event(eid));
    PendingAfter(s, eid);
  }

  lemma NotCounting(s: State, o: Order)
    requires Called(s, o)
    ensures !Counting(s.log)
  {
  }

  /** A call that asks for nothing, or is not granted, leaves HS ready. */
  lemma Refused(s: State, o: Order)
    requires Called(s, o) && !Granted(s, o)
    ensures Ready(s)
  {
  }

  /** Upsets and the counting of a reset leave what is pending. */
  lemma PendingKept(s: State, r: State, op: Op)
    requires r.log == Then(s.log, op) && r.app == s.app && r.emt == s.emt
    requires if op.CdsUpset? then r.rst.cds == s.rst.cds else Counts(op) && Pending(s).Reset?
    ensures Pending(r) == Pending(s)
  {
    hide AppOrder, EventOrder;
    assert Acting(r.log) == Acting(s.log) && Tried(r.log) == Tried(s.log);
    assert forall e: uint16 :: Reported(r.log, e) <==> Reported(s.log, e);
  }

  lemma GrantedAs(s: State, r: State)
    requires WF(s) && WF(r) && s.cfg == r.cfg && s.loads == r.loads && s.msg == r.msg
    ensures forall o :: Granted(s, o) <==> Granted(r, o)
  {
  }

  /** A restart, deletion or send that is not a failure ends the call; a failure leaves its report to be sent. */
  lemma PendingCarried(s: State, op: Op, o: Order)
    requires Pending(s) == o && (o.Restart? || o.Delete? || o.Send?) && Performs(op, o) && !Counting(s.log)
    ensures var r := s.(log := Then(s.log, op)); Pending(r) == if Fails(op) then Report(o.lost) else Nothing
  {
    hide AppOrder, EventOrder;
    var r := s.(log := Then(s.log, op));
    if Fails(op) {
      assert Acting(r.log) == Acting(s.log) && Tried(r.log) && !Reported(r.log, o.lost);
    } else {
      assert Acting(r.log) == None;
    }
  }

  lemma PendingView(s: State, r: State)
    requires s.app == r.app && s.emt == r.emt && s.rst == r.rst && s.log == r.log
    ensures Pending(s) == Pending(r)
  {
  }

  lemma Carried(s: State, op: Op, o: Order)
    requires Called(s, o) && (o.Restart? || o.Delete? || o.Send?) && Performs(op, o) && Can(s, op)
    ensures if Fails(op) then Called(Do(s, op), Report(o.lost)) else Ready(Do(s, op))
  {
    hide MarksOf, HalfDisabled, Deeds, Pending;
    hide EmtEffect, CpuEffect, ModesEffect, LoadsEffect, BusEffect, CountEffect, AliveEffect;
    Reach(s, op);
    var r := Do(s, op);
    assert r.log == Then(s.log, op);
    PendingCarried(s, op, o);
    PendingView(s.(log := Then(s.log, op)), r);
  }

  /** A reset was counted in the store and is about to be issued. */
  predicate HalfReset(s: State) {
    && WF(s) && Reachable(s) && Counting(s.log) && !Starting(s.log) && Consistent(s.rst.cds) && !Owing(s)
    && MsgsOk(s) && !Sampled(s.log) && Pending(s).Reset?
  }

  lemma CountReset(s: State, o: Order)
    requires WF(s) && Called(s, o) && o.Reset? && LastReport(s.log) == Some(o.eid)
    requires s.rst.cds.resets < s.rst.cds.max
    ensures HalfReset(Do(s, SetCds(Counted, s.rst.cds.resets + 1, s.rst.cds.max)))
  {
    hide Do, Confined, SameMarks, Reachable, Consistent, Sealed;
    var op := SetCds(Counted, s.rst.cds.resets + 1, s.rst.cds.max);
    Reach(s, op);
    ResetOnly(s, op);
    SealedConsistent(op.resets, op.max);
    assert Acting(Do(s, op).log) == Acting(s.log);
    assert LastSample(Do(s, op).log) == None;
  }

  lemma IssueReset(s: State)
    requires HalfReset(s)
    ensures Ready(Do(s, ResetCfe))
  {
    hide Do, Confined, SameMarks, Reachable, Consistent, Granted;
    Reach(s, ResetCfe);
    ResetOnly(s, ResetCfe);
    assert Acting(Do(s, ResetCfe).log) == None;
    assert LastSample(Do(s, ResetCfe).log) == None;
    NothingGranted(Do(s, ResetCfe));
  }

  lemma NothingGranted(s: State)
    requires WF(s)
    ensures !Granted(s, Nothing)
  {
  }

  /** Counting a reset and issuing it belong together. */
  lemma CountAndReset(s: State, o: Order)
    requires WF(s) && Called(s, o) && o.Reset? && LastReport(s.log) == Some(o.eid)
    requires s.rst.cds.resets < s.rst.cds.max
    ensures Ready(Do(Do(s, SetCds(Counted, s.rst.cds.resets + 1, s.rst.cds.max)), ResetCfe))
  {
    hide Do, Called, Ready, HalfReset;
    CountReset(s, o);
    IssueReset(Do(s, SetCds(Counted, s.rst.cds.resets + 1, s.rst.cds.max)));
  }

  lemma ProcResetSound(s: State, eid: uint16)
    requires WF(s) && Called(s, Capped(s, Reset(eid))) && !Counting(s.log) && eid !in ANSWERS
    ensures Ready(ProcReset(s, eid))
  {
    hide WF, Confined, Do, Emit, Called, Ready, HalfDisabled, Deeds, SameMarks, SameTables, Acted, Counting;
    var o := Capped(s, Reset(eid));
    ReportCalled(s, eid, o);
    var s1 := Emit(s, eid);
    if s1.rst.cds.resets < s1.rst.cds.max {
      CountAndReset(s1, o);
    } else {
      Answered(s1, RESET_LIMIT_ERR_EID);
    }
  }

  lemma MsgActionSound(s: State, action: uint16, eid: uint16)
    requires action > ACT_LAST_NONMSG && eid !in ANSWERS && Called(s, Send(action - ACT_LAST_NONMSG - 1))
    ensures Ready(MsgAction(s, action, eid))
  {
    hide MarksOf, HalfDisabled, Deeds, Reachable, Do, Confined, SameMarks, SameTables;
    var m := action - ACT_LAST_NONMSG - 1;
    if Granted(s, Send(m)) {
      Carried(s, Transmit(m), Send(m));
      ReadyEmit(Do(s, Transmit(m)), eid);
    } else {
      Refused(s, Send(m));
    }
  }

  /** A restart or deletion, announced by its own event. */
  lemma CallSound(s: State, o: Order, call: Op)
    requires Called(s, o) && (o.Restart? || o.Delete?) && Performs(call, o) && o.eid !in ANSWERS
    ensures var r := Do(Emit(s, o.eid), call); if Fails(call) then Called(r, Report(o.lost)) else Ready(r)
  {
    hide MarksOf, HalfDisabled, Deeds, Reachable, Do, Emit;
    ReportCalled(s, o.eid, o);
    Carried(Emit(s, o.eid), call, o);
  }

  lemma AppActionSound(s: State, e: AmtEntry, x: AppInput)
    requires WF(s) && Called(s, Capped(s, AppOrder(e, x.sight.Seen?))) && e.action != ACT_NOACT
    ensures Ready(AppAction(s, e, x))
  {
    hide MarksOf, HalfDisabled, Deeds, Reachable, Do, Emit, ProcReset, MsgAction, Called, Ready;
    var o := AppOrder(e, x.sight.Seen?);
    NotCounting(s, Capped(s, o));
    if e.action == ACT_PROC_RESET {
      ProcResetSound(s, APPMON_PROC_ERR_EID);
    } else if e.action == ACT_APP_RESTART {
      var s1 := Emit(s, APPMON_RESTART_ERR_EID);
      var call := RestartApp(e.name, x.restartOk);
      if x.sight.Seen? {
        CallSound(s, o, call);
        if !x.restartOk {
          Answered(Do(s1, call), APPMON_NOT_RESTARTED_ERR_EID);
        }
      } else {
        ReportCalled(s, APPMON_RESTART_ERR_EID, o);
        Answered(s1, APPMON_NOT_RESTARTED_ERR_EID);
      }
    } else if e.action == AMT_ACT_EVENT {
      Answered(s, APPMON_FAIL_ERR_EID);
    } else {
      MsgActionSound(s, e.action, APPMON_MSGACTS_ERR_EID);
    }
  }

  /** A look that used up its countdown, or a matching entry, calls on HS to do what the entry asks for. */
  lemma CallMade(s: State, op: Op)
    requires Ready(s) && Can(s, op) && Calls(op)
    ensures Called(Do(s, op), Asked(s, op)) && Asked(s, op) == Asked(Do(s, op), op)
  {
    hide MarksOf, HalfDisabled, Deeds;
    hide EmtEffect, MsgEffect, CpuEffect, ModesEffect, LoadsEffect, ResetEffect, BusEffect, CountEffect, AliveEffect;
    Reach(s, op);
    var r := Do(s, op);
    assert r.log == Then(s.log, op);
    assert Acting(r.log) == Some(op);
  }

  lemma LookMade(s: State, i: nat, x: AppInput)
    requires WF(s) && Ready(s) && TableOk(s.log, AppMonTable)
    requires i < s.cfg.apps && s.app.mon.countdown[i] != 0 && s.app.amt[i].action != ACT_NOACT
    ensures var fired := AppMonitor.Expires(s.app.mon, i, x.sight);
            var r := Do(s, Saw(i, x.sight, fired));
            if fired then Called(r, Capped(r, AppOrder(s.app.amt[i], x.sight.Seen?))) else Ready(r)
  {
    hide MarksOf, HalfDisabled, Deeds, Reachable, Do, Due, InTurn, AppMonitor.Expires, AppOrder;
    var op := Saw(i, x.sight, AppMonitor.Expires(s.app.mon, i, x.sight));
    InTurnWhenIdle(s, op);
    if op.fired {
      CallMade(s, op);
    } else {
      Step(s, op);
    }
  }

  lemma AppEntrySound(s: State, i: nat, x: AppInput)
    requires WF(s) && Ready(s) && i < s.cfg.apps && TableOk(s.log, AppMonTable)
    ensures Ready(AppEntry(s, i, x))
  {
    hide Do, Emit, Ready, Called, AppAction, AppMonitor.Expires, AppOrder, MarksOf, TableOk, Sampled, HalfDisabled,
         Deeds;
    var e := s.app.amt[i];
    if e.action != ACT_NOACT && s.app.mon.countdown[i] != 0 {
      ReadyEmit(s, APPMON_APPNAME_ERR_EID);
      ReadyEmit(s, APPMON_APPNAME_DBG_EID);
      var s1 := NameReport(s, i, x);
      LookMade(s1, i, x);
      var fired := AppMonitor.Expires(s1.app.mon, i, x.sight);
      if fired {
        AppActionSound(Do(s1, Saw(i, x.sight, fired)), e, x);
      }
    }
  }

  lemma {:induction false} MonitorAppsSound(s: State, xs: seq<AppInput>, n: nat)
    requires WF(s) && Ready(s) && n <= |xs| == s.cfg.apps && TableOk(s.log, AppMonTable)
    ensures Ready(MonitorApps(s, xs, n))
  {
    hide WF, AppEntry, Ready, SameMarks, TableOk, Sampled;
    if n > 0 {
      MonitorAppsSound(s, xs, n - 1);
      AppEntrySound(MonitorApps(s, xs, n - 1), n - 1, xs[n - 1]);
    }
  }

  lemma ManageSound(s: State, x: EntryInput, o: Order, eid: uint16, call: Op, failed: uint16)
    requires WF(s) && Called(s, o) && (call.RestartApp? || call.DeleteApp?) && call.ok == x.callOk && eid !in ANSWERS
    requires if x.resolved then (o.Restart? || o.Delete?) && Performs(call, o) && o.eid == eid && o.lost == failed
             else o == Report(failed)
    ensures Ready(ManageAction(s, x, eid, call, failed))
  {
    hide MarksOf, HalfDisabled, Deeds, Reachable, Do, Emit, Called, Ready;
    if x.resolved {
      CallSound(s, o, call);
      if !x.callOk {
        Answered(Do(Emit(s, eid), call), failed);
      }
    } else {
      Answered(s, failed);
    }
  }

  lemma EventActionSound(s: State, e: EmtEntry, x: EntryInput)
    requires WF(s) && Called(s, Capped(s, EventOrder(e, x.resolved))) && e.action != ACT_NOACT
    ensures Ready(EventAction(s, e, x))
  {
    hide MarksOf, HalfDisabled, Deeds, Reachable, ProcReset, ManageAction, MsgAction, Called, Ready;
    var o := EventOrder(e, x.resolved);
    NotCounting(s, Capped(s, o));
    if e.action == ACT_PROC_RESET {
      ProcResetSound(s, EVENTMON_PROC_ERR_EID);
    } else if e.action == ACT_APP_RESTART {
      ManageSound(s, x, o, EVENTMON_RESTART_ERR_EID, RestartApp(e.name, x.callOk), EVENTMON_NOT_RESTARTED_ERR_EID);
    } else if e.action == EMT_ACT_APP_DELETE {
      ManageSound(s, x, o, EVENTMON_DELETE_ERR_EID, DeleteApp(e.name, x.callOk), EVENTMON_NOT_DELETED_ERR_EID);
    } else {
      MsgActionSound(s, e.action, EVENTMON_MSGACTS_ERR_EID);
    }
  }

  lemma EventEntrySound(s: State, i: nat, ev: EventMsg, x: EntryInput)
    requires Ready(s) && i < s.cfg.events && TableOk(s.log, EventMonTable)
    ensures Ready(EventEntry(s, i, ev, x))
  {
    hide MarksOf, HalfDisabled, Deeds, Reachable, Do, Due, EventAction;
    if Matches(s.emt[i], ev) {
      var op := Attempt(ev, i, x.resolved);
      InTurnWhenIdle(s, op);
      CallMade(s, op);
      EventActionSound(Do(s, op), s.emt[i], x);
    }
  }

  lemma {:induction false} MonitorEventSound(s: State, ev: EventMsg, xs: seq<EntryInput>, n: nat)
    requires Ready(s) && n <= |xs| == s.cfg.events && TableOk(s.log, EventMonTable)
    ensures Ready(MonitorEvent(s, ev, xs, n))
  {
    hide EventEntry, Reachable;
    if n > 0 {
      MonitorEventSound(s, ev, xs, n - 1);
      EventEntrySound(MonitorEvent(s, ev, xs, n - 1), n - 1, ev, xs[n - 1]);
    }
  }

  lemma OneEventSound(s: State, d: EventDelivery)
    requires Ready(s) && s.modes.eventMon && TableOk(s.log, EventMonTable) && DeliveryFits(s.cfg, d)
    ensures Ready(OneEvent(s, d))
  {
    hide MarksOf, HalfDisabled, Deeds, Reachable;
    if d.GotEvent? {
      Step(s, RunEventMon(d.event));
      MonitorEventSound(Do(s, RunEventMon(d.event)), d.event, d.inputs, s.cfg.events);
    }
  }

  lemma {:induction false} DrainEventsSound(s: State, ds: seq<EventDelivery>, n: nat)
    requires Ready(s) && s.modes.eventMon && TableOk(s.log, EventMonTable)
    requires n <= |ds| && forall d | d in ds :: DeliveryFits(s.cfg, d)
    ensures Ready(DrainEvents(s, ds, n))
  {
    hide OneEvent, Reachable;
    if n > 0 {
      DrainEventsSound(s, ds, n - 1);
      OneEventSound(DrainEvents(s, ds, n - 1), ds[n - 1]);
    }
  }

  /** A sample is the last thing that happened; it is owed an event exactly if it completed a streak. */
  lemma SampleTaken(s: State, x: Utilization.Sample)
    requires Sound(s) && Can(s, TakeSample(x))
    ensures var r := Do(s, TakeSample(x));
            && Reachable(r) && !Counting(r.log) && !Starting(r.log) && r.rst == s.rst && r.cpu.cycle == s.cpu.cycle
            && Sampled(r.log) && !Due(r) && (Owing(r) <==> Utilization.Alarm(s.cfg, s.cpu.util.hogTime, x))
  {
    hide Utilization.Step, Due, InTurn;
    InTurnWhenIdle(s, TakeSample(x));
    Reach(s, TakeSample(x));
    Utilization.StepHogTime(s.cfg, s.cpu.util, x);
    assert LastSample(Do(s, TakeSample(x)).log) == Some(x);
  }

  lemma MonitorUtilSound(s: State, reading: int32)
    requires Ready(s) && s.cpu.cycle == 0
    ensures Sound(MonitorUtil(s, reading)) && MsgsOk(MonitorUtil(s, reading)) && Sampled(MonitorUtil(s, reading).log)
    ensures MonitorUtil(s, reading).cpu.cycle == 0
  {
    hide MarksOf, HalfDisabled, Deeds, Reachable, Do, Can, Owing, Due, Utilization.Alarm;
    var x := Utilization.Sample(reading, s.modes.cpuHog);
    SampleCan(s, x);
    SampleTaken(s, x);
    var s1 := Do(s, TakeSample(x));
    if Utilization.Alarm(s.cfg, s.cpu.util.hogTime, x) {
      HogCan(s1);
      Reach(s1, HogEvent);
      AfterHogEvent(s1);
    }
  }

  lemma SampleCan(s: State, x: Utilization.Sample)
    requires Ready(s) && s.cpu.cycle == 0 && x.hog == s.modes.cpuHog
    ensures Can(s, TakeSample(x))
  {
    hide Due, InTurn, Reachable;
    InTurnWhenIdle(s, TakeSample(x));
  }

  lemma HogCan(s: State)
    requires WF(s) && !Due(s) && !Counting(s.log) && Owing(s)
    ensures Can(s, HogEvent)
  {
    hide Due, InTurn, Owing;
    InTurnWhenIdle(s, HogEvent);
  }

  lemma AfterHogEvent(s: State)
    requires WF(s)
    ensures var r := Do(s, HogEvent);
            && !Owing(r) && !Due(r) && !Counting(r.log) && (Starting(r.log) ==> Starting(s.log))
            && r.rst == s.rst && r.cpu == s.cpu
  {
    assert LastSample(Do(s, HogEvent).log) == None && Acting(Do(s, HogEvent).log) == None;
  }

  lemma UtilPhaseSound(s: State, reading: int32)
    requires Ready(s)
    ensures Ready(UtilPhase(s, reading))
  {
    hide MarksOf, HalfDisabled, Deeds, Reachable, MonitorUtil;
    if s.cpu.cycle == 0 {
      MonitorUtilSound(s, reading);
      Step(MonitorUtil(s, reading), UtilTick);
    } else {
      Step(s, UtilTick);
    }
  }

  // ---------- Commands ----------

  lemma AcceptSound(s: State, op: Op, eid: uint16)
    requires WF(s) && Ready(s) && Plain(op) && eid !in ANSWERS && (op.Switch? || op.SetCds?)
    requires Can(Do(s, CmdAccepted), op)
    ensures Ready(Emit(Do(Do(s, CmdAccepted), op), eid))
  {
    hide Do, Emit, Reachable, Due, InTurn, Owing;
    FreeStep(s, CmdAccepted);
    var s1 := Do(s, CmdAccepted);
    Step(s1, op);
    ReadyEmit(Do(s1, op), eid);
  }

  lemma EnableAppMonSound(s: State)
    requires WF(s) && Ready(s)
    ensures Ready(EnableAppMon(s))
  {
    hide Do, Emit, Ready;
    FreeStep(s, CmdAccepted);
    var s1 := Do(s, CmdAccepted);
    FreeStep(s1, RefreshAppMon(s1.app.amt));
    var s2 := Do(s1, RefreshAppMon(s1.app.amt));
    FreeStep(s2, Switch(AppMonMode, true));
    ReadyEmit(Do(s2, Switch(AppMonMode, true)), ENABLE_APPMON_DBG_EID);
  }

  lemma BusOpSound(s: State, op: Op, eid: uint16)
    requires WF(s) && Ready(s) && eid !in ANSWERS && (op.Subscribe? || op.Unsubscribe?)
    ensures Ready(Do(s, op)) && Ready(Emit(Do(s, op), eid))
  {
    hide Do, Emit, Ready;
    FreeStep(s, op);
    ReadyEmit(Do(s, op), eid);
  }

  lemma RejectSound(s: State)
    requires WF(s) && Ready(s)
    ensures Ready(Reject(s))
  {
    hide Do, Ready;
    FreeStep(s, CmdRejected);
  }

  lemma SubscribeBothSound(s: State, long: bool, short: bool, longEid: uint16, shortEid: uint16)
    requires WF(s) && Ready(s) && longEid !in ANSWERS && shortEid !in ANSWERS
    ensures Ready(SubscribeBoth(s, long, short, longEid, shortEid))
  {
    hide MarksOf, HalfDisabled, Deeds, Reachable, Ready, Emit, Do;
    BusOpSound(s, Subscribe(LongFormat, long), longEid);
    BusOpSound(Do(s, Subscribe(LongFormat, long)), Subscribe(ShortFormat, short), shortEid);
  }

  lemma UnsubscribeBothSound(s: State, long: bool, short: bool)
    requires WF(s) && Ready(s)
    ensures Ready(UnsubscribeBoth(s, long, short))
  {
    hide MarksOf, HalfDisabled, Deeds, Reachable, Ready, Emit, Do;
    BusOpSound(s, Unsubscribe(LongFormat, long), EVENTMON_LONG_UNSUB_EID);
    BusOpSound(Do(s, Unsubscribe(LongFormat, long)), Unsubscribe(ShortFormat, short), EVENTMON_SHORT_UNSUB_EID);
  }

  lemma EnableEventMonSound(s: State, long: bool, short: bool)
    requires WF(s) && Ready(s)
    ensures Ready(EnableEventMon(s, long, short))
  {
    hide Ready, SubscribeBoth, SwitchCmd, Reject;
    SubscribeBothSound(s, long, short, EVENTMON_LONG_SUB_EID, EVENTMON_SHORT_SUB_EID);
    var s1 := SubscribeBoth(s, long, short, EVENTMON_LONG_SUB_EID, EVENTMON_SHORT_SUB_EID);
    SwitchCmdSound(if s.modes.eventMon then s else s1, EventMonMode, true, ENABLE_EVENTMON_DBG_EID);
    RejectSound(s1);
  }

  lemma DisableEventMonSound(s: State, long: bool, short: bool)
    requires WF(s) && Ready(s)
    ensures Ready(DisableEventMon(s, long, short))
  {
    hide Ready, UnsubscribeBoth, SwitchCmd, Reject;
    UnsubscribeBothSound(s, long, short);
    var s1 := UnsubscribeBoth(s, long, short);
    SwitchCmdSound(if s.modes.eventMon then s1 else s, EventMonMode, false, DISABLE_EVENTMON_DBG_EID);
    RejectSound(s1);
  }

  lemma CountSound(s: State, op: Op, eid: uint16)
    requires WF(s) && Ready(s) && eid !in ANSWERS && (op.CmdAccepted? || op.ClearCounters?)
    ensures Ready(CountCmd(s, op, eid))
  {
    hide Do, Emit, Ready;
    FreeStep(s, op);
    ReadyEmit(Do(s, op), eid);
  }

  lemma SwitchCmdSound(s: State, mode: Mode, on: bool, eid: uint16)
    requires WF(s) && Ready(s) && eid !in ANSWERS
    ensures Ready(SwitchCmd(s, mode, on, eid))
  {
    hide MarksOf, HalfDisabled, Deeds, Reachable, Confined, SameMarks, SameTables;
    AcceptSound(s, Switch(mode, on), eid);
  }

  lemma SetCdsCmdSound(s: State, why: CdsReason, resets: uint16, max: uint16, eid: uint16)
    requires WF(s) && Ready(s) && eid !in ANSWERS
    requires if why.Cleared? then resets == 0 && max == s.rst.cds.max else why.Limited? && resets == s.rst.cds.resets
    ensures Ready(SetCdsCmd(s, why, resets, max, eid))
  {
    hide MarksOf, HalfDisabled, Deeds, Reachable;
    AcceptSound(s, SetCds(why, resets, max), eid);
  }

  lemma ExecuteSound(s: State, d: CmdDelivery)
    requires WF(s) && Ready(s) && d.GotCmd? && d.msg.code <= CC_DISABLE_CPU_HOG
    ensures Ready(Execute(s, d))
  {
    hide MarksOf, HalfDisabled, Deeds, Reachable, Ready, CountCmd, EnableEventMon, DisableEventMon, EnableAppMon,
         SwitchCmd, SetCdsCmd;
    var code := d.msg.code;
    if code == CC_NOOP {
      CountSound(s, CmdAccepted, NOOP_INF_EID);
    } else if code == CC_RESET {
      CountSound(s, ClearCounters, RESET_INF_EID);
    } else if code == CC_ENABLE_APP_MON {
      EnableAppMonSound(s);
    } else if code == CC_DISABLE_APP_MON {
      SwitchCmdSound(s, AppMonMode, false, DISABLE_APPMON_DBG_EID);
    } else if code == CC_ENABLE_EVENT_MON {
      EnableEventMonSound(s, d.long, d.short);
    } else if code == CC_DISABLE_EVENT_MON {
      DisableEventMonSound(s, d.long, d.short);
    } else if code == CC_ENABLE_ALIVENESS {
      SwitchCmdSound(s, AlivenessMode, true, ENABLE_ALIVENESS_DBG_EID);
    } else if code == CC_DISABLE_ALIVENESS {
      SwitchCmdSound(s, AlivenessMode, false, DISABLE_ALIVENESS_DBG_EID);
    } else if code == CC_RESET_RESETS_PERFORMED {
      SetCdsCmdSound(s, Cleared, 0, s.rst.cds.max, RESET_RESETS_DBG_EID);
    } else if code == CC_SET_MAX_RESETS {
      SetCdsCmdSound(s, Limited, s.rst.cds.resets, d.msg.maxResets, SET_MAX_RESETS_DBG_EID);
    } else if code == CC_ENABLE_CPU_HOG {
      SwitchCmdSound(s, CpuHogMode, true, ENABLE_CPUHOG_DBG_EID);
    } else {
      SwitchCmdSound(s, CpuHogMode, false, DISABLE_CPUHOG_DBG_EID);
    }
  }

  lemma ReadyEmit(s: State, eid: uint16)
    requires WF(s) && Ready(s) && eid !in ANSWERS
    ensures Ready(Emit(s, eid))
  {
    hide Do, Ready;
    FreeStep(s, Event(eid));
  }

  lemma HkSound(s: State)
    requires WF(s) && Ready(s)
    ensures Ready(Do(s, SendHk))
  {
    hide Do, Ready;
    FreeStep(s, SendHk);
  }

  lemma OneCmdSound(s: State, d: CmdDelivery)
    requires WF(s) && Ready(s)
    ensures Ready(OneCmd(s, d))
  {
    hide MarksOf, HalfDisabled, Deeds, Reachable, Execute, Emit, Do, Ready;
    if d.GotCmd? {
      match d.msg.kind
      case HkRequest =>
        ReadyEmit(s, HKREQ_LEN_ERR_EID);
        HkSound(s);
      case Command =>
        if d.msg.code > CC_DISABLE_CPU_HOG {
          ReadyEmit(s, CC_ERR_EID);
          RejectSound(Emit(s, CC_ERR_EID));
        } else if d.msg.length != ExpectedLength(s.cfg, d.msg.code) {
          ReadyEmit(s, CMD_LEN_ERR_EID);
          RejectSound(Emit(s, CMD_LEN_ERR_EID));
        } else {
          ExecuteSound(s, d);
        }
      case Unknown =>
        RejectSound(s);
        ReadyEmit(Reject(s), MID_ERR_EID);
    }
  }

  lemma {:induction false} DrainCmdsSound(s: State, ds: seq<CmdDelivery>, n: nat)
    requires Ready(s) && n <= |ds|
    ensures Ready(DrainCmds(s, ds, n))
  {
    hide OneCmd, Reachable;
    if n > 0 {
      DrainCmdsSound(s, ds, n - 1);
      OneCmdSound(DrainCmds(s, ds, n - 1), ds[n - 1]);
    }
  }

  lemma ProcessCommandsSound(s: State, p: Pipes)
    requires Ready(s) && PipesFit(s.cfg, p)
    requires s.modes.eventMon ==> TableOk(s.log, EventMonTable)
    ensures Ready(ProcessCommands(s, p))
  {
    hide MarksOf, HalfDisabled, Deeds, Reachable, DrainEvents, DrainCmds;
    if s.modes.eventMon {
      DrainEventsSound(s, p.events, |p.events|);
    }
    DrainCmdsSound(ProcessEvents(s, p), p.cmds, |p.cmds|);
  }

  // ---------- Table acquisition ----------

  /** The application monitor is on only if its table was acquired in this cycle. */
  predicate AppOk(s: State) {
    s.modes.appMon ==> TableOk(s.log, AppMonTable)
  }

  predicate EventOk(s: State) {
    s.modes.eventMon ==> TableOk(s.log, EventMonTable)
  }

  lemma LostSound(s: State, table: Table, eid: uint16)
    requires Sound(s) && eid !in ANSWERS
    ensures var r := Lost(s, table, eid);
            && Sound(r) && SameTables(s.log, r.log)
            && r.loads == Marked(s.loads, table, false) && r.modes == Stopped(s.modes, table)
  {
    hide MarksOf, HalfDisabled, Deeds, Reachable;
    EmitSound(s, eid);
    Step(Emit(s, eid), Dropped(table));
  }

  lemma AcquireAmtSound(s: State, g: TableGet<AmtEntry>)
    requires Sound(s) && (g.Updated? ==> |g.table| == s.cfg.apps)
    ensures Sound(AcquireAmt(s, g)) && AppOk(AcquireAmt(s, g))
  {
    hide MarksOf, HalfDisabled, Deeds, Reachable, Lost, Confined;
    hide AppEffect, EmtEffect, MsgEffect, CpuEffect, ResetEffect, BusEffect, CountEffect, AliveEffect;
    var op := GotTable(AppMonTable, !g.Failed?);
    Step(s, op);
    if g.Updated? {
      Step(Do(s, op), RefreshAppMon(g.table));
    } else {
      LostSound(Do(s, op), AppMonTable, APPMON_GETADDR_ERR_EID);
    }
  }

  lemma UnsubSound(s: State, f: Format, ok: bool, eid: uint16)
    requires Sound(s) && eid !in ANSWERS
    ensures var r := Unsub(s, f, ok, eid);
            Sound(r) && r.modes == s.modes && r.loads == s.loads && SameTables(s.log, r.log)
  {
    hide MarksOf, HalfDisabled, Deeds, Reachable;
    Step(s, Unsubscribe(f, ok));
    EmitSound(Do(s, Unsubscribe(f, ok)), eid);
  }

  lemma EmtLostSound(s: State, long: bool, short: bool)
    requires Sound(s) && AppOk(s)
    ensures var r := EmtLost(s, long, short);
            Sound(r) && AppOk(r) && !r.modes.eventMon
  {
    hide MarksOf, HalfDisabled, Deeds, Reachable, Unsub, WF;
    EmitSound(s, EVENTMON_GETADDR_ERR_EID);
    var s1 := Emit(s, EVENTMON_GETADDR_ERR_EID);
    UnsubSound(s1, LongFormat, long, BADEMT_LONG_UNSUB_EID);
    var s2 := Unsub(s1, LongFormat, long, BADEMT_LONG_UNSUB_EID);
    UnsubSound(s2, ShortFormat, short, BADEMT_SHORT_UNSUB_EID);
    Step(if s.modes.eventMon then Unsub(s2, ShortFormat, short, BADEMT_SHORT_UNSUB_EID) else s1,
         Dropped(EventMonTable));
  }

  lemma AcquireEmtSound(s: State, g: TableGet<EmtEntry>, long: bool, short: bool)
    requires Sound(s) && (g.Updated? ==> |g.table| == s.cfg.events) && AppOk(s)
    ensures var r := AcquireEmt(s, g, long, short);
            Sound(r) && AppOk(r) && EventOk(r)
  {
    hide MarksOf, HalfDisabled, Deeds, Reachable, EmtLost, WF;
    var op := GotTable(EventMonTable, !g.Failed?);
    Step(s, op);
    if g.Updated? {
      Step(Do(s, op), LoadEmt(g.table));
    } else {
      EmtLostSound(Do(s, op), long, short);
    }
  }

  lemma AcquireMatSound(s: State, g: TableGet<MatEntry>)
    requires Sound(s) && (g.Updated? ==> |g.table| == s.cfg.msgActs) && AppOk(s) && EventOk(s)
    ensures var r := AcquireMat(s, g);
            Sound(r) && MsgsOk(r) && AppOk(r) && EventOk(r)
  {
    hide MarksOf, HalfDisabled, Deeds, Reachable, Lost, Confined;
    hide AppEffect, EmtEffect, MsgEffect, CpuEffect, ResetEffect, BusEffect, CountEffect, AliveEffect;
    var op := GotTable(MsgActsTable, !g.Failed?);
    Step(s, op);
    if g.Updated? {
      Step(Do(s, op), RefreshMsgActs(g.table));
    } else {
      LostSound(Do(s, op), MsgActsTable, MSGACTS_GETADDR_ERR_EID);
    }
  }

  lemma AcquireXctSound(s: State, ok: bool)
    requires Sound(s) && MsgsOk(s) && AppOk(s) && EventOk(s)
    ensures var r := AcquireXct(s, ok);
            Sound(r) && MsgsOk(r) && AppOk(r) && EventOk(r)
  {
    hide MarksOf, HalfDisabled, Deeds, Reachable, Lost, Confined;
    var op := GotTable(ExeCountTable, ok);
    Step(s, op);
    LostSound(Do(s, op), ExeCountTable, EXECOUNT_GETADDR_ERR_EID);
  }

  /** After acquisition whatever is switched on has its table, whatever the state was before. */
  lemma AcquireSound(s: State, a: AcquireIn)
    requires Sound(s) && AcquireFits(s.cfg, a)
    ensures var r := Acquire(s, a);
            Sound(r) && MsgsOk(r) && AppOk(r) && EventOk(r)
  {
    hide MarksOf, HalfDisabled, Deeds, Reachable, AcquireAmt, AcquireEmt, AcquireMat, AcquireXct;
    hide AppOk, EventOk, MsgsOk;
    AcquireAmtSound(s, a.amt);
    var s1 := AcquireAmt(s, a.amt);
    AcquireEmtSound(s1, a.emt, a.longUnsub, a.shortUnsub);
    var s2 := AcquireEmt(s1, a.emt, a.longUnsub, a.shortUnsub);
    AcquireMatSound(s2, a.mat);
    AcquireXctSound(AcquireMat(s2, a.mat), a.xctOk);
  }

  // ---------- One cycle ----------

  lemma AppPhaseSound(s: State, xs: seq<AppInput>)
    requires Ready(s) && AppOk(s) && EventOk(s) && |xs| == s.cfg.apps
    ensures Ready(AppPhase(s, xs)) && EventOk(AppPhase(s, xs))
  {
    hide MarksOf, HalfDisabled, Deeds, Reachable, MonitorApps;
    if s.modes.appMon {
      Step(s, RunAppMon);
      MonitorAppsSound(Do(s, RunAppMon), xs, s.cfg.apps);
    }
  }

  lemma PhaseStep(s: State, op: Op)
    requires Ready(s) && EventOk(s) && Can(s, op) && (op.AliveTick? || op.Tick? || op.Watchdog?)
    ensures Ready(Do(s, op)) && EventOk(Do(s, op)) && (AppOk(s) ==> AppOk(Do(s, op)))
  {
    hide MarksOf, HalfDisabled, Deeds, Reachable;
    Step(s, op);
  }

  lemma StartCycle(s: State)
    requires Resting(s)
    ensures Resting(Do(s, CycleStart))
  {
    hide Due, InTurn;
    InTurnWhenIdle(s, CycleStart);
    Reach(s, CycleStart);
  }

  lemma UtilKeeps(s: State, reading: int32)
    requires WF(s)
    ensures var r := UtilPhase(s, reading);
            r.modes == s.modes && r.loads == s.loads
            && SameTables(s.log, r.log)
  {
    hide Utilization.Step, Utilization.Alarm, AppEffect, EmtEffect, MsgEffect, CpuEffect, ResetEffect, BusEffect,
         CountEffect, AliveEffect, MarksOf, TableOk, Sampled, HalfDisabled, Deeds;
  }

  lemma BeforePipesSound(s: State, x: CycleIn)
    requires Resting(s) && CycleFits(s.cfg, x)
    ensures Ready(BeforePipes(s, x)) && EventOk(BeforePipes(s, x))
  {
    hide MarksOf, HalfDisabled, Deeds, Reachable, Acquire, UtilPhase, MonitorApps, AppPhase, Do, Confined;
    StartCycle(s);
    var s0 := Do(s, CycleStart);
    AcquireSound(s0, x.acquire);
    var s1 := Acquire(s0, x.acquire);
    PhaseStep(s1, Tick);
    var s2 := Do(s1, Tick);
    UtilPhaseSound(s2, x.reading);
    UtilKeeps(s2, x.reading);
    var s3 := UtilPhase(s2, x.reading);
    AppPhaseSound(s3, x.apps);
    var s4 := AppPhase(s3, x.apps);
    if s4.modes.aliveness {
      PhaseStep(s4, AliveTick(s4.alive + 1 >= s4.cfg.alivePeriod));
    }
  }

  /** One whole cycle keeps the log lawful: every monitor ran on a table acquired in this cycle, every
      message was sent off cooldown, every reset was counted in the store before it was issued. */
  lemma CycleSound(s: State, x: CycleIn)
    requires Resting(s) && CycleFits(s.cfg, x)
    ensures Resting(Cycle(s, x))
  {
    hide MarksOf, HalfDisabled, Deeds, Reachable, BeforePipes, ProcessCommands;
    BeforePipesSound(s, x);
    ProcessCommandsSound(BeforePipes(s, x), x.pipes);
    var s1 := ProcessCommands(BeforePipes(s, x), x.pipes);
    if s1.rst.watchdog {
      Step(s1, Watchdog);
    }
  }

  // ---------- Start-up ----------

  /** Memory cleared, the reset record not filled in or not checked yet. */
  predicate Booting(s: State) {
    WF(s) && Reachable(s) && !Counting(s.log) && !Sampled(s.log) && !Owing(s) && !Due(s)
  }

  lemma BootStep(s: State, op: Op)
    requires Booting(s) && ((op.Event? && op.eid !in ANSWERS) || op.CdsOff? || (op.RestoreCds? && Starting(s.log)))
    ensures Booting(Do(s, op)) && (op.RestoreCds? && Consistent(s.rst.store) ==> Resting(Do(s, op)))
  {
    hide Due, InTurn, Do, Confined, Consistent, SameMarks, SameTables, HalfDisabled, Deeds, WF;
    InTurnWhenIdle(s, op);
    Reach(s, op);
    if op.Event? {
      LogOnly(s, op);
    } else {
      ResetOnly(s, op);
    }
    assert LastSample(Do(s, op).log) == None;
  }

  lemma InitCdsSound(s: State)
    requires Booting(s)
    ensures Resting(InitCds(s))
  {
    hide Due, InTurn, Sealed, Consistent, Confined;
    var op := SetCds(Initialised, 0, s.cfg.maxRestarts);
    InTurnWhenIdle(s, op);
    SealedConsistent(0, s.cfg.maxRestarts);
    Reach(s, op);
  }

  lemma CdsPhaseSound(s: State, status: CdsStatus)
    requires Booting(s) && Starting(s.log)
    ensures Resting(CdsPhase(s, status))
  {
    hide MarksOf, HalfDisabled, Deeds, Reachable, InitCds, Resting, Do, Due, Owing;
    match status
    case AlreadyExists(true) =>
      BootStep(s, RestoreCds);
      DoReset(s, RestoreCds);
      var s1 := Do(s, RestoreCds);
      BootStep(s1, Event(CDS_CORRUPT_ERR_EID));
      InitCdsSound(Emit(s1, CDS_CORRUPT_ERR_EID));
    case AlreadyExists(false) =>
      BootStep(s, Event(CDS_RESTORE_ERR_EID));
      InitCdsSound(Emit(s, CDS_RESTORE_ERR_EID));
    case Created =>
      InitCdsSound(s);
    case Refused =>
      BootStep(s, CdsOff);
      InitCdsSound(Do(s, CdsOff));
  }

  lemma RestingLost(s: State, table: Table, eid: uint16)
    requires Resting(s) && eid !in ANSWERS
    ensures Resting(Lost(s, table, eid))
  {
    hide Reachable;
    LostSound(s, table, eid);
  }

  lemma RestingEmit(s: State, eid: uint16)
    requires WF(s) && Resting(s) && eid !in ANSWERS
    ensures Resting(Emit(s, eid))
  {
    hide Do, Resting;
    RestingStep(s, Event(eid));
  }

  lemma LoadPhaseSound(s: State, x: InitIn)
    requires WF(s) && Resting(s)
    ensures Resting(LoadPhase(s, x))
  {
    hide Resting, Lost, Emit;
    RestingLost(s, ExeCountTable, XCT_LD_ERR_EID);
    var s1 := if x.xctLoad then s else Lost(s, ExeCountTable, XCT_LD_ERR_EID);
    RestingLost(s1, AppMonTable, AMT_LD_ERR_EID);
    RestingEmit(Lost(s1, AppMonTable, AMT_LD_ERR_EID), DISABLE_APPMON_ERR_EID);
    var s2 := if x.amtLoad then s1
              else Emit(Lost(s1, AppMonTable, AMT_LD_ERR_EID), DISABLE_APPMON_ERR_EID);
    RestingLost(s2, EventMonTable, EMT_LD_ERR_EID);
    RestingEmit(Lost(s2, EventMonTable, EMT_LD_ERR_EID), DISABLE_EVENTMON_ERR_EID);
    var s3 := if x.emtLoad then s2
              else Emit(Lost(s2, EventMonTable, EMT_LD_ERR_EID), DISABLE_EVENTMON_ERR_EID);
    RestingLost(s3, MsgActsTable, MAT_LD_ERR_EID);
  }

  lemma TablePhaseSound(s: State, x: InitIn)
    requires WF(s) && Resting(s) && AcquireFits(s.cfg, x.acquire)
    ensures Resting(TablePhase(s, x))
  {
    hide LoadPhase, Acquire, Sound, Sampled;
    if Registered(x.end) {
      LoadPhaseSound(s, x);
      AcquireSound(LoadPhase(s, x), x.acquire);
    }
  }

  /** A boot may interrupt HS anywhere: start-up is lawful from every reachable state. */
  lemma AppInitSound(s: State, x: InitIn)
    requires WF(s) && Reachable(s) && AcquireFits(s.cfg, x.acquire)
    ensures Resting(AppInit(s, x))
  {
    hide CdsPhase, TablePhase, Do, Emit, Booting, Resting;
    BootSound(s);
    var s1 := CdsPhase(Do(s, Boot), x.cds);
    CdsPhaseSound(Do(s, Boot), x.cds);
    TablePhaseSound(s1, x);
    RestingEmit(TablePhase(s1, x), EndReport(x.end));
  }

  lemma BootSound(s: State)
    requires WF(s) && Reachable(s)
    ensures Booting(Do(s, Boot)) && Starting(Do(s, Boot).log)
  {
    hide MarksOf, TableOk, HalfDisabled, Deeds, AppEffect, EmtEffect, MsgEffect, CpuEffect, ModesEffect, LoadsEffect,
         ResetEffect, BusEffect, CountEffect, AliveEffect;
    Reach(s, Boot);
    var r := Do(s, Boot);
    assert r.log == Then(s.log, Boot);
    assert LastSample(r.log) == None && Acting(r.log) == None;
  }

  lemma StartUpSound(s: State, x: InitIn)
    requires WF(s) && Reachable(s) && AcquireFits(s.cfg, x.acquire)
    ensures Resting(StartUp(s, x))
  {
    hide MarksOf, HalfDisabled, Deeds, Reachable, AppInit;
    AppInitSound(s, x);
    SubscribeSound(AppInit(s, x), x.longSub, x.shortSub);
  }

  lemma SubscribeSound(s: State, long: bool, short: bool)
    requires WF(s) && Resting(s)
    ensures Resting(SubscribePhase(s, long, short))
  {
    hide Do, Resting;
    RestingStep(s, Subscribe(LongFormat, long));
    var s1 := Do(s, Subscribe(LongFormat, long));
    RestingStep(s1, Event(SUB_LONG_EVS_ERR_EID));
    RestingStep(s1, Subscribe(ShortFormat, short));
    RestingStep(Do(s1, Subscribe(ShortFormat, short)), Event(SUB_SHORT_EVS_ERR_EID));
  }
}
