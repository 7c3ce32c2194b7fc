/** What the monitors do, and why. */
module ActionRuns {
  import opened HsTypes
  import opened HsState
  import opened HsSteps
  import opened ResetRuns
  import opened HsRuns
  import opened HsSound
  import AppMonitor
  import AppMonitorRuns

  /** The latest look that used up its countdown, or the latest entry that matched an event, in this boot. */
  function LatestCall(t: Trace): Option<Op> {
    match t
    case Start => None
    case Then(before, op) =>
      if op.Boot? then None
      else if Calls(op) then Some(op)
      else LatestCall(before)
  }

  // ---------- Nothing is done that was not asked for ----------

  /** The table entry of this look or match asks for exactly this operation on exactly this name or index; `tried`
      tells whether a restart or deletion has failed since. */
  predicate EntryAsks(s: State, call: Op, tried: bool, op: Op) {
    match call
    case Saw(i, x, fired) =>
      fired && i < |s.app.amt| &&
      var e := s.app.amt[i];
      (match op
       case ResetCfe => e.action == ACT_PROC_RESET
       case RestartApp(app, _) => e.action == ACT_APP_RESTART && app == e.name && x.Seen? && !tried
       case Transmit(m) => e.action == ACT_LAST_NONMSG + 1 + m
       case Event(eid) =>
         || (eid == APPMON_FAIL_ERR_EID && e.action == AMT_ACT_EVENT)
         || (eid == APPMON_NOT_RESTARTED_ERR_EID && e.action == ACT_APP_RESTART && (tried || !x.Seen?))
         || (eid == RESET_LIMIT_ERR_EID && e.action == ACT_PROC_RESET && s.rst.cds.resets >= s.rst.cds.max)
       case _ => false)
    case Attempt(ev, i, found) =>
      i < |s.emt| && Matches(s.emt[i], ev) &&
      var e := s.emt[i];
      (match op
       case ResetCfe => e.action == ACT_PROC_RESET
       case RestartApp(app, _) => e.action == ACT_APP_RESTART && app == e.name && found && !tried
       case DeleteApp(app, _) => e.action == EMT_ACT_APP_DELETE && app == e.name && found && !tried
       case Transmit(m) => e.action == ACT_LAST_NONMSG + 1 + m
       case Event(eid) =>
         || (eid == EVENTMON_NOT_RESTARTED_ERR_EID && e.action == ACT_APP_RESTART && (tried || !found))
         || (eid == EVENTMON_NOT_DELETED_ERR_EID && e.action == EMT_ACT_APP_DELETE && (tried || !found))
         || (eid == RESET_LIMIT_ERR_EID && e.action == ACT_PROC_RESET && s.rst.cds.resets >= s.rst.cds.max)
       case _ => false)
    case _ => false
  }

  /** The event that must come right before a restart, a deletion, or the counting of a reset. */
  function Announcement(call: Op, op: Op): uint16 {
    match op
    case RestartApp(_, _) => if call.Saw? then APPMON_RESTART_ERR_EID else EVENTMON_RESTART_ERR_EID
    case DeleteApp(_, _) => EVENTMON_DELETE_ERR_EID
    case _ => if call.Saw? then APPMON_PROC_ERR_EID else EVENTMON_PROC_ERR_EID
  }

  /** Operation `op` after `t` answers the latest call: since that only reports, the counting of a reset and a failed
      restart or deletion have happened, its entry asks for `op`, which is announced, and no report is repeated. */
  predicate Answers(cfg: Config, t: Trace, op: Op)
    requires Lawful(cfg, t)
  {
    && LatestCall(t).Some? && Acting(t) == LatestCall(t)
    && EntryAsks(Replay(cfg, t), LatestCall(t).value, Tried(t), if op.SetCds? then ResetCfe else op)
    && (op.Event? ==> !Reported(t, op.eid))
    && (op.SetCds? || op.RestartApp? || op.DeleteApp? ==>
          LastReport(t) == Some(Announcement(LatestCall(t).value, op)))
  }

  /** Every reset counted or issued, every restart, deletion, send and report of an outcome answers the call before
      it. */
  predicate Obedient(cfg: Config, t: Trace)
    requires Lawful(cfg, t)
  {
    t.Then? ==> Obedient(cfg, t.before) && (Acts(t.op) || Counts(t.op) ==> Answers(cfg, t.before, t.op))
  }

  lemma {:induction false} ActingIsLatest(t: Trace)
    requires Acting(t).Some?
    ensures LatestCall(t) == Acting(t) && Calls(Acting(t).value)
  {
    if !Calls(t.op) {
      ActingIsLatest(t.before);
    }
  }

  predicate EntryFits(s: State, call: Op) {
    match call
    case Attempt(ev, i, _) => i < |s.emt| && Matches(s.emt[i], ev)
    case _ => true
  }

  lemma FitsStep(s: State, op: Op)
    requires WF(s) && Can(s, op) && (Acting(s.log).Some? ==> EntryFits(s, Acting(s.log).value))
    ensures var r := Do(s, op); Acting(r.log).Some? ==> EntryFits(r, Acting(r.log).value)
  {
    hide InTurn, Owing, AppMonitor.Expires, Confined, SameMarks, SameTables, HalfDisabled, Deeds;
    assert Do(s, op).log == Then(s.log, op);
  }

  /** The entry being acted on still names the event it was matched with. */
  lemma {:induction false} ActingFits(cfg: Config, t: Trace)
    requires Lawful(cfg, t)
    ensures Acting(t).Some? ==> EntryFits(Replay(cfg, t), Acting(t).value)
  {
    hide Lawful, Replay, Do, Can, EntryFits;
    if t.Then? {
      Unfold(cfg, t);
      ActingFits(cfg, t.before);
      FitsStep(Replay(cfg, t.before), t.op);
    }
  }

  lemma OrderIsAsked(s: State, call: Op, op: Op)
    requires Calls(call) && EntryFits(s, call) && Performs(op, Remainder(s.log, Asked(s, call)))
    ensures EntryAsks(s, call, Tried(s.log), op)
    ensures op.Event? ==> !Reported(s.log, op.eid)
  {
  }

  lemma OrderAnnounced(s: State, call: Op, op: Op)
    requires Calls(call)
    requires var o := Remainder(s.log, Asked(s, call));
             if op.SetCds? then o.Reset? else (op.RestartApp? || op.DeleteApp?) && Performs(op, o)
    ensures Remainder(s.log, Asked(s, call)).eid == Announcement(call, op)
  {
  }

  lemma AnswersStep(cfg: Config, t: Trace, op: Op)
    requires Lawful(cfg, t) && Can(Replay(cfg, t), op) && (Acts(op) || Counts(op))
    ensures Answers(cfg, t, op)
  {
    hide Lawful, Replay, Due, Owing, EntryAsks, EntryFits, Asked, Remainder, Announcement, Fits, TableOk, Sampled;
    var s := Replay(cfg, t);
    ActingIsLatest(t);
    ActingFits(cfg, t);
    var call := Acting(t).value;
    OrderIsAsked(s, call, if op.SetCds? then ResetCfe else op);
    if op.SetCds? || op.RestartApp? || op.DeleteApp? {
      OrderAnnounced(s, call, op);
    }
  }

  lemma {:induction false} LawfulObedient(cfg: Config, t: Trace)
    requires Lawful(cfg, t)
    ensures Obedient(cfg, t)
  {
    hide Do, Can, Answers, Replay, Lawful;
    if t.Then? {
      Unfold(cfg, t);
      LawfulObedient(cfg, t.before);
      if Acts(t.op) || Counts(t.op) {
        AnswersStep(cfg, t.before, t.op);
      }
    }
  }

  /** In every run each reset, restart, deletion, send and report of an outcome answers the latest look or match. */
  lemma OnlyWhatWasAsked(cfg: Config, run: Run)
    requires Possible(cfg, run)
    ensures Obedient(cfg, After(cfg, run).log)
  {
    hide Obedient;
    LawfulObedient(cfg, After(cfg, run).log);
  }

  // ---------- What was asked for and granted is done ----------

  /** Since `base` there were only reports and the counting of a reset. */
  predicate OnlyReports(t: Trace, base: Trace)
    requires Extends(t, base)
  {
    t == base || ((t.op.Event? || t.op.CdsUpset? || Counts(t.op)) && OnlyReports(t.before, base))
  }

  lemma WaitStep(s: State, op: Op)
    requires WF(s) && Can(s, op) && Due(s) && !op.Boot? && !Performs(op, Pending(s))
    ensures op.Event? || op.CdsUpset? || Counts(op)
    ensures Due(Do(s, op)) && Pending(Do(s, op)) == Pending(s)
  {
    hide Do, Pending, Granted, Owing, SameMarks, SameTables, HalfDisabled, Deeds, WF;
    if op.Event? {
      LogOnly(s, op);
      PendingAfter(s, op.eid);
      GrantedAs(s, Do(s, op));
    } else if op.CdsUpset? {
      ResetOp(s, op);
      UpsetLeaves(s, op.record);
    } else {
      ResetOp(s, op);
    }
  }

  /** Upsets and the counting of a reset leave what is pending. */
  lemma ResetOp(s: State, op: Op)
    requires WF(s) && Can(s, op) && (op.CdsUpset? || Counts(op))
    ensures var r := Do(s, op); Pending(r) == Pending(s) && (Counts(op) ==> Counting(r.log))
  {
    hide EmtEffect, MsgEffect, CpuEffect, ModesEffect, LoadsEffect, BusEffect, CountEffect, AliveEffect, Owing, WF,
         Granted, Due, Pending, SameMarks, SameTables, HalfDisabled, Deeds;
    var r := Do(s, op);
    assert r.log == Then(s.log, op) && r.app == s.app && r.emt == s.emt;
    PendingKept(s, r, op);
  }

  /** From a granted order on, either it was carried out, with only reports before that, or only reports came
      after it so far. */
  lemma {:induction false} AnsweredOrWaiting(cfg: Config, t: Trace, base: Trace) returns (p: Trace)
    requires Lawful(cfg, t) && Extends(t, base) && Lawful(cfg, base) && MarksOf(t).boots == MarksOf(base).boots
    requires Due(Replay(cfg, base))
    ensures Extends(t, p) && Extends(p, base)
    ensures if p == base || !Performs(p.op, Pending(Replay(cfg, base)))
            then p == t && OnlyReports(t, base) && Due(Replay(cfg, t))
                 && Pending(Replay(cfg, t)) == Pending(Replay(cfg, base))
            else OnlyReports(p.before, base)
  {
    hide Lawful, Replay, Do, Can, Due, Pending, Performs;
    p := t;
    if t != base {
      Unfold(cfg, t);
      BootsGrow(t.before, base);
      p := AnsweredOrWaiting(cfg, t.before, base);
      var s, o := Replay(cfg, t.before), Pending(Replay(cfg, base));
      if p == base || !Performs(p.op, o) {
        p := t;
        if !Performs(t.op, o) {
          WaitStep(s, t.op);
        }
      }
    }
  }

  /** HS is up after this run, and `base` was a moment of its last boot. */
  predicate ThisBoot(cfg: Config, run: Run, base: Trace) {
    && Possible(cfg, run) && Up(cfg, run)
    && Extends(After(cfg, run).log, base) && MarksOf(After(cfg, run).log).boots == MarksOf(base).boots
    && Lawful(cfg, base)
  }

  /** From this moment of the run on only reports came, until o was carried out at p. */
  predicate CarriedOut(cfg: Config, run: Run, base: Trace, o: Order, p: Trace)
    requires ThisBoot(cfg, run, base)
  {
    && Extends(After(cfg, run).log, p) && Extends(p, base) && p != base
    && Performs(p.op, o) && OnlyReports(p.before, base)
  }

  /** In every run in which HS is up: whatever was owed and granted at a moment of this boot was done, with only
      reports in between. */
  lemma EveryCallAnswered(cfg: Config, run: Run, base: Trace) returns (p: Trace)
    requires ThisBoot(cfg, run, base) && Granted(Replay(cfg, base), Pending(Replay(cfg, base)))
    ensures CarriedOut(cfg, run, base, Pending(Replay(cfg, base)), p)
  {
    hide Lawful, Replay, After, Up, Possible, Pending, Performs, Granted;
    StillDue(cfg, run, base);
    p := AnsweredOrWaiting(cfg, After(cfg, run).log, base);
  }

  lemma StillDue(cfg: Config, run: Run, base: Trace)
    requires ThisBoot(cfg, run, base) && Granted(Replay(cfg, base), Pending(Replay(cfg, base)))
    ensures Due(Replay(cfg, base)) && Lawful(cfg, After(cfg, run).log)
    ensures !Due(Replay(cfg, After(cfg, run).log))
  {
    hide Lawful, Replay, Possible, Pending, Granted, Owing;
  }

  /** A look or match obliges HS to what its entry asks for; nothing of it is done yet. */
  lemma CallOwes(cfg: Config, base: Trace)
    requires Lawful(cfg, base) && base.Then? && Calls(base.op)
    ensures var s := Replay(cfg, base); Pending(s) == Asked(s, base.op)
  {
    hide Do, Can, Lawful, Asked, WF, SameMarks, SameTables, HalfDisabled, Deeds, Confined;
    ReplayLog(cfg, base);
  }

  lemma {:induction false} ReplayLog(cfg: Config, t: Trace)
    requires Lawful(cfg, t)
    ensures Replay(cfg, t).log == t
  {
    hide Can, SameMarks, SameTables, HalfDisabled, Deeds, Confined;
    if t.Then? {
      ReplayLog(cfg, t.before);
    }
  }

  /** HS2000.2 over whole runs: the look that makes the CycleCount-th miss in a row of a monitored application is
      followed by what its entry asks for, if the message table and cooldown grant it. */
  lemma ActsAtCycleCount(cfg: Config, run: Run, base: Trace) returns (p: Trace)
    requires ThisBoot(cfg, run, base) && base.Then? && base.op.Saw? && base.op.entry < cfg.apps
    requires AppMonitorRuns.Misses(base, base.op.entry) == Replay(cfg, base).app.amt[base.op.entry].cycleCount
    requires Granted(Replay(cfg, base), Asked(Replay(cfg, base), base.op))
    ensures CarriedOut(cfg, run, base, Asked(Replay(cfg, base), base.op), p)
  {
    hide Lawful, Replay, After, Up, Possible, Granted, Asked, Pending, CarriedOut, WF;
    AppMonitorRuns.FiresAtCycleCount(cfg, base, base.op.entry);
    CallOwes(cfg, base);
    p := EveryCallAnswered(cfg, run, base);
  }

  /** The report of a failed restart or deletion. */
  function FailureReport(call: Op, failed: Op): uint16 {
    if call.Saw? then APPMON_NOT_RESTARTED_ERR_EID
    else if failed.RestartApp? then EVENTMON_NOT_RESTARTED_ERR_EID
    else EVENTMON_NOT_DELETED_ERR_EID
  }

  lemma FailureOwes(cfg: Config, base: Trace)
    requires Lawful(cfg, base) && base.Then? && Fails(base.op)
    ensures LatestCall(base).Some?
    ensures Pending(Replay(cfg, base)) == Report(FailureReport(LatestCall(base).value, base.op))
  {
    hide Lawful, Replay, Do, Can;
    Unfold(cfg, base);
    ReplayLog(cfg, base);
    FailureStep(Replay(cfg, base.before), base.op);
    ActingIsLatest(base);
  }

  lemma FailureStep(s: State, op: Op)
    requires WF(s) && Can(s, op) && Fails(op)
    ensures var r := Do(s, op);
            Acting(r.log).Some? && Pending(r) == Report(FailureReport(Acting(r.log).value, op))
  {
    hide Do, Owing, Due, TableOk, Sampled, Confined, SameMarks, SameTables, HalfDisabled, Deeds, MarksOf;
    LogOnly(s, op);
    ActingIsLatest(s.log);
  }

  /** In every run in which HS is up each failed restart or deletion of this boot was reported. */
  lemma FailuresReported(cfg: Config, run: Run, base: Trace) returns (p: Trace)
    requires ThisBoot(cfg, run, base) && base.Then? && Fails(base.op)
    ensures LatestCall(base).Some?
    ensures CarriedOut(cfg, run, base, Report(FailureReport(LatestCall(base).value, base.op)), p)
  {
    hide Lawful, Replay, After, Up, Possible, Pending, CarriedOut, LatestCall, FailureReport;
    FailureOwes(cfg, base);
    p := EveryCallAnswered(cfg, run, base);
  }
}
