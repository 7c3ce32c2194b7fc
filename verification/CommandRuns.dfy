/** Command accounting, message by message. */
module CommandRuns {
  import opened HsTypes
  import opened HsState
  import opened HsSteps

  /** How a message must be counted. */
  datatype Verdict = Accepted | Rejected | Uncounted | ClearsAll

  /** A message that fails the ID, code or length test. */
  predicate Malformed(cfg: Config, m: CmdMsg) {
    match m.kind
    case HkRequest => m.length != cfg.hkLength
    case Unknown => true
    case Command =>
      || m.code > CC_DISABLE_CPU_HOG
      || m.length != if m.code == CC_SET_MAX_RESETS then cfg.setMaxLength else cfg.cmdLength
  }

  /** Requirements HS1002 to HS1004: housekeeping is never counted, anything malformed is rejected, an
      event-monitor command is rejected when the software bus refuses it. */
  function VerdictOf(s: State, d: CmdDelivery): Verdict {
    if d.NullCmd? || d.msg.kind.HkRequest? then Uncounted
    else if Malformed(s.cfg, d.msg) then Rejected
    else if d.msg.code == CC_RESET then ClearsAll
    else if d.msg.code == CC_ENABLE_EVENT_MON then
      if s.modes.eventMon || (d.long && d.short) then Accepted else Rejected
    else if d.msg.code == CC_DISABLE_EVENT_MON then
      if !s.modes.eventMon || (d.long && d.short) then Accepted else Rejected
    else Accepted
  }

  function Tallied(c: Counters, v: Verdict): Counters {
    match v
    case Accepted => c.(cmd := Bump8(c.cmd))
    case Rejected => c.(cmdErr := Bump8(c.cmdErr))
    case Uncounted => c
    case ClearsAll => Counters(0, 0, 0, 0)
  }

  lemma OpCounted(s: State, op: Op)
    requires WF(s) && Fits(s, op)
    ensures Do(s, op).count == CountEffect(s.count, op)
  {
  }

  lemma EmitCounted(s: State, eid: uint16)
    requires WF(s)
    ensures Emit(s, eid).count == s.count && Reject(s).count == Tallied(s.count, Rejected)
  {
    hide Do;
    OpCounted(s, Event(eid));
    OpCounted(s, CmdRejected);
  }

  /** Every message moves exactly the counter its verdict names, by one. */
  lemma OneCmdCounted(s: State, d: CmdDelivery)
    requires WF(s)
    ensures OneCmd(s, d).count == Tallied(s.count, VerdictOf(s, d))
  {
    hide Execute, Do, Emit, Reject;
    if d.GotCmd? {
      OpCounted(s, SendHk);
      EmitCounted(s, HKREQ_LEN_ERR_EID);
      EmitCounted(s, CC_ERR_EID);
      EmitCounted(s, CMD_LEN_ERR_EID);
      EmitCounted(Emit(s, CC_ERR_EID), CC_ERR_EID);
      EmitCounted(Emit(s, CMD_LEN_ERR_EID), CC_ERR_EID);
      EmitCounted(Reject(s), MID_ERR_EID);
      if d.msg.kind.Command? && !Malformed(s.cfg, d.msg) {
        ExecuteCounted(s, d);
      }
    }
  }

  lemma ExecuteCounted(s: State, d: CmdDelivery)
    requires WF(s) && d.GotCmd? && d.msg.kind.Command? && !Malformed(s.cfg, d.msg)
    ensures Execute(s, d).count == Tallied(s.count, VerdictOf(s, d))
  {
    hide Tallied, SwitchCmd, CountCmd, EnableAppMon, SetCdsCmd, EnableEventMon, DisableEventMon, Do, Emit;
    var code := d.msg.code;
    if code == CC_NOOP {
      TwoOps(s, CmdAccepted, NOOP_INF_EID);
    } else if code == CC_RESET {
      TwoOps(s, ClearCounters, RESET_INF_EID);
    } else if code == CC_ENABLE_APP_MON {
      EnableAppMonCounted(s);
    } else if code == CC_DISABLE_APP_MON {
      SwitchCounted(s, AppMonMode, false, DISABLE_APPMON_DBG_EID);
    } else if code == CC_ENABLE_EVENT_MON || code == CC_DISABLE_EVENT_MON {
      EventMonCounted(s, d.long, d.short);
    } else if code == CC_ENABLE_ALIVENESS {
      SwitchCounted(s, AlivenessMode, true, ENABLE_ALIVENESS_DBG_EID);
    } else if code == CC_DISABLE_ALIVENESS {
      SwitchCounted(s, AlivenessMode, false, DISABLE_ALIVENESS_DBG_EID);
    } else if code == CC_RESET_RESETS_PERFORMED {
      SetCdsCounted(s, Cleared, 0, s.rst.cds.max, RESET_RESETS_DBG_EID);
    } else if code == CC_SET_MAX_RESETS {
      SetCdsCounted(s, Limited, s.rst.cds.resets, d.msg.maxResets, SET_MAX_RESETS_DBG_EID);
    } else if code == CC_ENABLE_CPU_HOG {
      SwitchCounted(s, CpuHogMode, true, ENABLE_CPUHOG_DBG_EID);
    } else {
      SwitchCounted(s, CpuHogMode, false, DISABLE_CPUHOG_DBG_EID);
    }
  }

  lemma TwoOps(s: State, op: Op, eid: uint16)
    requires WF(s) && (op.CmdAccepted? || op.ClearCounters?)
    ensures CountCmd(s, op, eid).count == Tallied(s.count, if op.CmdAccepted? then Accepted else ClearsAll)
  {
    hide WF, Confined, Do, Emit, Quiet, Plugged, Acted, SameMarks, SameTables;
    OpCounted(s, op);
    EmitCounted(Do(s, op), eid);
  }

  lemma SwitchCounted(s: State, mode: Mode, on: bool, eid: uint16)
    requires WF(s)
    ensures SwitchCmd(s, mode, on, eid).count == Tallied(s.count, Accepted)
  {
    hide WF, Confined, Do, Emit, Quiet, Plugged, Acted, SameMarks, SameTables;
    OpCounted(s, CmdAccepted);
    OpCounted(Do(s, CmdAccepted), Switch(mode, on));
    EmitCounted(Do(Do(s, CmdAccepted), Switch(mode, on)), eid);
  }

  lemma SetCdsCounted(s: State, why: CdsReason, resets: uint16, max: uint16, eid: uint16)
    requires WF(s)
    ensures SetCdsCmd(s, why, resets, max, eid).count == Tallied(s.count, Accepted)
  {
    hide WF, Confined, Do, Emit, Quiet, Plugged, Acted, SameMarks, SameTables;
    OpCounted(s, CmdAccepted);
    OpCounted(Do(s, CmdAccepted), SetCds(why, resets, max));
    EmitCounted(Do(Do(s, CmdAccepted), SetCds(why, resets, max)), eid);
  }

  lemma EnableAppMonCounted(s: State)
    requires WF(s)
    ensures EnableAppMon(s).count == Tallied(s.count, Accepted)
  {
    hide Confined, Do, Emit, Quiet, Plugged, Acted, SameMarks, SameTables;
    OpCounted(s, CmdAccepted);
    var s1 := Do(s, CmdAccepted);
    OpCounted(s1, RefreshAppMon(s1.app.amt));
    var s2 := Do(s1, RefreshAppMon(s1.app.amt));
    OpCounted(s2, Switch(AppMonMode, true));
    EmitCounted(Do(s2, Switch(AppMonMode, true)), ENABLE_APPMON_DBG_EID);
  }

  lemma BothUncounted(s: State, long: bool, short: bool)
    requires WF(s)
    ensures SubscribeBoth(s, long, short, EVENTMON_LONG_SUB_EID, EVENTMON_SHORT_SUB_EID).count == s.count
    ensures UnsubscribeBoth(s, long, short).count == s.count
  {
    hide WF, Confined, Do, Emit, Quiet, Plugged, Acted, SameMarks, SameTables;
    BusOpUncounted(s, Subscribe(LongFormat, long), EVENTMON_LONG_SUB_EID);
    BusOpUncounted(Do(s, Subscribe(LongFormat, long)), Subscribe(ShortFormat, short), EVENTMON_SHORT_SUB_EID);
    BusOpUncounted(s, Unsubscribe(LongFormat, long), EVENTMON_LONG_UNSUB_EID);
    BusOpUncounted(Do(s, Unsubscribe(LongFormat, long)), Unsubscribe(ShortFormat, short), EVENTMON_SHORT_UNSUB_EID);
  }

  lemma BusOpUncounted(s: State, op: Op, eid: uint16)
    requires WF(s) && (op.Subscribe? || op.Unsubscribe?)
    ensures Do(s, op).count == s.count && Emit(Do(s, op), eid).count == s.count
  {
    hide WF, Confined, Do, Emit, Quiet, Plugged, Acted, SameMarks, SameTables;
    OpCounted(s, op);
    EmitCounted(Do(s, op), eid);
  }

  lemma EventMonCounted(s: State, long: bool, short: bool)
    requires WF(s)
    ensures EnableEventMon(s, long, short).count
              == Tallied(s.count, if s.modes.eventMon || (long && short) then Accepted else Rejected)
    ensures DisableEventMon(s, long, short).count
              == Tallied(s.count, if !s.modes.eventMon || (long && short) then Accepted else Rejected)
  {
    hide Tallied, SubscribeBoth, UnsubscribeBoth, SwitchCmd, Reject;
    BothUncounted(s, long, short);
    var s1 := SubscribeBoth(s, long, short, EVENTMON_LONG_SUB_EID, EVENTMON_SHORT_SUB_EID);
    var s2 := UnsubscribeBoth(s, long, short);
    SwitchCounted(if s.modes.eventMon then s else s1, EventMonMode, true, ENABLE_EVENTMON_DBG_EID);
    SwitchCounted(if s.modes.eventMon then s2 else s, EventMonMode, false, DISABLE_EVENTMON_DBG_EID);
    EmitCounted(s1, 0);
    EmitCounted(s2, 0);
  }

  lemma OnlyCount(s: State, op: Op)
    requires WF(s) && (op.Event? || op.CmdRejected?)
    ensures Do(s, op) == s.(count := CountEffect(s.count, op), log := Then(s.log, op))
  {
    hide MarksOf, TableOk, Sampled, HalfDisabled, Deeds;
  }

  lemma ReportAndReject(s: State, eid: uint16)
    requires WF(s)
    ensures var r := Reject(Emit(s, eid)); r == s.(count := Tallied(s.count, Rejected), log := r.log)
    ensures var r := Emit(Reject(s), eid); r == s.(count := Tallied(s.count, Rejected), log := r.log)
    ensures Emit(s, eid) == s.(log := Emit(s, eid).log)
  {
    hide Do, Quiet, Plugged, Acted;
    OnlyCount(s, Event(eid));
    OnlyCount(Do(s, Event(eid)), CmdRejected);
    OnlyCount(s, CmdRejected);
    OnlyCount(Do(s, CmdRejected), Event(eid));
  }

  /** A malformed message changes a counter and the log and nothing else. */
  lemma MalformedChangesNothing(s: State, d: CmdDelivery)
    requires WF(s) && d.GotCmd? && Malformed(s.cfg, d.msg)
    ensures var r := OneCmd(s, d); r == s.(count := Tallied(s.count, VerdictOf(s, d)), log := r.log)
  {
    hide Execute, Do, Emit, Reject, Quiet, Plugged, Acted;
    ReportAndReject(s, HKREQ_LEN_ERR_EID);
    ReportAndReject(s, CC_ERR_EID);
    ReportAndReject(s, CMD_LEN_ERR_EID);
    ReportAndReject(s, MID_ERR_EID);
  }

  function Low8(n: nat): uint8 {
    n % U8
  }

  function Low32(n: nat): uint32 {
    n % U32
  }

  lemma Low8Step(n: nat)
    ensures Bump8(Low8(n)) == Low8(n + 1)
  {
  }

  lemma Low32Step(n: nat)
    ensures Bump32(Low32(n)) == Low32(n + 1)
  {
  }

  lemma LowZero()
    ensures Low8(0) == 0 && Low32(0) == 0
  {
  }

  /** Accepted and rejected totals over the first n messages since the last reset-counters command. */
  datatype CmdTotals = CmdTotals(accepted: nat, rejected: nat)

  function CmdTotalsOf(s: State, ds: seq<CmdDelivery>, n: nat, start: CmdTotals): CmdTotals
    requires WF(s) && n <= |ds|
  {
    if n == 0 then start else
      var t := CmdTotalsOf(s, ds, n - 1, start);
      match VerdictOf(DrainCmds(s, ds, n - 1), ds[n - 1])
      case Accepted => t.(accepted := t.accepted + 1)
      case Rejected => t.(rejected := t.rejected + 1)
      case Uncounted => t
      case ClearsAll => CmdTotals(0, 0)
  }

  lemma {:induction false} CountersAreTotals(s: State, ds: seq<CmdDelivery>, n: nat, start: CmdTotals)
    requires WF(s) && n <= |ds|
    requires s.count.cmd == Low8(start.accepted) && s.count.cmdErr == Low8(start.rejected)
    ensures var c, t := DrainCmds(s, ds, n).count, CmdTotalsOf(s, ds, n, start);
            c.cmd == Low8(t.accepted) && c.cmdErr == Low8(t.rejected)
  {
    hide OneCmd, VerdictOf, Low8, Bump8;
    LowZero();
    if n > 0 {
      CountersAreTotals(s, ds, n - 1, start);
      OneCmdCounted(DrainCmds(s, ds, n - 1), ds[n - 1]);
      Low8Step(CmdTotalsOf(s, ds, n - 1, start).accepted);
      Low8Step(CmdTotalsOf(s, ds, n - 1, start).rejected);
    }
  }

  // ---------- Counters as tallies of the whole log ----------

  /** Operations of each counted kind since the counters were last cleared. */
  datatype Tally = Tally(accepted: nat, rejected: nat, events: nat, sent: nat)

  function TallyOf(t: Trace): Tally {
    match t
    case Start => Tally(0, 0, 0, 0)
    case Then(before, op) =>
      var n := TallyOf(before);
      match op
      case Boot => Tally(0, 0, 0, 0)
      case ClearCounters => Tally(0, 0, 0, 0)
      case CmdAccepted => n.(accepted := n.accepted + 1)
      case CmdRejected => n.(rejected := n.rejected + 1)
      case RunEventMon(_) => n.(events := n.events + 1)
      case Transmit(_) => n.(sent := n.sent + 1)
      case _ => n
  }

  predicate Shows(c: Counters, n: Tally) {
    && c.cmd == Low8(n.accepted) && c.cmdErr == Low8(n.rejected)
    && c.events == Low32(n.events) && c.msgActExec == Low32(n.sent)
  }

  lemma TallyStep(c: Counters, t: Trace, op: Op)
    requires Shows(c, TallyOf(t))
    ensures Shows(CountEffect(c, op), TallyOf(Then(t, op)))
  {
    hide Low8, Low32, Bump8, Bump32;
    var n := TallyOf(t);
    match op
    case CmdAccepted => Low8Step(n.accepted);
    case CmdRejected => Low8Step(n.rejected);
    case RunEventMon(_) => Low32Step(n.events);
    case Transmit(_) => Low32Step(n.sent);
    case Boot => ShowsZero();
    case ClearCounters => ShowsZero();
    case _ =>
  }

  /** In every reachable state the four telemetry counters are the commands accepted and rejected, the
      events handed to the monitor and the messages sent since the last clearing, modulo their width. */
  lemma {:induction false} CountersTally(cfg: Config, t: Trace)
    requires Lawful(cfg, t)
    ensures Shows(Replay(cfg, t).count, TallyOf(t))
  {
    hide AppEffect, EmtEffect, MsgEffect, CpuEffect, ModesEffect, LoadsEffect, ResetEffect, BusEffect, CountEffect,
         AliveEffect;
    hide Shows;
    if t.Then? {
      CountersTally(cfg, t.before);
      TallyStep(Replay(cfg, t.before).count, t.before, t.op);
    } else {
      assert Shows(Counters(0, 0, 0, 0), TallyOf(Start)) by { ShowsZero(); }
    }
  }

  lemma ShowsZero()
    ensures Shows(Counters(0, 0, 0, 0), Tally(0, 0, 0, 0))
  {
  }
}
