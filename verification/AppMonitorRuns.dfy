/** The application monitor over traces. */
module AppMonitorRuns {
  import opened HsTypes
  import opened HsState
  import opened HsSteps
  import opened AppMonitor

  // ---------- The enable bitmap ----------

  /** Bit i%32 of word i/32 is set exactly for the armed entries, also past the last one. */
  predicate BitmapAgrees(apps: nat, a: AppMon)
    requires Valid(apps, a)
  {
    forall i: nat | i < 32 * |a.enables| :: BitSet(a.enables, i) <==> i < apps && a.countdown[i] != 0
  }

  predicate CountdownsFit(amt: seq<AmtEntry>, a: AppMon)
    requires Valid(|amt|, a)
  {
    forall i | 0 <= i < |amt| ::
      && a.countdown[i] <= amt[i].cycleCount
      && (a.countdown[i] != 0 ==> amt[i].action != ACT_NOACT)
  }

  /** In every reachable state the packed bitmap is exactly the set of entries still counting down. */
  lemma {:induction false} BitmapInvariant(cfg: Config, t: Trace)
    requires Lawful(cfg, t)
    ensures var s := Replay(cfg, t); BitmapAgrees(cfg.apps, s.app.mon) && CountdownsFit(s.app.amt, s.app.mon)
  {
    hide Do, Can, BitmapAgrees, CountdownsFit;
    if t.Then? {
      Unfold(cfg, t);
      BitmapInvariant(cfg, t.before);
      BitmapStep(Replay(cfg, t.before), t.op);
    } else {
      IdleBitmap(cfg.apps);
    }
  }

  lemma BitmapStep(s: State, op: Op)
    requires WF(s) && Fits(s, op) && BitmapAgrees(s.cfg.apps, s.app.mon) && CountdownsFit(s.app.amt, s.app.mon)
    ensures var r := Do(s, op); BitmapAgrees(s.cfg.apps, r.app.mon) && CountdownsFit(r.app.amt, r.app.mon)
  {
    hide EmtEffect, MsgEffect, CpuEffect, ModesEffect, LoadsEffect, ResetEffect, BusEffect, CountEffect, AliveEffect,
         BitmapAgrees, CountdownsFit, Confined, SameMarks, SameTables, HalfDisabled, Deeds, Look, Refreshed, Copies,
         Idle, Expires;
    if op.Boot? {
      IdleBitmap(s.cfg.apps);
    } else if op.RefreshAppMon? {
      RefreshBitmap(op.amt);
    } else if op.Saw? {
      LookBitmap(s.app.amt, s.app.mon, op.entry, op.sight);
    }
  }

  lemma IdleBitmap(apps: nat)
    requires apps >= 1
    ensures BitmapAgrees(apps, Idle(apps)) && CountdownsFit(Copies(apps, NO_APP), Idle(apps))
  {
  }

  lemma RefreshBitmap(amt: seq<AmtEntry>)
    requires |amt| >= 1
    ensures BitmapAgrees(|amt|, Refreshed(amt)) && CountdownsFit(amt, Refreshed(amt))
  {
  }

  lemma LookBitmap(amt: seq<AmtEntry>, a: AppMon, i: nat, x: Sighting)
    requires Valid(|amt|, a) && i < |amt| && a.countdown[i] != 0
    requires BitmapAgrees(|amt|, a) && CountdownsFit(amt, a)
    ensures var r := Look(|amt|, a, amt[i], i, x); BitmapAgrees(|amt|, r) && CountdownsFit(amt, r)
  {
  }

  // ---------- Misses, countdown and firing ----------

  /** Entry i was last armed, or memory last cleared, by this operation. */
  predicate Rearms(op: Op) {
    op.Boot? || op.RefreshAppMon?
  }

  /** The last execution count seen for entry i since it was armed; 0 if none. */
  function LastSeen(t: Trace, i: nat): uint32 {
    match t
    case Start => 0
    case Then(before, op) =>
      if Rearms(op) then 0
      else if op.Saw? && op.entry == i && op.sight.Seen? then op.sight.count
      else LastSeen(before, i)
  }

  /** The number of consecutive misses of entry i up to now: looks that did not resolve the name, got
      no information, or saw the count of the look before again. */
  function Misses(t: Trace, i: nat): nat {
    match t
    case Start => 0
    case Then(before, op) =>
      if Rearms(op) then 0
      else if op.Saw? && op.entry == i then
        if op.sight.Seen? && op.sight.count != LastSeen(before, i) then 0 else Misses(before, i) + 1
      else Misses(before, i)
  }

  /** How often entry i has taken its action since it was armed. */
  function Firings(t: Trace, i: nat): nat {
    match t
    case Start => 0
    case Then(before, op) =>
      if Rearms(op) then 0
      else Firings(before, i) + if op.Saw? && op.entry == i && op.fired then 1 else 0
  }

  /** The countdown is the cycle count less the misses, the stored count is the last one seen, and the
      entry has fired, once, exactly when the misses have used up the cycle count. */
  predicate EntryTracks(p: AppPart, t: Trace, i: nat)
    requires i < |p.amt| && i < |p.mon.last| && i < |p.mon.countdown|
  {
    var e := p.amt[i];
    && p.mon.last[i] == LastSeen(t, i)
    && (Active(e) ==> p.mon.countdown[i] == e.cycleCount - Misses(t, i))
    && (!Active(e) ==> p.mon.countdown[i] == 0 && Misses(t, i) == 0)
    && Firings(t, i) == if Active(e) && Misses(t, i) == e.cycleCount then 1 else 0
  }

  lemma EntryStep(s: State, op: Op, i: nat)
    requires WF(s) && Can(s, op) && i < s.cfg.apps && EntryTracks(s.app, s.log, i)
    ensures EntryTracks(AppEffect(s, op), Then(s.log, op), i)
  {
  }

  lemma {:induction false} EntryInvariant(cfg: Config, t: Trace, i: nat)
    requires Lawful(cfg, t) && i < cfg.apps
    ensures EntryTracks(Replay(cfg, t).app, t, i)
  {
    hide AppEffect, EmtEffect, MsgEffect, CpuEffect, ModesEffect, LoadsEffect, ResetEffect, BusEffect, CountEffect,
         AliveEffect;
    if t.Then? {
      EntryInvariant(cfg, t.before, i);
      EntryStep(Replay(cfg, t.before), t.op, i);
    }
  }

  /** An entry takes its action in exactly the look that makes its CycleCount-th consecutive miss, and
      never looks again until it is armed again. */
  lemma FiresAtCycleCount(cfg: Config, t: Trace, i: nat)
    requires Lawful(cfg, t) && t.Then? && t.op.Saw? && t.op.entry == i
    ensures i < cfg.apps && Active(Replay(cfg, t).app.amt[i])
    ensures t.op.fired <==> Misses(t, i) == Replay(cfg, t).app.amt[i].cycleCount
    ensures t.op.fired ==> Firings(t.before, i) == 0
    ensures Misses(t, i) <= Replay(cfg, t).app.amt[i].cycleCount
  {
    hide EmtEffect, MsgEffect, CpuEffect, ModesEffect, LoadsEffect, ResetEffect, BusEffect, CountEffect, AliveEffect;
    EntryInvariant(cfg, t.before, i);
    EntryInvariant(cfg, t, i);
  }

  /** HS2000.3: a name that does not resolve is reported as an error exactly on the first miss in a row, and as
      a debug event on the ones after it. */
  lemma NameErrorOnFirstMiss(s: State, i: nat, x: AppInput)
    requires WF(s) && Reachable(s) && i < s.cfg.apps && s.app.mon.countdown[i] != 0
    ensures NameReport(s, i, x) == if !x.sight.Unresolved? then s
                                   else if Misses(s.log, i) == 0 then Emit(s, APPMON_APPNAME_ERR_EID)
                                   else Emit(s, APPMON_APPNAME_DBG_EID)
  {
    hide Do, Emit, Lawful, Misses, LastSeen, Firings;
    EntryInvariant(s.cfg, s.log, i);
  }

  // ---------- Every armed entry is looked at once a cycle ----------

  /** The entries looked at so far, in order. */
  function Looks(t: Trace): seq<nat> {
    match t
    case Start => []
    case Then(before, op) => if op.Saw? then Looks(before) + [op.entry] else Looks(before)
  }

  /** The entries among the first n that still count down, in table order. */
  function Armed(a: AppMon, n: nat): seq<nat>
    requires n <= |a.countdown|
  {
    if n == 0 then [] else Armed(a, n - 1) + if a.countdown[n - 1] != 0 then [n - 1] else []
  }

  lemma OpLooks(s: State, op: Op)
    requires WF(s) && Fits(s, op)
    requires op.Event? || op.SetCds? || op.ResetCfe? || op.Transmit? || op.RestartApp?
    ensures Looks(Do(s, op).log) == Looks(s.log) && Do(s, op).app == s.app
  {
  }

  lemma EmitLooks(s: State, eid: uint16)
    requires WF(s)
    ensures Looks(Emit(s, eid).log) == Looks(s.log) && Emit(s, eid).app == s.app
  {
    hide Do;
    OpLooks(s, Event(eid));
  }

  lemma ResetLooks(s: State, eid: uint16)
    requires WF(s)
    ensures var r := ProcReset(s, eid); Looks(r.log) == Looks(s.log) && r.app == s.app
  {
    hide Do, Emit, Confined, SameMarks, SameTables, Looks, WF, HalfDisabled, Deeds;
    EmitLooks(s, eid);
    var s1 := Emit(s, eid);
    var c := s1.rst.cds;
    EmitLooks(s1, RESET_LIMIT_ERR_EID);
    if c.resets < c.max {
      var op := SetCds(Counted, c.resets + 1, c.max);
      OpLooks(s1, op);
      OpLooks(Do(s1, op), ResetCfe);
    }
  }

  lemma MessageLooks(s: State, action: uint16, eid: uint16)
    requires WF(s) && action > ACT_LAST_NONMSG
    ensures var r := MsgAction(s, action, eid); Looks(r.log) == Looks(s.log) && r.app == s.app
  {
    hide Do, Emit, Confined, SameMarks, SameTables, Looks;
    var m := action - ACT_LAST_NONMSG - 1;
    if m < s.cfg.msgActs {
      OpLooks(s, Transmit(m));
      EmitLooks(Do(s, Transmit(m)), eid);
    }
  }

  lemma ActionLooks(s: State, e: AmtEntry, x: AppInput)
    requires WF(s) && e.action != ACT_NOACT
    ensures var r := AppAction(s, e, x); Looks(r.log) == Looks(s.log) && r.app == s.app
  {
    hide Do, Emit, ProcReset, MsgAction, Confined, SameMarks, SameTables, Looks;
    if e.action == ACT_PROC_RESET {
      ResetLooks(s, APPMON_PROC_ERR_EID);
    } else if e.action == ACT_APP_RESTART {
      EmitLooks(s, APPMON_RESTART_ERR_EID);
      var s1 := Emit(s, APPMON_RESTART_ERR_EID);
      var call := RestartApp(e.name, x.restartOk);
      OpLooks(s1, call);
      EmitLooks(if x.sight.Seen? then Do(s1, call) else s1, APPMON_NOT_RESTARTED_ERR_EID);
    } else if e.action == AMT_ACT_EVENT {
      EmitLooks(s, APPMON_FAIL_ERR_EID);
    } else {
      MessageLooks(s, e.action, APPMON_MSGACTS_ERR_EID);
    }
  }

  lemma SawLooks(s: State, op: Op)
    requires WF(s) && Fits(s, op) && op.Saw?
    ensures var r := Do(s, op);
            && Looks(r.log) == Looks(s.log) + [op.entry]
            && forall j | 0 <= j < s.cfg.apps && j != op.entry :: r.app.mon.countdown[j] == s.app.mon.countdown[j]
  {
  }

  lemma EntryLooks(s: State, i: nat, x: AppInput)
    requires WF(s) && i < s.cfg.apps && (s.app.mon.countdown[i] != 0 ==> s.app.amt[i].action != ACT_NOACT)
    ensures var r := AppEntry(s, i, x);
            && Looks(r.log) == Looks(s.log) + (if s.app.mon.countdown[i] != 0 then [i] else [])
            && forall j | 0 <= j < s.cfg.apps && j != i :: r.app.mon.countdown[j] == s.app.mon.countdown[j]
  {
    hide Do, Emit, AppAction, Expires, Confined, SameMarks, SameTables, Looks;
    var e := s.app.amt[i];
    if s.app.mon.countdown[i] != 0 {
      EmitLooks(s, APPMON_APPNAME_ERR_EID);
      EmitLooks(s, APPMON_APPNAME_DBG_EID);
      var s1 := NameReport(s, i, x);
      var op := Saw(i, x.sight, Expires(s1.app.mon, i, x.sight));
      SawLooks(s1, op);
      if op.fired {
        ActionLooks(Do(s1, op), e, x);
      }
    }
  }

  /** One run of the application monitor looks at every entry that still counts down, once, in table order. */
  lemma {:induction false} LooksAtArmed(s: State, xs: seq<AppInput>, n: nat)
    requires WF(s) && n <= |xs| == s.cfg.apps && CountdownsFit(s.app.amt, s.app.mon)
    ensures var r := MonitorApps(s, xs, n);
            && Looks(r.log) == Looks(s.log) + Armed(s.app.mon, n)
            && forall j | n <= j < s.cfg.apps :: r.app.mon.countdown[j] == s.app.mon.countdown[j]
  {
    hide AppEntry, Confined, SameMarks, SameTables, Looks;
    if n > 0 {
      LooksAtArmed(s, xs, n - 1);
      EntryLooks(MonitorApps(s, xs, n - 1), n - 1, xs[n - 1]);
    }
  }
}
