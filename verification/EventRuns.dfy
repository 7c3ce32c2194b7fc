/** The event monitor and its subscriptions. */
module EventRuns {
  import opened HsTypes
  import opened HsState
  import opened HsSteps
  import Utilization

  // ---------- Every received event is compared with every table entry, in order ----------

  /** The table entries among the first n that name the event, in table order. */
  function Matching(emt: seq<EmtEntry>, ev: EventMsg, n: nat): seq<nat>
    requires n <= |emt|
  {
    if n == 0 then []
    else Matching(emt, ev, n - 1) + if Matches(emt[n - 1], ev) then [n - 1] else []
  }

  function Tries(ev: EventMsg, hits: seq<nat>): seq<Deed> {
    seq(|hits|, k requires 0 <= k < |hits| => Attempted(ev, hits[k]))
  }

  /** What the event monitor owes for one received event. */
  function DeedsOwed(emt: seq<EmtEntry>, ev: EventMsg): seq<Deed> {
    [Monitored(ev)] + Tries(ev, Matching(emt, ev, |emt|))
  }

  function AllDeedsOwed(emt: seq<EmtEntry>, ds: seq<EventDelivery>, n: nat): seq<Deed>
    requires n <= |ds|
  {
    if n == 0 then []
    else AllDeedsOwed(emt, ds, n - 1) + if ds[n - 1].GotEvent? then DeedsOwed(emt, ds[n - 1].event) else []
  }

  lemma EntryDeeds(s: State, i: nat, ev: EventMsg, x: EntryInput)
    requires WF(s) && i < s.cfg.events
    ensures Deeds(EventEntry(s, i, ev, x).log) ==
            Deeds(s.log) + if Matches(s.emt[i], ev) then [Attempted(ev, i)] else []
  {
    hide EventAction, Confined, SameMarks, SameTables, HalfDisabled;
  }

  lemma {:induction false} MonitorDeeds(s: State, ev: EventMsg, xs: seq<EntryInput>, n: nat)
    requires WF(s) && n <= |xs| == s.cfg.events
    ensures Deeds(MonitorEvent(s, ev, xs, n).log) == Deeds(s.log) + Tries(ev, Matching(s.emt, ev, n))
  {
    hide EventEntry, Confined, SameMarks, SameTables, HalfDisabled, Deeds, Tries;
    TriesStart(ev);
    if n > 0 {
      MonitorDeeds(s, ev, xs, n - 1);
      EntryDeeds(MonitorEvent(s, ev, xs, n - 1), n - 1, ev, xs[n - 1]);
      var hits := Matching(s.emt, ev, n - 1);
      assert hits + [] == hits;
      TriesMore(ev, hits, n - 1);
    }
  }

  lemma TriesStart(ev: EventMsg)
    ensures Tries(ev, []) == []
  {
  }

  lemma TriesMore(ev: EventMsg, hits: seq<nat>, i: nat)
    ensures Tries(ev, hits + [i]) == Tries(ev, hits) + [Attempted(ev, i)]
  {
  }

  lemma MonitoredDeed(s: State, ev: EventMsg)
    requires WF(s)
    ensures var r := Do(s, RunEventMon(ev)); r.emt == s.emt && Deeds(r.log) == Deeds(s.log) + [Monitored(ev)]
  {
    hide Do, SameMarks, SameTables, HalfDisabled, WF;
    CountOnly(s, RunEventMon(ev));
  }

  lemma OwedAfter(deeds: seq<Deed>, emt: seq<EmtEntry>, ev: EventMsg)
    ensures deeds + [Monitored(ev)] + Tries(ev, Matching(emt, ev, |emt|)) == deeds + DeedsOwed(emt, ev)
  {
    hide Tries, Matching;
  }

  lemma OneEventDeeds(s: State, d: EventDelivery)
    requires WF(s) && DeliveryFits(s.cfg, d)
    ensures Deeds(OneEvent(s, d).log) == Deeds(s.log) + if d.GotEvent? then DeedsOwed(s.emt, d.event) else []
  {
    assert |s.emt| == s.cfg.events;
    hide Do, MonitorEvent, SameMarks, SameTables, HalfDisabled, Confined, Deeds, WF, Tries, Matching, DeedsOwed;
    if d.GotEvent? {
      OwedAfter(Deeds(s.log), s.emt, d.event);
      MonitoredDeed(s, d.event);
      MonitorDeeds(Do(s, RunEventMon(d.event)), d.event, d.inputs, s.cfg.events);
    }
  }

  /** Draining the pipe hands every event to the monitor once and attempts exactly the matching entries,
      in the order of the events and, for each event, in table order. */
  lemma {:induction false} DrainDeeds(s: State, ds: seq<EventDelivery>, n: nat)
    requires WF(s) && n <= |ds| && forall d | d in ds :: DeliveryFits(s.cfg, d)
    ensures Deeds(DrainEvents(s, ds, n).log) == Deeds(s.log) + AllDeedsOwed(s.emt, ds, n)
  {
    hide OneEvent, Confined, SameMarks, SameTables, HalfDisabled, Deeds;
    if n > 0 {
      DrainDeeds(s, ds, n - 1);
      OneEventDeeds(DrainEvents(s, ds, n - 1), ds[n - 1]);
    }
  }

  // ---------- Subscriptions ----------

  /** While event monitoring is on, short-format events are subscribed; long-format events are too,
      except after a disable command that got only half way. */
  predicate SubscriptionsOk(s: State) {
    s.modes.eventMon ==> s.bus.short && (s.bus.long <==> !HalfDisabled(s.log))
  }

  lemma EnableKeepsSubscriptions(s: State, long: bool, short: bool)
    requires WF(s) && SubscriptionsOk(s)
    ensures SubscriptionsOk(EnableEventMon(s, long, short))
  {
    hide Do, Emit, Reject, SwitchCmd, SameMarks, SameTables, Deeds;
    BusOnly(s, Subscribe(LongFormat, long));
    BusOnly(Do(s, Subscribe(LongFormat, long)), Subscribe(ShortFormat, short));
  }

  lemma DisableKeepsSubscriptions(s: State, long: bool, short: bool)
    requires WF(s) && SubscriptionsOk(s)
    ensures SubscriptionsOk(DisableEventMon(s, long, short))
  {
    hide Do, Emit, Reject, SwitchCmd, SameMarks, SameTables, Deeds;
    BusOnly(s, Unsubscribe(LongFormat, long));
    BusOnly(Do(s, Unsubscribe(LongFormat, long)), Unsubscribe(ShortFormat, short));
  }

  lemma CmdKeepsSubscriptions(s: State, d: CmdDelivery)
    requires WF(s) && SubscriptionsOk(s)
    ensures SubscriptionsOk(OneCmd(s, d))
  {
    hide Emit, Reject, SwitchCmd, CountCmd, EnableAppMon, EnableEventMon, DisableEventMon, SetCdsCmd;
    hide HalfDisabled, SameMarks, SameTables, Deeds;
    if d.GotCmd? {
      EnableKeepsSubscriptions(s, d.long, d.short);
      DisableKeepsSubscriptions(s, d.long, d.short);
    }
  }

  lemma {:induction false} CmdsKeepSubscriptions(s: State, ds: seq<CmdDelivery>, n: nat)
    requires WF(s) && SubscriptionsOk(s) && n <= |ds|
    ensures SubscriptionsOk(DrainCmds(s, ds, n))
  {
    hide OneCmd;
    if n > 0 {
      CmdsKeepSubscriptions(s, ds, n - 1);
      CmdKeepsSubscriptions(DrainCmds(s, ds, n - 1), ds[n - 1]);
    }
  }

  // ---------- What the phases of a start-up and a cycle do to the subscriptions ----------

  /** The event monitor mode and the subscriptions are as they were. */
  predicate SameLink(s: State, r: State) {
    r.modes.eventMon == s.modes.eventMon && Plugged(s, r)
  }

  lemma LostLink(s: State, table: Table, eid: uint16)
    requires WF(s) && !table.EventMonTable?
    ensures SameLink(s, Lost(s, table, eid))
  {
    hide HalfDisabled;
  }

  lemma AmtLink(s: State, g: TableGet<AmtEntry>)
    requires WF(s) && (g.Updated? ==> |g.table| == s.cfg.apps)
    ensures SameLink(s, AcquireAmt(s, g))
  {
    hide HalfDisabled, Lost;
    LostLink(Do(s, GotTable(AppMonTable, !g.Failed?)), AppMonTable, APPMON_GETADDR_ERR_EID);
  }

  lemma MatLink(s: State, g: TableGet<MatEntry>)
    requires WF(s) && (g.Updated? ==> |g.table| == s.cfg.msgActs)
    ensures SameLink(s, AcquireMat(s, g))
  {
    hide HalfDisabled, Lost;
    LostLink(Do(s, GotTable(MsgActsTable, !g.Failed?)), MsgActsTable, MSGACTS_GETADDR_ERR_EID);
  }

  lemma XctLink(s: State, ok: bool)
    requires WF(s)
    ensures SameLink(s, AcquireXct(s, ok))
  {
    hide HalfDisabled, Lost;
    LostLink(Do(s, GotTable(ExeCountTable, ok)), ExeCountTable, EXECOUNT_GETADDR_ERR_EID);
  }

  lemma UnsubBus(s: State, f: Format, ok: bool, eid: uint16)
    requires WF(s)
    ensures Unsub(s, f, ok, eid).bus == BusEffect(s.bus, Unsubscribe(f, ok))
  {
    hide Do, Emit, BusEffect, SameMarks, SameTables, HalfDisabled, Deeds;
    BusOnly(s, Unsubscribe(f, ok));
  }

  /** A lost event table ends monitoring and adds no subscription. */
  lemma EmtLostLink(s: State, long: bool, short: bool)
    requires WF(s)
    ensures var r := EmtLost(s, long, short); !r.modes.eventMon && (s.bus == NO_BUS ==> r.bus == NO_BUS)
  {
    hide Emit, Unsub, HalfDisabled, SameMarks, SameTables, Deeds;
    var s1 := Emit(s, EVENTMON_GETADDR_ERR_EID);
    UnsubBus(s1, LongFormat, long, BADEMT_LONG_UNSUB_EID);
    UnsubBus(Unsub(s1, LongFormat, long, BADEMT_LONG_UNSUB_EID), ShortFormat, short, BADEMT_SHORT_UNSUB_EID);
  }

  /** From s to r the event table was acquired, or lost and monitoring with it. */
  predicate LinkAcquired(s: State, r: State, failed: bool) {
    if failed then !r.modes.eventMon && (s.bus == NO_BUS ==> r.bus == NO_BUS) else SameLink(s, r)
  }

  lemma EmtLink(s: State, g: TableGet<EmtEntry>, long: bool, short: bool)
    requires WF(s) && (g.Updated? ==> |g.table| == s.cfg.events)
    ensures LinkAcquired(s, AcquireEmt(s, g, long, short), g.Failed?)
  {
    hide HalfDisabled, EmtLost;
    EmtLostLink(Do(s, GotTable(EventMonTable, !g.Failed?)), long, short);
  }

  lemma AcquireLink(s: State, a: AcquireIn)
    requires WF(s) && AcquireFits(s.cfg, a)
    ensures LinkAcquired(s, Acquire(s, a), a.emt.Failed?)
  {
    hide AcquireAmt, AcquireEmt, AcquireMat, AcquireXct, HalfDisabled, SameMarks, WF;
    var s1 := AcquireAmt(s, a.amt);
    AmtLink(s, a.amt);
    EmtLink(s1, a.emt, a.longUnsub, a.shortUnsub);
    var s2 := AcquireEmt(s1, a.emt, a.longUnsub, a.shortUnsub);
    MatLink(s2, a.mat);
    XctLink(AcquireMat(s2, a.mat), a.xctOk);
  }

  lemma AcquireKeepsSubscriptions(s: State, a: AcquireIn)
    requires WF(s) && AcquireFits(s.cfg, a) && SubscriptionsOk(s)
    ensures SubscriptionsOk(Acquire(s, a))
  {
    hide Acquire, HalfDisabled, SameMarks, WF;
    AcquireLink(s, a);
  }

  lemma OpLink(s: State, op: Op)
    requires WF(s) && Fits(s, op)
    requires op.CycleStart? || op.Tick? || op.RunAppMon? || op.AliveTick? || op.Watchdog? || op.UtilTick?
             || op.TakeSample? || op.HogEvent?
    ensures SameLink(s, Do(s, op))
  {
    hide HalfDisabled, SameMarks, SameTables, Deeds, Do;
  }

  lemma KeptLink(s: State, r: State)
    requires Kept(s, r)
    ensures SameLink(s, r)
  {
    hide HalfDisabled, SameMarks, SameTables;
  }

  lemma UtilLink(s: State, reading: int32)
    requires WF(s)
    ensures SameLink(s, UtilPhase(s, reading))
  {
    hide Do, Emit, HalfDisabled, SameMarks, SameTables, Deeds, Confined;
    var op := TakeSample(Utilization.Sample(reading, s.modes.cpuHog));
    OpLink(s, op);
    OpLink(Do(s, op), HogEvent);
    OpLink(if s.cpu.cycle == 0 then MonitorUtil(s, reading) else s, UtilTick);
  }

  /** Before its pipes are read a cycle touches the subscriptions only when the event table is lost. */
  lemma BeforePipesLink(s: State, x: CycleIn)
    requires WF(s) && CycleFits(s.cfg, x)
    ensures LinkAcquired(s, BeforePipes(s, x), x.acquire.emt.Failed?)
  {
    hide Do, Acquire, UtilPhase, MonitorApps, Kept, Confined, SameMarks, SameTables, HalfDisabled, Deeds, WF;
    OpLink(s, CycleStart);
    var s1 := Acquire(Do(s, CycleStart), x.acquire);
    AcquireLink(Do(s, CycleStart), x.acquire);
    OpLink(s1, Tick);
    UtilLink(Do(s1, Tick), x.reading);
    var s2 := Prepare(s, x);
    if s2.modes.appMon {
      OpLink(s2, RunAppMon);
      KeptLink(Do(s2, RunAppMon), MonitorApps(Do(s2, RunAppMon), x.apps, s.cfg.apps));
    }
    var s3 := AppPhase(s2, x.apps);
    OpLink(s3, AliveTick(s3.alive + 1 >= s3.cfg.alivePeriod));
  }

  /** One cycle, whatever its inputs and the answers of the software bus. */
  lemma CycleKeepsSubscriptions(s: State, x: CycleIn)
    requires WF(s) && CycleFits(s.cfg, x) && SubscriptionsOk(s)
    ensures SubscriptionsOk(Cycle(s, x))
  {
    hide Do, BeforePipes, ProcessEvents, DrainCmds, Kept, HalfDisabled, SameMarks, SameTables;
    BeforePipesLink(s, x);
    var s1 := BeforePipes(s, x);
    var s2 := ProcessEvents(s1, x.pipes);
    KeptLink(s1, s2);
    CmdsKeepSubscriptions(s2, x.pipes.cmds, |x.pipes.cmds|);
    OpLink(ProcessCommands(s1, x.pipes), Watchdog);
  }

  // ---------- A start-up that subscribes nothing ----------

  const NO_BUS := Bus(false, false)

  /** Event monitoring is on and no event format is subscribed. */
  predicate Deaf(s: State) {
    s.modes.eventMon && s.bus == NO_BUS
  }

  /** A disable command that gets through. */
  predicate Disables(cfg: Config, d: CmdDelivery) {
    && d.GotCmd? && d.msg.kind.Command? && d.msg.code == CC_DISABLE_EVENT_MON
    && d.msg.length == ExpectedLength(cfg, CC_DISABLE_EVENT_MON) && d.long && d.short
  }

  /** The event table is lost in this cycle, or a disable command gets through. */
  predicate SwitchesOff(cfg: Config, x: CycleIn) {
    x.acquire.emt.Failed? || exists d :: d in x.pipes.cmds && Disables(cfg, d)
  }

  lemma DisableDeaf(s: State, long: bool, short: bool)
    requires WF(s) && Deaf(s)
    ensures var r := DisableEventMon(s, long, short); if long && short then !r.modes.eventMon else Deaf(r)
  {
    hide Do, Emit, Reject, SwitchCmd, SameMarks, SameTables, HalfDisabled, Deeds;
    BusOnly(s, Unsubscribe(LongFormat, long));
    BusOnly(Do(s, Unsubscribe(LongFormat, long)), Unsubscribe(ShortFormat, short));
  }

  /** An enable command does not repair it. */
  lemma EnableStaysDeaf(s: State, long: bool, short: bool)
    requires WF(s) && Deaf(s)
    ensures Deaf(EnableEventMon(s, long, short))
  {
    hide SubscribeBoth, SwitchCmd, Reject, HalfDisabled, Quiet;
  }

  lemma CmdDeaf(s: State, d: CmdDelivery)
    requires WF(s) && Deaf(s)
    ensures if Disables(s.cfg, d) then !OneCmd(s, d).modes.eventMon else Deaf(OneCmd(s, d))
  {
    hide Emit, Reject, SwitchCmd, CountCmd, EnableAppMon, EnableEventMon, DisableEventMon, SetCdsCmd;
    hide HalfDisabled, SameMarks, SameTables, Deeds, WF;
    if d.GotCmd? {
      EnableStaysDeaf(s, d.long, d.short);
      DisableDeaf(s, d.long, d.short);
    }
  }

  lemma {:induction false} CmdsDeaf(s: State, ds: seq<CmdDelivery>, n: nat)
    requires WF(s) && Deaf(s) && n <= |ds|
    ensures var r := DrainCmds(s, ds, n);
            if exists k :: 0 <= k < n && Disables(s.cfg, ds[k]) then SubscriptionsOk(r) else Deaf(r)
  {
    hide OneCmd, Deaf, Disables;
    if n > 0 {
      CmdsDeaf(s, ds, n - 1);
      var s1 := DrainCmds(s, ds, n - 1);
      if exists k :: 0 <= k < n - 1 && Disables(s.cfg, ds[k]) {
        CmdKeepsSubscriptions(s1, ds[n - 1]);
      } else {
        CmdDeaf(s1, ds[n - 1]);
      }
    }
  }

  /** A cycle in which the commands are read leaves HS as deaf as it was unless it switches event monitoring off. */
  lemma CycleDeaf(s: State, x: CycleIn)
    requires WF(s) && CycleFits(s.cfg, x) && Deaf(s) && CycleOk(s, x)
    ensures if SwitchesOff(s.cfg, x) then SubscriptionsOk(Cycle(s, x)) else Deaf(Cycle(s, x))
  {
    hide Do, BeforePipes, ProcessEvents, DrainCmds, Kept, HalfDisabled, SameMarks, SameTables, Disables, WF;
    BeforePipesLink(s, x);
    var s1 := BeforePipes(s, x);
    var s2 := ProcessEvents(s1, x.pipes);
    KeptLink(s1, s2);
    if x.acquire.emt.Failed? {
      CmdsKeepSubscriptions(s2, x.pipes.cmds, |x.pipes.cmds|);
    } else {
      CmdsDeaf(s2, x.pipes.cmds, |x.pipes.cmds|);
    }
    OpLink(ProcessCommands(s1, x.pipes), Watchdog);
  }

  lemma CdsLink(s: State, status: CdsStatus)
    requires WF(s)
    ensures SameLink(s, CdsPhase(s, status))
  {
    hide HalfDisabled, SameMarks, SameTables, Deeds, Do;
  }

  lemma LoadLink(s: State, x: InitIn)
    requires WF(s)
    ensures var r := LoadPhase(s, x); r.bus == s.bus && r.modes.eventMon == (s.modes.eventMon && x.emtLoad)
  {
    hide WF, Lost, Emit, HalfDisabled, SameMarks, SameTables, Deeds;
    LostMode(s, ExeCountTable, XCT_LD_ERR_EID);
    var s1 := if x.xctLoad then s else Lost(s, ExeCountTable, XCT_LD_ERR_EID);
    LostMode(s1, AppMonTable, AMT_LD_ERR_EID);
    var s2 := if x.amtLoad then s1
              else Emit(Lost(s1, AppMonTable, AMT_LD_ERR_EID), DISABLE_APPMON_ERR_EID);
    LostMode(s2, EventMonTable, EMT_LD_ERR_EID);
    var s3 := if x.emtLoad then s2
              else Emit(Lost(s2, EventMonTable, EMT_LD_ERR_EID), DISABLE_EVENTMON_ERR_EID);
    LostMode(s3, MsgActsTable, MAT_LD_ERR_EID);
  }

  lemma LostMode(s: State, table: Table, eid: uint16)
    requires WF(s)
    ensures var r := Lost(s, table, eid);
            r.bus == s.bus && r.modes.eventMon == (s.modes.eventMon && !table.EventMonTable?)
  {
    hide HalfDisabled, SameMarks, SameTables, Deeds;
  }

  /** Event monitoring is configured on, and its table was not lost if it came to loading it. */
  predicate StartsMonitoring(cfg: Config, x: InitIn) {
    cfg.eventMonDefault && (Registered(x.end) ==> x.emtLoad && !x.acquire.emt.Failed?)
  }

  /** When initialization ends nothing is subscribed. */
  lemma InitLink(s: State, x: InitIn)
    requires WF(s) && AcquireFits(s.cfg, x.acquire)
    ensures var r := AppInit(s, x); r.bus == NO_BUS && r.modes.eventMon == StartsMonitoring(s.cfg, x)
  {
    hide CdsPhase, LoadPhase, Acquire, Emit, HalfDisabled, SameMarks, SameTables, Deeds, WF;
    var s1 := CdsPhase(Do(s, Boot), x.cds);
    CdsLink(Do(s, Boot), x.cds);
    LoadLink(s1, x);
    AcquireLink(LoadPhase(s1, x), x.acquire);
  }

  /** A start-up that reaches the cycles: the subscription rule holds after it exactly when initialization was complete
      or event monitoring is off. Complete, it holds both subscriptions if monitoring is on; else none. */
  lemma StartUpSubscribes(s: State, x: InitIn)
    requires WF(s) && AcquireFits(s.cfg, x.acquire) && StartUpOk(s, x)
    ensures var r := StartUp(s, x);
            && r.modes.eventMon == StartsMonitoring(s.cfg, x)
            && (SubscriptionsOk(r) <==> x.end.Initialized? || !StartsMonitoring(s.cfg, x))
            && (r.modes.eventMon ==> r.bus == if x.end.Initialized? then Bus(true, true) else NO_BUS)
  {
    hide AppInit, Emit, StartsMonitoring, SameMarks, SameTables, Deeds;
    InitLink(s, x);
  }
}
