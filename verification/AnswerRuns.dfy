/** What the answers of the environment decide, over whole runs. */
module AnswerRuns {
  import opened HsTypes
  import opened CriticalData
  import opened HsState
  import opened HsSteps
  import opened HsRuns
  import opened ResetRuns
  import opened ActionRuns
  import opened UtilRuns
  import opened Exchange
  import opened CycleExchange
  import opened SilenceRuns
  import AppMonitor
  import AppMonitorRuns
  import CycleRuns
  import HsSound
  import U = Utilization

  // ---------- The kinds of operations in the parts of a cycle ----------

  /** What the table services answered for this table. */
  predicate Had(a: AcquireIn, t: Table) {
    match t
    case AppMonTable => !a.amt.Failed?
    case EventMonTable => !a.emt.Failed?
    case MsgActsTable => !a.mat.Failed?
    case ExeCountTable => a.xctOk
  }

  lemma LossKinds(t: Table, ok: bool, marked: bool, eid: uint16, op: Op)
    requires op in LossTalk(t, ok, marked, eid)
    ensures op == GotTable(t, ok) || op.Event?
  {
  }

  lemma EmtKinds(l: Loads, m: Modes, a: AcquireIn, op: Op)
    requires op in EmtTalk(l, m, a)
    ensures op == GotTable(EventMonTable, !a.emt.Failed?) || op.Event? || op.Unsubscribe?
  {
    hide LossTalk;
    var first := LossTalk(EventMonTable, !a.emt.Failed?, l.eventMon || m.eventMon, EVENTMON_GETADDR_ERR_EID);
    if op in first {
      LossKinds(EventMonTable, !a.emt.Failed?, l.eventMon || m.eventMon, EVENTMON_GETADDR_ERR_EID, op);
    }
  }

  lemma AcquireKinds(l: Loads, m: Modes, a: AcquireIn, op: Op)
    requires op in AcquireTalk(l, m, a)
    ensures (op.GotTable? && op.ok == Had(a, op.table)) || op.Event? || op.Unsubscribe?
  {
    hide LossTalk, EmtTalk;
    var first := LossTalk(AppMonTable, !a.amt.Failed?, l.appMon || m.appMon, APPMON_GETADDR_ERR_EID);
    var third := LossTalk(MsgActsTable, !a.mat.Failed?, l.msgActs, MSGACTS_GETADDR_ERR_EID);
    if op in first {
      LossKinds(AppMonTable, !a.amt.Failed?, l.appMon || m.appMon, APPMON_GETADDR_ERR_EID, op);
    } else if op in EmtTalk(l, m, a) {
      EmtKinds(l, m, a, op);
    } else if op in third {
      LossKinds(MsgActsTable, !a.mat.Failed?, l.msgActs, MSGACTS_GETADDR_ERR_EID, op);
    } else {
      LossKinds(ExeCountTable, a.xctOk, l.exeCount, EXECOUNT_GETADDR_ERR_EID, op);
    }
  }

  lemma LookKinds(e: AmtEntry, countdown: uint16, last: uint32, i: nat, x: AppInput, op: Op)
    requires op in LookTalk(e, countdown, last, i, x)
    ensures op.Event? || op.RestartApp? || op.Saw?
    ensures op.Saw? ==> op == Saw(i, x.sight, countdown == 1 && Miss(last, x.sight))
  {
  }

  lemma {:induction false} LooksKinds(amt: seq<AmtEntry>, countdown: seq<uint16>, last: seq<uint32>, xs: seq<AppInput>,
                                      n: nat, op: Op)
    requires n <= |amt| && n <= |countdown| && n <= |last| && n <= |xs| && op in LooksTalk(amt, countdown, last, xs, n)
    ensures op.Event? || op.RestartApp? || op.Saw?
    ensures op.Saw? ==> op.entry < n && op.sight == xs[op.entry].sight
                        && op.fired == (countdown[op.entry] == 1 && Miss(last[op.entry], op.sight))
  {
    hide LookTalk, Miss;
    if op in LookTalk(amt[n - 1], countdown[n - 1], last[n - 1], n - 1, xs[n - 1]) {
      LookKinds(amt[n - 1], countdown[n - 1], last[n - 1], n - 1, xs[n - 1], op);
    } else {
      LooksKinds(amt, countdown, last, xs, n - 1, op);
    }
  }

  /** Operations that an event brings about. */
  predicate OfEvents(op: Op) {
    op.RunEventMon? || op.Attempt? || op.RestartApp? || op.DeleteApp? || op.Event?
  }

  lemma MatchKinds(e: EmtEntry, i: nat, ev: EventMsg, x: EntryInput, op: Op)
    requires op in MatchTalk(e, i, ev, x)
    ensures OfEvents(op)
  {
  }

  lemma {:induction false} EntriesKinds(emt: seq<EmtEntry>, ev: EventMsg, xs: seq<EntryInput>, n: nat, op: Op)
    requires n <= |emt| && n <= |xs| && op in EntriesTalk(emt, ev, xs, n)
    ensures OfEvents(op)
  {
    hide MatchTalk, OfEvents;
    if op in EntriesTalk(emt, ev, xs, n - 1) {
      EntriesKinds(emt, ev, xs, n - 1, op);
    } else {
      MatchKinds(emt[n - 1], n - 1, ev, xs[n - 1], op);
    }
  }

  lemma {:induction false} EventsKinds(emt: seq<EmtEntry>, ds: seq<EventDelivery>, n: nat, op: Op)
    requires n <= |ds| && forall d | d in ds && d.GotEvent? :: |d.inputs| == |emt|
    requires op in EventsTalk(emt, ds, n)
    ensures OfEvents(op)
  {
    hide DeliveryTalk, OfEvents;
    if op in EventsTalk(emt, ds, n - 1) {
      EventsKinds(emt, ds, n - 1, op);
    } else {
      DeliveryKinds(emt, ds[n - 1], op);
    }
  }

  lemma DeliveryKinds(emt: seq<EmtEntry>, d: EventDelivery, op: Op)
    requires (d.GotEvent? ==> |d.inputs| == |emt|) && op in DeliveryTalk(emt, d)
    ensures OfEvents(op)
  {
    hide EntriesTalk;
    if op in EntriesTalk(emt, d.event, d.inputs, |emt|) {
      EntriesKinds(emt, d.event, d.inputs, |emt|, op);
    }
  }

  /** Operations that commands bring about. */
  predicate OfCommands(op: Op) {
    op.SendHk? || op.CmdAccepted? || op.CmdRejected? || op.ClearCounters? || op.Event? || op.Subscribe?
    || op.Unsubscribe?
  }

  lemma CmdKinds(cfg: Config, on: bool, d: CmdDelivery, op: Op)
    requires op in CmdTalk(cfg, on, d)
    ensures OfCommands(op)
  {
    hide Reply;
  }

  lemma {:induction false} CmdsKinds(cfg: Config, on: bool, ds: seq<CmdDelivery>, n: nat, op: Op)
    requires n <= |ds| && op in CmdsTalk(cfg, on, ds, n)
    ensures OfCommands(op)
  {
    hide CmdTalk, OfCommands;
    if op in CmdsTalk(cfg, on, ds, n - 1) {
      CmdsKinds(cfg, on, ds, n - 1, op);
    } else {
      CmdKinds(cfg, StillOn(cfg, on, ds, n - 1), ds[n - 1], op);
    }
  }

  // ---------- One operation of a cycle ----------

  /** The whole exchange of a cycle. */
  function CycleTalk(s: State, x: CycleIn): seq<Op>
    requires WF(s) && CycleFits(s.cfg, x)
  {
    PrepareTalk(s, x) + WatchTalk(s, x) + PipesTalk(s, x) + When(Cycle(s, x).rst.watchdog, [Watchdog])
  }

  /** What an exchanged operation of a cycle may be, given the answers. */
  predicate Licensed(s: State, x: CycleIn, op: Op)
    requires WF(s) && CycleFits(s.cfg, x)
  {
    && (op.GotTable? ==> op.ok == Had(x.acquire, op.table))
    && (op.RunAppMon? ==> AppsMonitored(s, x))
    && (op.Saw? ==> AppsMonitored(s, x) && op.entry < s.cfg.apps && op.sight == x.apps[op.entry].sight
                    && |CountdownNow(s, x)| == |LastNow(s, x)| == s.cfg.apps
                    && op.fired == (CountdownNow(s, x)[op.entry] == 1 && Miss(LastNow(s, x)[op.entry], op.sight)))
    && (op.RunEventMon? || op.Attempt? ==> EventsMonitored(s, x))
    && !op.Boot?
  }

  lemma PrepareKinds(s: State, x: CycleIn, op: Op)
    requires WF(s) && CycleFits(s.cfg, x) && op in PrepareTalk(s, x)
    ensures op.CycleStart? || op.Tick? || op.TakeSample? || op.UtilTick? || op.Event? || op.Unsubscribe?
            || (op.GotTable? && op.ok == Had(x.acquire, op.table))
  {
    hide AcquireTalk;
    if op in AcquireTalk(s.loads, s.modes, x.acquire) {
      AcquireKinds(s.loads, s.modes, x.acquire, op);
    }
  }

  lemma WatchKinds(s: State, x: CycleIn, op: Op)
    requires WF(s) && CycleFits(s.cfg, x) && op in WatchTalk(s, x)
    ensures op.RunAppMon? || op.Event? || op.RestartApp? || op.Saw? || op.AliveTick?
    ensures Licensed(s, x, op)
  {
    hide LooksTalk, Miss, CountdownNow, LastNow, TableNow;
    NowSizes(s, x);
    if AppsMonitored(s, x) && op in LooksTalk(TableNow(s, x), CountdownNow(s, x), LastNow(s, x), x.apps, s.cfg.apps) {
      LooksKinds(TableNow(s, x), CountdownNow(s, x), LastNow(s, x), x.apps, s.cfg.apps, op);
    }
  }

  lemma NowSizes(s: State, x: CycleIn)
    requires WF(s) && CycleFits(s.cfg, x)
    ensures |CountdownNow(s, x)| == |LastNow(s, x)| == |TableNow(s, x)| == s.cfg.apps
  {
  }

  lemma PipesKinds(s: State, x: CycleIn, op: Op)
    requires WF(s) && CycleFits(s.cfg, x) && op in PipesTalk(s, x)
    ensures OfCommands(op) || (EventsMonitored(s, x) && OfEvents(op))
  {
    hide EventsTalk, CmdsTalk;
    var on := EventsMonitored(s, x);
    if on && op in EventsTalk(EventsNow(s, x), x.pipes.events, |x.pipes.events|) {
      EventsKinds(EventsNow(s, x), x.pipes.events, |x.pipes.events|, op);
    } else {
      CmdsKinds(s.cfg, on, x.pipes.cmds, |x.pipes.cmds|, op);
    }
  }

  lemma CycleKinds(s: State, x: CycleIn, op: Op)
    requires WF(s) && CycleFits(s.cfg, x) && op in CycleTalk(s, x)
    ensures Licensed(s, x, op)
  {
    hide PrepareTalk, WatchTalk, PipesTalk, Cycle;
    if op in PrepareTalk(s, x) {
      PrepareKinds(s, x, op);
    } else if op in WatchTalk(s, x) {
      WatchKinds(s, x, op);
    } else if op in PipesTalk(s, x) {
      PipesKinds(s, x, op);
    }
  }

  lemma {:induction false} ExchangesGrow(t: Trace, b: Trace)
    requires Extends(t, b)
    ensures Exchanges(b) <= Exchanges(t)
  {
    hide Exchanged;
    if t != b {
      ExchangesGrow(t.before, b);
    }
  }

  /** An exchanged operation between two moments is part of what was exchanged between them. */
  lemma WasExchanged(r: Trace, t: Trace, b: Trace, ops: seq<Op>)
    requires Extends(r, t) && t.Then? && Extends(t.before, b) && Exchanged(t.op)
    requires Exchanges(r) == Exchanges(b) + ops
    ensures t.op in ops
  {
    hide Exchanged;
    ExchangesGrow(r, t);
    ExchangesGrow(t.before, b);
    var k := |Exchanges(t.before)|;
    assert Exchanges(t)[k] == t.op;
    assert Exchanges(r)[k] == t.op && ops[k - |Exchanges(b)|] == t.op;
  }

  lemma CycleOp(s: State, x: CycleIn, t: Trace)
    requires WF(s) && CycleFits(s.cfg, x)
    requires Extends(Cycle(s, x).log, t) && t.Then? && Extends(t.before, s.log) && Exchanged(t.op)
    ensures Licensed(s, x, t.op)
  {
    hide Cycle, PrepareTalk, WatchTalk, PipesTalk, Licensed, Exchanged;
    CycleSays(s, x);
    WasExchanged(Cycle(s, x).log, t, s.log, CycleTalk(s, x));
    CycleKinds(s, x, t.op);
  }

  // ---------- No work from a table that could not be had ----------

  lemma CycleBegins(s: State, x: CycleIn)
    requires WF(s) && CycleFits(s.cfg, x)
    ensures Extends(Cycle(s, x).log, Then(s.log, CycleStart))
  {
    hide Do, Acquire, UtilPhase, AppPhase, AlivePhase, ProcessCommands, AcquireTalk, UtilTalk, EventsTalk, CmdsTalk,
         LooksTalk, WF, Extends, Confined, SameMarks, SameTables, HalfDisabled, Deeds;
    var s0 := Do(s, CycleStart);
    DoReset(s, CycleStart);
    AcquireSays(s0, x.acquire);
    var s1 := Acquire(s0, x.acquire);
    OpOwn(s1, Tick, false);
    var s2 := Do(s1, Tick);
    ExtendsOn(s2.log, s1.log, s0.log);
    UtilSays(s2, x.reading);
    var s3 := UtilPhase(s2, x.reading);
    ExtendsOn(s3.log, s2.log, s0.log);
    AppSays(s3, x.apps);
    var s4 := AppPhase(s3, x.apps);
    ExtendsOn(s4.log, s3.log, s0.log);
    AliveSays(s4);
    var s5 := AlivePhase(s4);
    ExtendsOn(s5.log, s4.log, s0.log);
    PipesSay(s5, x.pipes);
    var s6 := ProcessCommands(s5, x.pipes);
    ExtendsOn(s6.log, s5.log, s0.log);
    OpOwn(s6, Watchdog, true);
    ExtendsOn(Do(s6, Watchdog).log, s6.log, s0.log);
  }

  lemma {:induction false} Longer(t: Trace, b: Trace)
    requires Extends(t, b)
    ensures Length(b) <= Length(t)
  {
    if t != b {
      Longer(t.before, b);
    }
  }

  lemma {:induction false} SameNext(r: Trace, b: Trace, o1: Op, o2: Op)
    requires Extends(r, Then(b, o1)) && Extends(r, Then(b, o2))
    ensures o1 == o2
  {
    if r == Then(b, o1) || r == Then(b, o2) {
      if o1 != o2 {
        Longer(b, Then(b, if r == Then(b, o1) then o2 else o1));
      }
    } else {
      SameNext(r.before, b, o1, o2);
    }
  }

  /** A table that counts as acquired at a moment of the cycle was had at the begin of this cycle. */
  lemma {:induction false} HadInCycle(s: State, x: CycleIn, t: Trace, table: Table)
    requires WF(s) && CycleFits(s.cfg, x)
    requires Extends(Cycle(s, x).log, t) && Extends(t, Then(s.log, CycleStart)) && TableOk(t, table)
    ensures Had(x.acquire, table)
  {
    hide Cycle, Had;
    if t != Then(s.log, CycleStart) {
      ExtendsOn(t.before, Then(s.log, CycleStart), s.log);
      if t.op.GotTable? && t.op.table == table {
        CycleOp(s, x, t);
      } else {
        ExtendsOn(Cycle(s, x).log, t, t.before);
        HadInCycle(s, x, t.before, table);
      }
    }
  }

  /** What may be done in a cycle, given the answers of the table services in this cycle. */
  predicate TableHad(a: AcquireIn, op: Op) {
    && (op.RunAppMon? || op.Saw? ==> !a.amt.Failed?)
    && (op.RunEventMon? || op.Attempt? ==> !a.emt.Failed?)
    && (op.Transmit? ==> !a.mat.Failed?)
  }

  /** In every run: each look, each monitored or matched event and each send of a cycle was made although none of the
      answers for the table it needs was a failure in that very cycle. */
  lemma OwnTablesOnly(cfg: Config, run: Run, t: Trace)
    requires Possible(cfg, run) && run.Wakeup?
    requires Extends(After(cfg, run).log, t) && t.Then? && Extends(t.before, After(cfg, run.before).log)
    ensures TableHad(run.cycle.acquire, t.op)
  {
    hide Cycle, Replay, Lawful, Do, Can, CycleOk, Guarded, TableHad, Extends, WF;
    PrefixLawful(cfg, After(cfg, run).log, t);
    LawfulGuarded(cfg, t);
    OwnTablesInCycle(After(cfg, run.before), run.cycle, t);
  }

  lemma OwnTablesInCycle(s: State, x: CycleIn, t: Trace)
    requires WF(s) && CycleFits(s.cfg, x) && t.Then? && Guarded(t)
    requires Extends(Cycle(s, x).log, t) && Extends(t.before, s.log)
    ensures TableHad(x.acquire, t.op)
  {
    hide Cycle, TableOk, WF, LastNow, CountdownNow, Miss;
    if t.op.Transmit? {
      CycleBegins(s, x);
      if t.before == s.log {
        SameNext(Cycle(s, x).log, s.log, t.op, CycleStart);
      }
      ExtendsOn(Cycle(s, x).log, t, t.before);
      AfterFirst(Cycle(s, x).log, t.before, s.log, CycleStart);
      HadInCycle(s, x, t.before, MsgActsTable);
    } else if Exchanged(t.op) {
      CycleOp(s, x, t);
    }
  }

  /** A later moment comes after the first operation. */
  lemma {:induction false} AfterFirst(r: Trace, t: Trace, b: Trace, o: Op)
    requires Extends(r, t) && Extends(t, b) && t != b && Extends(r, Then(b, o))
    ensures Extends(t, Then(b, o))
  {
    if t.before == b {
      SameNext(r, b, t.op, o);
    } else {
      ExtendsOn(r, t, t.before);
      AfterFirst(r, t.before, b, o);
    }
  }

  // ---------- An application that shows signs of life ----------

  /** In this cycle application i is given an execution count other than the last one. */
  predicate Moves(s: State, x: CycleIn, i: nat)
    requires WF(s) && CycleFits(s.cfg, x) && i < s.cfg.apps
  {
    NowSizes(s, x);
    !Miss(LastNow(s, x)[i], x.apps[i].sight)
  }

  /** Since `base` no look at entry i used up its countdown. */
  predicate NotFired(t: Trace, base: Trace, i: nat)
    requires Extends(t, base)
  {
    t == base || (!(t.op.Saw? && t.op.entry == i && t.op.fired) && NotFired(t.before, base, i))
  }

  lemma {:induction false} MovesNotFired(s: State, x: CycleIn, i: nat, t: Trace)
    requires WF(s) && CycleFits(s.cfg, x) && i < s.cfg.apps && Moves(s, x, i)
    requires Extends(Cycle(s, x).log, t) && Extends(t, s.log)
    ensures NotFired(t, s.log, i)
  {
    hide Cycle, Miss;
    if t != s.log {
      ExtendsOn(Cycle(s, x).log, t, t.before);
      MovesNotFired(s, x, i, t.before);
      if t.op.Saw? {
        CycleOp(s, x, t);
      }
    }
  }

  /** The last k steps of the run were cycles in which application i moved. */
  predicate MovesFor(cfg: Config, run: Run, i: nat, k: nat)
    requires Possible(cfg, run) && i < cfg.apps
  {
    k == 0 || (run.Wakeup? && MovesFor(cfg, run.before, i, k - 1) && Moves(After(cfg, run.before), run.cycle, i))
  }

  lemma {:induction false} NotFiredOn(t: Trace, b: Trace, a: Trace, i: nat)
    requires Extends(t, b) && Extends(b, a) && NotFired(t, b, i) && NotFired(b, a, i)
    ensures Extends(t, a) && NotFired(t, a, i)
  {
    ExtendsOn(t, b, a);
    if t != b {
      NotFiredOn(t.before, b, a, i);
    }
  }

  /** In every run: while the execution count of an application moves in every cycle its countdown is never used up,
      whatever tables are loaded and commands executed meanwhile. */
  lemma {:induction false} MovingNeverFires(cfg: Config, run: Run, i: nat, k: nat)
    requires Possible(cfg, run) && i < cfg.apps && MovesFor(cfg, run, i, k) && Possible(cfg, Back(run, k))
    ensures Extends(After(cfg, run).log, After(cfg, Back(run, k)).log)
    ensures NotFired(After(cfg, run).log, After(cfg, Back(run, k)).log, i)
    ensures k > 0 ==> Extends(After(cfg, run).log, Then(After(cfg, Back(run, k)).log, CycleStart))
  {
    hide After, Cycle, Moves, Up, Reachable, HsSound.Resting, WF, Possible;
    if k > 0 {
      BackPossible(cfg, run, 1);
      assert Back(run, 1) == run.before;
      MovingNeverFires(cfg, run.before, i, k - 1);
      MovingStep(cfg, run, i);
      NotFiredOn(After(cfg, run).log, After(cfg, run.before).log, After(cfg, Back(run, k)).log, i);
      if k > 1 {
        ExtendsOn(After(cfg, run).log, After(cfg, run.before).log, Then(After(cfg, Back(run, k)).log, CycleStart));
      }
    }
  }

  lemma MovingStep(cfg: Config, run: Run, i: nat)
    requires Possible(cfg, run) && run.Wakeup? && i < cfg.apps && Moves(After(cfg, run.before), run.cycle, i)
    ensures var b := After(cfg, run.before).log;
            && Extends(After(cfg, run).log, b) && NotFired(After(cfg, run).log, b, i)
            && Extends(After(cfg, run).log, Then(b, CycleStart))
  {
    hide Cycle, Moves, Replay, Lawful, Do, Can, CycleTalk, PrepareTalk, WatchTalk, PipesTalk, Exchanges, NotFired;
    var s, x := After(cfg, run.before), run.cycle;
    CycleSays(s, x);
    CycleBegins(s, x);
    assert Extends(Cycle(s, x).log, Cycle(s, x).log);
    MovesNotFired(s, x, i, Cycle(s, x).log);
  }

  lemma {:induction false} ActingWithin(t: Trace, base: Trace, i: nat)
    requires Extends(t, Then(base, CycleStart)) && Extends(t, base) && NotFired(t, base, i)
    ensures Acting(t).Some? ==> !(Acting(t).value.Saw? && Acting(t).value.entry == i)
  {
    Longer(t, Then(base, CycleStart));
    if t != Then(base, CycleStart) {
      ExtendsOn(t.before, Then(base, CycleStart), base);
      ActingWithin(t.before, base, i);
    }
  }

  lemma {:induction false} NotFiredBefore(r: Trace, t: Trace, base: Trace, i: nat)
    requires Extends(r, t) && Extends(t, base) && Extends(r, base) && NotFired(r, base, i)
    ensures NotFired(t, base, i)
  {
    if r != t {
      if r == base {
        Longer(t, base);
        Longer(base, t);
        SameLength(r, t);
      } else {
        NotFiredBefore(r.before, t, base, i);
      }
    }
  }

  lemma SameLength(r: Trace, t: Trace)
    requires Extends(r, t) && Length(r) == Length(t)
    ensures r == t
  {
    if r != t {
      Longer(r.before, t);
    }
  }

  /** So HS never acts on it: whatever is done in those cycles answers a look at another application, or an event. */
  lemma MovingNeverActedOn(cfg: Config, run: Run, i: nat, k: nat, t: Trace)
    requires Possible(cfg, run) && i < cfg.apps && MovesFor(cfg, run, i, k) && Possible(cfg, Back(run, k))
    requires Extends(After(cfg, run).log, t) && t.Then? && Extends(t.before, After(cfg, Back(run, k)).log)
    requires Acts(t.op) || Counts(t.op)
    ensures LatestCall(t.before).Some? && Calls(LatestCall(t.before).value)
    ensures !(LatestCall(t.before).value.Saw? && LatestCall(t.before).value.entry == i)
  {
    hide After, Replay, Lawful, EntryAsks, MovesFor, NotFired, Up;
    var r, base := After(cfg, run).log, After(cfg, Back(run, k)).log;
    MovingNeverFires(cfg, run, i, k);
    AnswersAt(cfg, run, t);
    if k == 0 {
      Longer(t.before, base);
      Longer(r, t);
    } else {
      ExtendsOn(r, t, t.before);
      if t.before == base {
        SameNext(r, base, t.op, CycleStart);
      }
      AfterFirst(r, t.before, base, CycleStart);
      NotFiredBefore(r, t.before, base, i);
      ActingWithin(t.before, base, i);
    }
  }

  lemma AnswersAt(cfg: Config, run: Run, t: Trace)
    requires Possible(cfg, run) && Extends(After(cfg, run).log, t) && t.Then? && (Acts(t.op) || Counts(t.op))
    ensures LatestCall(t.before).Some? && Acting(t.before) == LatestCall(t.before)
    ensures Calls(LatestCall(t.before).value)
  {
    hide After, Replay, Lawful, EntryAsks;
    OnlyWhatWasAsked(cfg, run);
    PrefixLawful(cfg, After(cfg, run).log, t);
    LawfulObedient(cfg, t);
    ActingIsLatest(t.before);
  }

  // ---------- A look that finds a new count ----------

  /** From s to r entry i holds this count and its whole cycle count again. */
  predicate Revived(s: State, r: State, i: nat, count: uint32)
    requires i < |s.app.amt|
  {
    && i < |r.app.mon.countdown| && i < |r.app.mon.last|
    && r.app.mon.countdown[i] == s.app.amt[i].cycleCount && r.app.mon.last[i] == count
  }

  lemma EntryRevives(s: State, i: nat, x: AppInput)
    requires WF(s) && i < s.cfg.apps && s.app.mon.countdown[i] != 0 && s.app.amt[i].action != ACT_NOACT
    requires !Miss(s.app.mon.last[i], x.sight)
    ensures Revived(s, AppEntry(s, i, x), i, x.sight.count)
  {
    hide Do, Emit, NameReport, AppAction, Acted, Confined, SameMarks, SameTables, HalfDisabled, Deeds;
    NameStays(s, i, x);
    var s1 := NameReport(s, i, x);
    SawEffect(s1, i, x.sight);
  }

  lemma {:induction false} MonitorRevives(s: State, xs: seq<AppInput>, n: nat, i: nat)
    requires WF(s) && i < n <= s.cfg.apps && |xs| == s.cfg.apps
    requires s.app.mon.countdown[i] != 0 && s.app.amt[i].action != ACT_NOACT
    requires !Miss(s.app.mon.last[i], xs[i].sight)
    ensures Revived(s, MonitorApps(s, xs, n), i, xs[i].sight.count)
  {
    hide AppEntry, SameMarks, SameTables, HalfDisabled, Deeds, Miss;
    var s1 := MonitorApps(s, xs, n - 1);
    if n - 1 == i {
      MonitorSpares(s, xs, i, i);
      EntryRevives(s1, i, xs[i]);
    } else {
      MonitorRevives(s, xs, n - 1, i);
      EntrySpares(s1, n - 1, xs[n - 1], i);
    }
  }

  /** A cycle in which the monitor runs, entry i is armed and its application moved: the countdown is whole again and
      the new count is remembered. */
  lemma MovingRevives(s: State, x: CycleIn, i: nat)
    requires WF(s) && CycleFits(s.cfg, x) && i < s.cfg.apps && Moves(s, x, i) && AppsMonitored(s, x)
    requires forall d | d in x.pipes.cmds :: !ArmsAgain(d)
    requires |CountdownNow(s, x)| == |TableNow(s, x)| == s.cfg.apps
    requires CountdownNow(s, x)[i] != 0 && TableNow(s, x)[i].action != ACT_NOACT
    ensures var r := Cycle(s, x);
            && r.app.mon.countdown[i] == TableNow(s, x)[i].cycleCount && x.apps[i].sight.Seen?
            && r.app.mon.last[i] == x.apps[i].sight.count
  {
    hide Do, Prepare, MonitorApps, AlivePhase, ProcessCommands, WatchdogPhase, Confined, SameMarks, SameTables,
         HalfDisabled, Deeds, ArmsAgain, PrepareTalk, Says, TableNow, CountdownNow, LastNow;
    PrepareSays(s, x);
    var p := Prepare(s, x);
    var p1 := Do(p, RunAppMon);
    OpStays(p, RunAppMon);
    MonitorRevives(p1, x.apps, s.cfg.apps, i);
    RestStays(MonitorApps(p1, x.apps, s.cfg.apps), x.pipes);
  }

  // ---------- The readings behind the utilization reports ----------

  /** The samples among exchanged operations since the last boot. */
  function SamplesIn(ops: seq<Op>): seq<U.Sample> {
    if ops == [] then [] else
      var before, op := SamplesIn(ops[..|ops| - 1]), ops[|ops| - 1];
      if op.Boot? then [] else if op.TakeSample? then before + [op.sample] else before
  }

  lemma {:induction false} SamplesExchanged(t: Trace)
    ensures SamplesOf(t) == SamplesIn(Exchanges(t))
  {
    if t.Then? {
      SamplesExchanged(t.before);
      var e := Exchanges(t.before);
      if Exchanged(t.op) {
        assert (e + [t.op])[..|e|] == e;
      } else {
        assert e + [] == e;
      }
    }
  }

  lemma {:induction false} NoSamples(p: seq<Op>, q: seq<Op>)
    requires forall op | op in q :: !op.Boot? && !op.TakeSample?
    ensures SamplesIn(p + q) == SamplesIn(p)
  {
    if q == [] {
      assert p + q == p;
    } else {
      var r := q[..|q| - 1];
      NoSamples(p, r);
      assert (p + q)[..|p + q| - 1] == p + r && (p + q)[|p + q| - 1] == q[|q| - 1];
    }
  }

  lemma SampleOne(p: seq<Op>, x: U.Sample)
    ensures SamplesIn(p + [TakeSample(x)]) == SamplesIn(p) + [x]
  {
    assert (p + [TakeSample(x)])[..|p|] == p;
  }

  /** The parts of a cycle's exchange before and after the place of the sample. */
  lemma RestNoSamples(s: State, x: CycleIn, op: Op)
    requires WF(s) && CycleFits(s.cfg, x)
    requires op in [CycleStart] + AcquireTalk(s.loads, s.modes, x.acquire) + [Tick]
             || op in WatchTalk(s, x) || op in PipesTalk(s, x) || op == UtilTick || op == Watchdog
    ensures !op.Boot? && !op.TakeSample?
  {
    hide AcquireTalk, WatchTalk, PipesTalk, Licensed;
    if op in AcquireTalk(s.loads, s.modes, x.acquire) {
      AcquireKinds(s.loads, s.modes, x.acquire, op);
    } else if op in WatchTalk(s, x) {
      WatchKinds(s, x, op);
    } else if op in PipesTalk(s, x) {
      PipesKinds(s, x, op);
    }
  }

  /** When the utilization counter has run down a cycle takes one sample, the reading it is given as it is; else
      none. */
  lemma CycleSamples(s: State, x: CycleIn)
    requires WF(s) && CycleFits(s.cfg, x)
    ensures SamplesOf(Cycle(s, x).log)
              == SamplesOf(s.log) + if s.cpu.cycle == 0 then [U.Sample(x.reading, s.modes.cpuHog)] else []
  {
    hide Cycle, AcquireTalk, WatchTalk, PipesTalk, SamplesIn, Exchanges, Extends, MonitorEvents;
    CycleSays(s, x);
    SamplesExchanged(s.log);
    SamplesExchanged(Cycle(s, x).log);
    var e, sample := Exchanges(s.log), U.Sample(x.reading, s.modes.cpuHog);
    var first := [CycleStart] + AcquireTalk(s.loads, s.modes, x.acquire) + [Tick];
    var last := [UtilTick] + WatchTalk(s, x) + PipesTalk(s, x) + When(Cycle(s, x).rst.watchdog, [Watchdog]);
    forall op | op in first || op in last ensures !op.Boot? && !op.TakeSample? {
      RestNoSamples(s, x, op);
    }
    NoSamples(e, first);
    if s.cpu.cycle == 0 {
      SampleOne(e + first, sample);
      NoSamples(e + first + [TakeSample(sample)], last);
      assert e + CycleTalk(s, x) == e + first + [TakeSample(sample)] + last;
    } else {
      NoSamples(e + first, last);
      assert e + CycleTalk(s, x) == e + first + last;
    }
  }

  /** Cycles since the last start-up. */
  function CyclesUp(run: Run): nat {
    match run
    case Wakeup(b, _) => CyclesUp(b) + 1
    case Upset(b, _) => CyclesUp(b)
    case _ => 0
  }

  /** The readings of the sampling cycles of this boot: the first cycle and every Period-th after it. */
  function ReadingsOf(cfg: Config, run: Run): seq<U.Sample>
    requires Possible(cfg, run)
  {
    match run
    case Wakeup(b, x) =>
      ReadingsOf(cfg, b)
      + if CyclesUp(b) % CycleRuns.Period(cfg) == 0 then [U.Sample(x.reading, After(cfg, b).modes.cpuHog)] else []
    case Upset(b, _) => ReadingsOf(cfg, b)
    case _ => []
  }

  lemma {:induction false} SamplesCounted(t: Trace)
    ensures |SamplesOf(t)| == MarksOf(t).samples
  {
    if t.Then? {
      SamplesCounted(t.before);
    }
  }

  lemma UpsetSamples(s: State, r: Cds)
    requires WF(s)
    ensures SamplesOf(Do(s, CdsUpset(r)).log) == SamplesOf(s.log)
    ensures MarksOf(Do(s, CdsUpset(r)).log) == MarksOf(s.log)
  {
    hide Do;
    DoReset(s, CdsUpset(r));
  }

  /** In every run in which HS is up the samples of the boot are the readings of its sampling cycles. */
  lemma {:induction false} SamplesAreReadings(cfg: Config, run: Run)
    requires Possible(cfg, run) && Up(cfg, run)
    ensures SamplesOf(After(cfg, run).log) == ReadingsOf(cfg, run)
    ensures MarksOf(After(cfg, run).log).utilTicks == CyclesUp(run)
  {
    hide StartUp, Cycle, StartUpOk, CycleOk, Do, CycleRuns.Period, HsSound.Resting, SamplesOf, MarksOf;
    match run
    case StartsUp(b, x) =>
      CycleRuns.StartUpMarks(After(cfg, b), x);
      SamplesCounted(After(cfg, run).log);
    case Wakeup(b, x) =>
      SamplesAreReadings(cfg, b);
      ReadingStep(After(cfg, b), x);
    case Upset(b, r) =>
      SamplesAreReadings(cfg, b);
      UpsetSamples(After(cfg, b), r);
  }

  lemma ReadingStep(s: State, x: CycleIn)
    requires HsSound.Resting(s) && CycleFits(s.cfg, x)
    ensures SamplesOf(Cycle(s, x).log)
              == SamplesOf(s.log) + if MarksOf(s.log).utilTicks % CycleRuns.Period(s.cfg) == 0
                                    then [U.Sample(x.reading, s.modes.cpuHog)] else []
    ensures MarksOf(Cycle(s, x).log).utilTicks == MarksOf(s.log).utilTicks + 1
  {
    hide Cycle, SamplesOf, MarksOf, CycleRuns.Period, ResetThisBoot, BeforePipes;
    CycleSamples(s, x);
    CycleRuns.CycleMarks(s, x);
    CycleRuns.DueOnMultiples(s);
  }

  /** So, in every run in which HS is up, what is reported is the mean and the peak of the history of the readings of
      this boot, and the hogging events sent are those owed for the streaks of hot ones. */
  lemma ReportsReadings(cfg: Config, run: Run)
    requires Possible(cfg, run) && Up(cfg, run)
    ensures var u, xs := After(cfg, run).cpu.util, ReadingsOf(cfg, run);
            xs != [] ==>
              if xs[|xs| - 1].reading < 0 then u.avg == U.UNKNOWN && u.peak == U.UNKNOWN
              else var h := U.History(cfg, xs);
                   u.avg == U.Mean(U.Sum(U.LastN(h, cfg.avgN)), cfg.avgN) && u.peak == U.Max(U.LastN(h, cfg.peakN))
    ensures HogEvents(After(cfg, run).log) == U.OwedAll(cfg, U.Streaks(cfg, ReadingsOf(cfg, run)))
  {
    hide After, Up, Possible, ReadingsOf, Replay, Lawful, SamplesOf, HogEvents;
    SamplesAreReadings(cfg, run);
    UpReplays(cfg, run);
    if ReadingsOf(cfg, run) != [] {
      ReportsSampledHistory(cfg, After(cfg, run).log);
    }
    HogEventsPerStreak(cfg, After(cfg, run).log);
  }

  lemma UpReplays(cfg: Config, run: Run)
    requires Possible(cfg, run) && Up(cfg, run)
    ensures var s := After(cfg, run); Lawful(cfg, s.log) && Replay(cfg, s.log) == s && !Owing(s)
  {
    hide After, Up, Possible, Replay, Lawful, Owing, Due;
  }

  // ---------- Where the event monitor's own events are sent ----------

  /** In a cycle the event monitor's own events are sent only while the event pipe is drained: none before, and none
      by the commands after it. */
  lemma OwnEventsOnlyInDrain(s: State, x: CycleIn)
    requires WF(s) && CycleFits(s.cfg, x)
    ensures var p := BeforePipes(s, x);
            && MonitorEvents(p.log) == MonitorEvents(s.log)
            && MonitorEvents(Cycle(s, x).log) == MonitorEvents(ProcessEvents(p, x.pipes).log)
  {
    hide BeforePipes, ProcessEvents, DrainCmds, Do, PrepareTalk, WatchTalk, CmdsTalk, MonitorEvents, Quiet, WF, Kept,
         Exchanges, Extends;
    BeforePipesSays(s, x);
    var p := BeforePipes(s, x);
    var q := ProcessEvents(p, x.pipes);
    CmdsSay(q, x.pipes.cmds, |x.pipes.cmds|);
    var r := ProcessCommands(p, x.pipes);
    OpOwn(r, Watchdog, false);
  }
}
