/** Whole runs; every run is lawful. */
module HsRuns {
  import opened HsTypes
  import opened CriticalData
  import opened HsState
  import opened HsSteps
  import opened HsSound
  import opened ResetRuns
  import opened CycleRuns
  import opened EventRuns
  import Utilization

  /** Start-ups, wakeups, upsets of the critical data store, and resets that cut HS short at any operation.
      Every run leaves a lawful log, so what is proved of lawful traces holds in every run. */
  datatype Run =
    | PowerOff
    | StartsUp(before: Run, init: InitIn)
    | Wakeup(before: Run, cycle: CycleIn)
    | Upset(before: Run, record: Cds)
    | CutShort(before: Run, lost: nat)

  function Length(t: Trace): nat {
    if t.Start? then 0 else Length(t.before) + 1
  }

  /** The trace without its last n operations. */
  function Drop(t: Trace, n: nat): (r: Trace)
    ensures Extends(t, r)
  {
    if n == 0 || t.Start? then t else Drop(t.before, n - 1)
  }

  /** The inputs fit the configuration, HS runs cycles only while its main loop does, and a reset loses only
      operations of the start-up or cycle that it interrupts. */
  predicate Possible(cfg: Config, run: Run)
    decreases run, 0
  {
    && ValidConfig(cfg)
    && match run
       case PowerOff => true
       case StartsUp(b, x) => Possible(cfg, b) && AcquireFits(cfg, x.acquire)
       case Wakeup(b, x) => Possible(cfg, b) && Up(cfg, b) && CycleFits(cfg, x)
       case Upset(b, _) => Possible(cfg, b)
       case CutShort(b, n) =>
         && (b.StartsUp? || b.Wakeup?) && Possible(cfg, b)
         && Length(After(cfg, b).log) - n >= Length(After(cfg, b.before).log)
  }

  /** The main loop is running. */
  predicate Up(cfg: Config, run: Run)
    requires Possible(cfg, run)
    decreases run, 1
  {
    match run
    case PowerOff => false
    case StartsUp(b, x) => StartUpOk(After(cfg, b), x)
    case Wakeup(b, x) => CycleOk(After(cfg, b), x)
    case Upset(b, _) => Up(cfg, b)
    case CutShort(_, _) => false
  }

  /** The state a run leads to: always one its own lawful log accounts for. */
  function After(cfg: Config, run: Run): (s: State)
    requires Possible(cfg, run)
    ensures WF(s) && s.cfg == cfg && Reachable(s)
    ensures Up(cfg, run) ==> Resting(s)
    decreases run, 2
  {
    hide Do, Cycle, StartUp, CycleOk, StartUpOk;
    match run
    case PowerOff => Replay(cfg, Start)
    case StartsUp(b, x) =>
      StartUpSound(After(cfg, b), x);
      StartUp(After(cfg, b), x)
    case Wakeup(b, x) =>
      CycleSound(After(cfg, b), x);
      Cycle(After(cfg, b), x)
    case Upset(b, r) =>
      UpsetSound(After(cfg, b), r);
      Do(After(cfg, b), CdsUpset(r))
    case CutShort(b, n) =>
      var t := After(cfg, b).log;
      PrefixLawful(cfg, t, Drop(t, n));
      Replay(cfg, Drop(t, n))
  }

  lemma UpsetSound(s: State, r: Cds)
    requires WF(s) && Reachable(s)
    ensures Reachable(Do(s, CdsUpset(r)))
    ensures Resting(s) ==> Resting(Do(s, CdsUpset(r)))
  {
    hide Do, Reachable, Owing, Due, Consistent, MarksOf, HalfDisabled, Deeds;
    Reach(s, CdsUpset(r));
    DoReset(s, CdsUpset(r));
    UpsetLeaves(s, r);
  }

  lemma UpsetLeaves(s: State, r: Cds)
    requires WF(s)
    ensures var s' := Do(s, CdsUpset(r)); (Owing(s') <==> Owing(s)) && (Due(s') <==> Due(s))
  {
    hide MarksOf, TableOk, Sampled, HalfDisabled, Deeds, Utilization.Hot, Pending, Granted;
    var s' := Do(s, CdsUpset(r));
    assert s'.log == Then(s.log, CdsUpset(r));
    assert LastSample(s'.log) == LastSample(s.log) && Counting(s'.log) == Counting(s.log);
    PendingKept(s, s', CdsUpset(r));
    GrantedAs(s, s');
  }

  // ---------- Monitors never work from a table that was not acquired ----------

  /** Every look at an application, every event handed to the monitor or acted on and every message sent came
      after the table it needs was acquired with success in the same cycle. */
  predicate Guarded(t: Trace) {
    t.Then? ==>
      && Guarded(t.before)
      && match t.op
         case RunAppMon => TableOk(t.before, AppMonTable)
         case Saw(_, _, _) => TableOk(t.before, AppMonTable)
         case RunEventMon(_) => TableOk(t.before, EventMonTable)
         case Attempt(_, _, _) => TableOk(t.before, EventMonTable)
         case Transmit(_) => TableOk(t.before, MsgActsTable)
         case _ => true
  }

  lemma {:induction false} LawfulGuarded(cfg: Config, t: Trace)
    requires Lawful(cfg, t)
    ensures Guarded(t)
  {
    hide Do, TableOk;
    if t.Then? {
      LawfulGuarded(cfg, t.before);
    }
  }

  /** Whatever the table services answer and whenever enable commands arrive. */
  lemma NeverOnUnacquiredTable(cfg: Config, run: Run)
    requires Possible(cfg, run)
    ensures Guarded(After(cfg, run).log)
  {
    LawfulGuarded(cfg, After(cfg, run).log);
  }

  // ---------- Subscriptions ----------

  lemma UpsetLink(s: State, r: Cds)
    requires WF(s)
    ensures SameLink(s, Do(s, CdsUpset(r)))
  {
    hide HalfDisabled, SameMarks, SameTables, Deeds, Do;
  }

  /** The last start-up came to event monitoring but not to subscribing, and nothing has switched it off since. */
  predicate NeverSubscribed(cfg: Config, run: Run) {
    match run
    case StartsUp(_, x) => !x.end.Initialized? && StartsMonitoring(cfg, x)
    case Wakeup(b, x) => NeverSubscribed(cfg, b) && !SwitchesOff(cfg, x)
    case Upset(b, _) => NeverSubscribed(cfg, b)
    case _ => false
  }

  /** Between any two cycles of any run the subscription rule holds exactly unless initialization failed with event
      monitoring on and it has been on ever since; then nothing is subscribed. */
  lemma {:induction false} SubscribedWhileUp(cfg: Config, run: Run)
    requires Possible(cfg, run) && Up(cfg, run)
    ensures SubscriptionsOk(After(cfg, run)) <==> !NeverSubscribed(cfg, run)
    ensures NeverSubscribed(cfg, run) ==> Deaf(After(cfg, run))
  {
    hide StartUp, Cycle, StartUpOk, CycleOk, Do, StartsMonitoring, SwitchesOff, HalfDisabled;
    match run
    case StartsUp(b, x) => StartUpSubscribes(After(cfg, b), x);
    case Wakeup(b, x) =>
      SubscribedWhileUp(cfg, b);
      if NeverSubscribed(cfg, b) {
        CycleDeaf(After(cfg, b), x);
      } else {
        CycleKeepsSubscriptions(After(cfg, b), x);
      }
    case Upset(b, r) =>
      SubscribedWhileUp(cfg, b);
      UpsetLink(After(cfg, b), r);
  }

  // ---------- Cycles of a boot ----------

  /** In k cycles of a boot: k cooldown ticks, k utilization ticks and a sample every Period-th cycle, the
      first included. */
  predicate Regular(m: Marks, period: nat)
    requires period >= 1
  {
    m.ticks == m.cycles && m.utilTicks == m.cycles && m.samples == (m.cycles + period - 1) / period
  }

  lemma RoundedUp(k: nat, p: nat)
    requires p >= 1
    ensures (k + p) / p == (k + p - 1) / p + if k % p == 0 then 1 else 0
    ensures (p - 1) / p == 0
  {
    var q, r := k / p, k % p;
    assert k == q * p + r;
    ModUnique(p - 1, 0, p - 1, p);
    assert (q + 1) * p == q * p + p;
    ModUnique(k + p, q + 1, r, p);
    if r == 0 {
      ModUnique(k + p - 1, q, p - 1, p);
    } else {
      ModUnique(k + p - 1, q + 1, r - 1, p);
    }
  }

  lemma RegularStep(m: Marks, r: Marks, p: nat)
    requires p >= 1 && Regular(m, p)
    requires r.cycles == m.cycles + 1 && r.ticks == m.ticks + 1 && r.utilTicks == m.utilTicks + 1
    requires r.samples == m.samples + if m.utilTicks % p == 0 then 1 else 0
    ensures Regular(r, p)
  {
    RoundedUp(m.cycles, p);
  }

  lemma RegularStart(boots: nat, p: nat)
    requires p >= 1
    ensures Regular(Marks(boots, 0, 0, 0, 0, 0, 0), p)
  {
    RoundedUp(0, p);
  }

  lemma StartUpRegular(s: State, x: InitIn)
    requires WF(s) && AcquireFits(s.cfg, x.acquire)
    ensures Regular(MarksOf(StartUp(s, x).log), Period(s.cfg))
  {
    hide StartUp, Regular, Period;
    StartUpMarks(s, x);
    RegularStart(MarksOf(s.log).boots + 1, Period(s.cfg));
  }

  lemma CycleRegular(s: State, x: CycleIn)
    requires Resting(s) && CycleFits(s.cfg, x) && Regular(MarksOf(s.log), Period(s.cfg))
    ensures Regular(MarksOf(Cycle(s, x).log), Period(s.cfg))
  {
    hide Cycle, Regular, Period, BeforePipes, ResetThisBoot;
    CycleMarks(s, x);
    RegularStep(MarksOf(s.log), MarksOf(Cycle(s, x).log), Period(s.cfg));
  }

  lemma {:induction false} CyclesRegular(cfg: Config, run: Run)
    requires Possible(cfg, run) && Up(cfg, run)
    ensures Regular(MarksOf(After(cfg, run).log), Period(cfg))
  {
    hide StartUp, Cycle, StartUpOk, CycleOk, Do, Period, Regular, Resting;
    match run
    case StartsUp(b, x) => StartUpRegular(After(cfg, b), x);
    case Wakeup(b, x) =>
      CyclesRegular(cfg, b);
      CycleRegular(After(cfg, b), x);
    case Upset(b, r) =>
      CyclesRegular(cfg, b);
      OpMarks(After(cfg, b), CdsUpset(r));
  }
}
