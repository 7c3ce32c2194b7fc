/** The state of HS, the primitive operations that change it, and the lawful traces of operations. */
module HsState {
  import opened HsTypes
  import opened CriticalData
  import AppMonitor
  import Utilization

  datatype Mode = AppMonMode | EventMonMode | AlivenessMode | CpuHogMode
  datatype Format = LongFormat | ShortFormat

  /** Why the reset counters were written. */
  datatype CdsReason = Counted | Cleared | Limited | Initialised

  /** One observable operation. Those of the environment are Boot and CdsUpset. */
  datatype Op =
    | Boot
    | CdsUpset(record: Cds)
    | CdsOff
    | RestoreCds
    | SetCds(why: CdsReason, resets: uint16, max: uint16)
    | ResetCfe
    | Event(eid: uint16)
    | CycleStart
    | GotTable(table: Table, ok: bool)
    | Dropped(table: Table)
    | RefreshAppMon(amt: seq<AmtEntry>)
    | LoadEmt(emt: seq<EmtEntry>)
    | RefreshMsgActs(mat: seq<MatEntry>)
    | Switch(mode: Mode, on: bool)
    | Subscribe(format: Format, ok: bool)
    | Unsubscribe(format: Format, ok: bool)
    | Tick
    | TakeSample(sample: Utilization.Sample)
    | HogEvent
    | UtilTick
    | RunAppMon
    | Saw(entry: nat, sight: Sighting, fired: bool)
    | RestartApp(app: string, ok: bool)
    | DeleteApp(app: string, ok: bool)
    | Transmit(index: nat)
    | AliveTick(printed: bool)
    | RunEventMon(event: EventMsg)
    | Attempt(event: EventMsg, entry: nat, found: bool)
    | SendHk
    | CmdAccepted
    | CmdRejected
    | ClearCounters
    | Watchdog

  /** Everything that has happened, newest last. */
  datatype Trace = Start | Then(before: Trace, op: Op)

  // ---------- Facts read off a trace ----------

  /** Boots so far and, since the last one, how often each once-per-cycle operation has happened. */
  datatype Marks = Marks(boots: nat, cycles: nat, ticks: nat, utilTicks: nat, samples: nat, services: nat,
                         aliveTicks: nat)

  function MarksOf(t: Trace): Marks {
    match t
    case Start => Marks(0, 0, 0, 0, 0, 0, 0)
    case Then(before, op) =>
      var m := MarksOf(before);
      match op
      case Boot => Marks(m.boots + 1, 0, 0, 0, 0, 0, 0)
      case CycleStart => m.(cycles := m.cycles + 1)
      case Tick => m.(ticks := m.ticks + 1)
      case UtilTick => m.(utilTicks := m.utilTicks + 1)
      case TakeSample(_) => m.(samples := m.samples + 1)
      case Watchdog => m.(services := m.services + 1)
      case AliveTick(_) => m.(aliveTicks := m.aliveTicks + 1)
      case _ => m
  }

  /** The table was acquired with success in the current cycle. */
  predicate TableOk(t: Trace, table: Table) {
    match t
    case Start => false
    case Then(before, op) =>
      if op.Boot? || op.CycleStart? then false
      else if op.GotTable? && op.table == table then op.ok
      else TableOk(before, table)
  }

  /** The utilization was sampled since the last utilization tick. */
  predicate Sampled(t: Trace) {
    match t
    case Start => false
    case Then(before, op) =>
      if op.Boot? || op.UtilTick? then false
      else op.TakeSample? || Sampled(before)
  }

  /** A disable command got the long-format unsubscribe through and lost the short-format one, with no
      new subscription since. */
  predicate HalfDisabled(t: Trace) {
    match t
    case Start => false
    case Then(before, op) =>
      if op.Boot? || op.Subscribe? then false
      else if op == Unsubscribe(ShortFormat, false) && before.Then? && before.op == Unsubscribe(LongFormat, true)
      then true
      else HalfDisabled(before)
  }

  /** Events handed to the event monitor and table entries it acted on, in order. */
  datatype Deed = Monitored(event: EventMsg) | Attempted(event: EventMsg, entry: nat)

  function Deeds(t: Trace): seq<Deed> {
    match t
    case Start => []
    case Then(before, op) =>
      match op
      case RunEventMon(ev) => Deeds(before) + [Monitored(ev)]
      case Attempt(ev, i, _) => Deeds(before) + [Attempted(ev, i)]
      case _ => Deeds(before)
  }

  predicate SameMarks(t: Trace, t': Trace) {
    MarksOf(t') == MarksOf(t) && Sampled(t') == Sampled(t)
  }

  predicate SameTables(t: Trace, t': Trace) {
    && TableOk(t', AppMonTable) == TableOk(t, AppMonTable)
    && TableOk(t', EventMonTable) == TableOk(t, EventMonTable)
    && TableOk(t', MsgActsTable) == TableOk(t, MsgActsTable)
  }

  /** Operations that `MarksOf` counts. */
  predicate Marking(op: Op) {
    op.Boot? || op.CycleStart? || op.Tick? || op.UtilTick? || op.TakeSample? || op.Watchdog? || op.AliveTick?
  }

  // The parts of HS_AppData. `store` is the record inside the critical data store and `Bus` the event
  // subscriptions held by the software bus; both live outside HS.

  datatype AppPart = AppPart(amt: seq<AmtEntry>, mon: AppMonitor.AppMon)
  datatype MsgPart = MsgPart(mat: seq<MatEntry>, cooldown: seq<uint16>)
  datatype CpuPart = CpuPart(util: Utilization.Util, cycle: uint32)
  datatype Modes = Modes(appMon: bool, eventMon: bool, aliveness: bool, cpuHog: bool)
  datatype Loads = Loads(appMon: bool, eventMon: bool, msgActs: bool, exeCount: bool)
  datatype ResetPart = ResetPart(watchdog: bool, cdsInUse: bool, cds: Cds, store: Cds)
  datatype Bus = Bus(long: bool, short: bool)
  datatype Counters = Counters(cmd: uint8, cmdErr: uint8, events: uint32, msgActExec: uint32)

  datatype State = State(
    cfg: Config,
    app: AppPart,
    emt: seq<EmtEntry>,
    msg: MsgPart,
    cpu: CpuPart,
    modes: Modes,
    loads: Loads,
    rst: ResetPart,
    bus: Bus,
    count: Counters,
    alive: uint32,
    log: Trace)

  predicate WF(s: State) {
    && ValidConfig(s.cfg)
    && |s.app.amt| == s.cfg.apps && AppMonitor.Valid(s.cfg.apps, s.app.mon)
    && |s.emt| == s.cfg.events
    && |s.msg.mat| == |s.msg.cooldown| == s.cfg.msgActs
    && Utilization.Valid(s.cfg, s.cpu.util)
  }

  const NO_APP := AmtEntry("", 0, 0, ACT_NOACT)
  const NO_EVENT := EmtEntry("", 0, 0, ACT_NOACT)
  const NO_MSG := MatEntry(MAT_STATE_DISABLED, 0, false, 0)
  const NO_RECORD := Cds(0, 0, 0, 0)

  /** Memory just after start-up has cleared it and set the defaults. */
  function Booted(cfg: Config, store: Cds, log: Trace): (s: State)
    requires ValidConfig(cfg)
    ensures WF(s)
  {
    State(cfg,
          AppPart(Copies(cfg.apps, NO_APP), AppMonitor.Idle(cfg.apps)),
          Copies(cfg.events, NO_EVENT),
          MsgPart(Copies(cfg.msgActs, NO_MSG), Copies(cfg.msgActs, 0)),
          CpuPart(Utilization.Fresh(cfg), 0),
          Modes(cfg.appMonDefault, cfg.eventMonDefault, cfg.aliveDefault, cfg.hogDefault),
          Loads(true, true, true, true),
          ResetPart(true, true, NO_RECORD, store),
          Bus(false, false),
          Counters(0, 0, 0, 0),
          0,
          log)
  }

  predicate Fits(s: State, op: Op)
    requires WF(s)
  {
    match op
    case RefreshAppMon(t) => |t| == s.cfg.apps
    case LoadEmt(t) => |t| == s.cfg.events
    case RefreshMsgActs(t) => |t| == s.cfg.msgActs
    case Saw(i, _, _) => i < s.cfg.apps && s.app.mon.countdown[i] != 0
    case Transmit(m) => m < s.cfg.msgActs
    case _ => true
  }

  // ---------- The change one operation makes to each part ----------

  function AppEffect(s: State, op: Op): (r: AppPart)
    requires WF(s) && Fits(s, op)
    ensures |r.amt| == s.cfg.apps && AppMonitor.Valid(s.cfg.apps, r.mon)
  {
    match op
    case Boot => Booted(s.cfg, s.rst.store, s.log).app
    case RefreshAppMon(t) => AppPart(t, AppMonitor.Refreshed(t))
    case Saw(i, x, _) => s.app.(mon := AppMonitor.Look(s.cfg.apps, s.app.mon, s.app.amt[i], i, x))
    case _ => s.app
  }

  function EmtEffect(s: State, op: Op): (r: seq<EmtEntry>)
    requires WF(s) && Fits(s, op)
    ensures |r| == s.cfg.events
  {
    match op
    case Boot => Booted(s.cfg, s.rst.store, s.log).emt
    case LoadEmt(t) => t
    case _ => s.emt
  }

  function Cooled(cooldown: seq<uint16>): (r: seq<uint16>)
    ensures |r| == |cooldown|
  {
    seq(|cooldown|, i requires 0 <= i < |cooldown| => if cooldown[i] != 0 then cooldown[i] - 1 else 0)
  }

  function MsgEffect(s: State, op: Op): (r: MsgPart)
    requires WF(s) && Fits(s, op)
    ensures |r.mat| == |r.cooldown| == s.cfg.msgActs
  {
    match op
    case Boot => Booted(s.cfg, s.rst.store, s.log).msg
    case RefreshMsgActs(t) => MsgPart(t, Copies(s.cfg.msgActs, 0))
    case Tick => s.msg.(cooldown := Cooled(s.msg.cooldown))
    case Transmit(m) => s.msg.(cooldown := s.msg.cooldown[m := s.msg.mat[m].cooldown])
    case _ => s.msg
  }

  function NextUtilCycle(cfg: Config, n: uint32): uint32
    requires ValidConfig(cfg)
  {
    ((if n == 0 then cfg.interval else n) - 1) % U32
  }

  function CpuEffect(s: State, op: Op): (r: CpuPart)
    requires WF(s)
    ensures Utilization.Valid(s.cfg, r.util)
  {
    match op
    case Boot => Booted(s.cfg, s.rst.store, s.log).cpu
    case TakeSample(x) => s.cpu.(util := Utilization.Step(s.cfg, s.cpu.util, x))
    case UtilTick => s.cpu.(cycle := NextUtilCycle(s.cfg, s.cpu.cycle))
    case _ => s.cpu
  }

  function Switched(m: Modes, mode: Mode, on: bool): Modes {
    match mode
    case AppMonMode => m.(appMon := on)
    case EventMonMode => m.(eventMon := on)
    case AlivenessMode => m.(aliveness := on)
    case CpuHogMode => m.(cpuHog := on)
  }

  /** The monitor that works from a lost table stops with it. */
  function Stopped(m: Modes, t: Table): Modes {
    match t
    case AppMonTable => Switched(m, AppMonMode, false)
    case EventMonTable => Switched(m, EventMonMode, false)
    case _ => m
  }

  function ModesEffect(s: State, op: Op): Modes
    requires WF(s)
  {
    match op
    case Boot => Booted(s.cfg, s.rst.store, s.log).modes
    case Dropped(t) => Stopped(s.modes, t)
    case Switch(mode, on) => Switched(s.modes, mode, on)
    case _ => s.modes
  }

  function Marked(l: Loads, t: Table, on: bool): Loads {
    match t
    case AppMonTable => l.(appMon := on)
    case EventMonTable => l.(eventMon := on)
    case MsgActsTable => l.(msgActs := on)
    case ExeCountTable => l.(exeCount := on)
  }

  function LoadsEffect(s: State, op: Op): Loads
    requires WF(s)
  {
    match op
    case Boot => Booted(s.cfg, s.rst.store, s.log).loads
    case GotTable(t, ok) => if ok then Marked(s.loads, t, true) else s.loads
    case Dropped(t) => Marked(s.loads, t, false)
    case _ => s.loads
  }

  function ResetEffect(s: State, op: Op): ResetPart
    requires WF(s)
  {
    match op
    case Boot => Booted(s.cfg, s.rst.store, s.log).rst
    case CdsUpset(r) => s.rst.(store := r)
    case CdsOff => s.rst.(cdsInUse := false)
    case RestoreCds => s.rst.(cds := s.rst.store)
    case SetCds(_, n, m) =>
      s.rst.(cds := Sealed(n, m), store := if s.rst.cdsInUse then Sealed(n, m) else s.rst.store)
    case ResetCfe => s.rst.(watchdog := false)
    case _ => s.rst
  }

  function BusEffect(b: Bus, op: Op): Bus {
    match op
    case Boot => Bus(false, false)
    case Subscribe(f, true) => if f.LongFormat? then b.(long := true) else b.(short := true)
    case Unsubscribe(f, true) => if f.LongFormat? then b.(long := false) else b.(short := false)
    case _ => b
  }

  function CountEffect(c: Counters, op: Op): Counters {
    match op
    case Boot => Counters(0, 0, 0, 0)
    case ClearCounters => Counters(0, 0, 0, 0)
    case CmdAccepted => c.(cmd := Bump8(c.cmd))
    case CmdRejected => c.(cmdErr := Bump8(c.cmdErr))
    case RunEventMon(_) => c.(events := Bump32(c.events))
    case Transmit(_) => c.(msgActExec := Bump32(c.msgActExec))
    case _ => c
  }

  function AliveEffect(s: State, op: Op): uint32
    requires WF(s)
  {
    match op
    case Boot => 0
    case AliveTick(_) => if s.alive + 1 >= s.cfg.alivePeriod then 0 else s.alive + 1
    case _ => s.alive
  }

  /** What one operation of HS leaves alone. */
  predicate Confined(s: State, op: Op, r: State) {
    && (!op.RefreshAppMon? ==> r.app.amt == s.app.amt)
    && (!op.LoadEmt? ==> r.emt == s.emt)
    && (!op.RefreshMsgActs? ==> r.msg.mat == s.msg.mat)
    && (!op.TakeSample? && !op.UtilTick? ==> r.cpu == s.cpu)
    && (!op.AliveTick? ==> r.alive == s.alive)
    && (!op.Switch? && !op.Dropped? ==> r.modes == s.modes)
    && (!op.GotTable? && !op.Dropped? ==> r.loads == s.loads)
    && (!op.Subscribe? && !op.Unsubscribe? ==> r.bus == s.bus)
    && (!op.SetCds? && !op.ResetCfe? && !op.CdsOff? && !op.RestoreCds? && !op.CdsUpset? ==> r.rst == s.rst)
  }

  function Do(s: State, op: Op): (r: State)
    requires WF(s) && Fits(s, op)
    ensures WF(r) && r.cfg == s.cfg
    ensures !Marking(op) ==> SameMarks(s.log, r.log)
    ensures !op.Boot? && !op.CycleStart? && !op.GotTable? ==> SameTables(s.log, r.log)
    ensures !op.Boot? && !op.Subscribe? && !op.Unsubscribe? ==> HalfDisabled(r.log) == HalfDisabled(s.log)
    ensures !op.RunEventMon? && !op.Attempt? ==> Deeds(r.log) == Deeds(s.log)
    ensures !op.Boot? ==> Confined(s, op, r)
  {
    State(s.cfg, AppEffect(s, op), EmtEffect(s, op), MsgEffect(s, op), CpuEffect(s, op),
          ModesEffect(s, op), LoadsEffect(s, op), ResetEffect(s, op), BusEffect(s.bus, op),
          CountEffect(s.count, op), AliveEffect(s, op), Then(s.log, op))
  }

  // ---------- Which part of the state each operation touches ----------

  lemma LogOnly(s: State, op: Op)
    requires WF(s) && Fits(s, op)
    requires op.Event? || op.HogEvent? || op.RestartApp? || op.DeleteApp? || op.CycleStart? || op.RunAppMon?
             || op.Attempt? || op.SendHk? || op.Watchdog? || (op.GotTable? && !op.ok)
    ensures Do(s, op) == s.(log := Then(s.log, op))
  {
    hide MarksOf, TableOk, Sampled, HalfDisabled, Deeds;
  }

  lemma AppOnly(s: State, op: Op)
    requires WF(s) && Fits(s, op)
    requires op.Saw? || op.RefreshAppMon?
    ensures Do(s, op) == s.(app := AppEffect(s, op), log := Then(s.log, op))
  {
    hide MarksOf, TableOk, Sampled, HalfDisabled, Deeds;
  }

  lemma EmtOnly(s: State, op: Op)
    requires WF(s) && Fits(s, op)
    requires op.LoadEmt?
    ensures Do(s, op) == s.(emt := EmtEffect(s, op), log := Then(s.log, op))
  {
    hide MarksOf, TableOk, Sampled, HalfDisabled, Deeds;
  }

  lemma MsgOnly(s: State, op: Op)
    requires WF(s) && Fits(s, op)
    requires op.Tick? || op.RefreshMsgActs?
    ensures Do(s, op) == s.(msg := MsgEffect(s, op), log := Then(s.log, op))
  {
    hide MarksOf, TableOk, Sampled, HalfDisabled, Deeds;
  }

  lemma MsgAndCount(s: State, op: Op)
    requires WF(s) && Fits(s, op)
    requires op.Transmit?
    ensures Do(s, op) == s.(msg := MsgEffect(s, op), count := CountEffect(s.count, op), log := Then(s.log, op))
  {
    hide MarksOf, TableOk, Sampled, HalfDisabled, Deeds;
  }

  lemma CpuOnly(s: State, op: Op)
    requires WF(s) && Fits(s, op)
    requires op.TakeSample? || op.UtilTick?
    ensures Do(s, op) == s.(cpu := CpuEffect(s, op), log := Then(s.log, op))
  {
    hide MarksOf, TableOk, Sampled, HalfDisabled, Deeds;
  }

  lemma ModesOnly(s: State, op: Op)
    requires WF(s) && Fits(s, op)
    requires op.Switch?
    ensures Do(s, op) == s.(modes := ModesEffect(s, op), log := Then(s.log, op))
  {
    hide MarksOf, TableOk, Sampled, HalfDisabled, Deeds;
  }

  lemma LoadsAndModes(s: State, op: Op)
    requires WF(s) && Fits(s, op)
    requires op.GotTable? || op.Dropped?
    ensures Do(s, op) == s.(loads := LoadsEffect(s, op), modes := ModesEffect(s, op), log := Then(s.log, op))
  {
    hide MarksOf, TableOk, Sampled, HalfDisabled, Deeds;
  }

  lemma DropOnly(s: State, t: Table)
    requires WF(s)
    ensures Do(s, Dropped(t)) == s.(loads := Marked(s.loads, t, false), modes := Stopped(s.modes, t),
                                    log := Then(s.log, Dropped(t)))
  {
    hide Do, Marked, Stopped;
    LoadsAndModes(s, Dropped(t));
  }

  lemma ResetOnly(s: State, op: Op)
    requires WF(s) && Fits(s, op)
    requires op.SetCds? || op.ResetCfe? || op.CdsOff? || op.RestoreCds?
    ensures Do(s, op) == s.(rst := ResetEffect(s, op), log := Then(s.log, op))
  {
    hide MarksOf, TableOk, Sampled, HalfDisabled, Deeds;
  }

  lemma BusOnly(s: State, op: Op)
    requires WF(s) && Fits(s, op)
    requires op.Subscribe? || op.Unsubscribe?
    ensures Do(s, op) == s.(bus := BusEffect(s.bus, op), log := Then(s.log, op))
  {
    hide MarksOf, TableOk, Sampled, HalfDisabled, Deeds;
  }

  lemma CountOnly(s: State, op: Op)
    requires WF(s) && Fits(s, op)
    requires op.CmdAccepted? || op.CmdRejected? || op.ClearCounters? || op.RunEventMon?
    ensures Do(s, op) == s.(count := CountEffect(s.count, op), log := Then(s.log, op))
  {
    hide MarksOf, TableOk, Sampled, HalfDisabled, Deeds;
  }

  lemma AliveOnly(s: State, op: Op)
    requires WF(s) && Fits(s, op)
    requires op.AliveTick?
    ensures Do(s, op) == s.(alive := AliveEffect(s, op), log := Then(s.log, op))
  {
    hide MarksOf, TableOk, Sampled, HalfDisabled, Deeds;
  }

  lemma DoReset(s: State, op: Op)
    requires WF(s) && Fits(s, op)
    ensures Do(s, op).rst == ResetEffect(s, op) && Do(s, op).log == Then(s.log, op)
  {
  }

  // ---------- Lawful traces ----------

  /** The last thing HS did was to count a processor reset that it has not issued yet. */
  predicate Counting(t: Trace) {
    match t
    case Start => false
    case Then(before, op) =>
      if op.CdsUpset? then Counting(before)
      else op.SetCds? && op.why.Counted?
  }

  /** Memory was cleared and the reset counters have not been filled in yet. */
  predicate Starting(t: Trace) {
    match t
    case Start => true
    case Then(before, op) =>
      if op.Boot? then true
      else if op.RestoreCds? || op.SetCds? then false
      else Starting(before)
  }

  /** The utilization sample taken by the last operation of HS. */
  function LastSample(t: Trace): Option<Utilization.Sample> {
    match t
    case Start => None
    case Then(before, op) =>
      if op.CdsUpset? then LastSample(before)
      else if op.TakeSample? then Some(op.sample)
      else None
  }

  /** That sample completed a hogging streak, and its event has not been sent yet. */
  predicate Owing(s: State)
    requires WF(s)
  {
    && LastSample(s.log).Some? && Utilization.Hot(s.cfg, LastSample(s.log).value)
    && s.cpu.util.hogTime == s.cfg.hogTimeout
  }

  // ---------- The entry being acted on ----------

  /** What HS has to do. The calls that can end an application or the processor are announced first, by the event
      `eid`; `lost` reports a restart or deletion that fails. */
  datatype Order = Nothing | Reset(eid: uint16) | Restart(app: string, eid: uint16, lost: uint16)
    | Delete(app: string, eid: uint16, lost: uint16) | Send(index: nat) | Report(eid: uint16)

  /** HS2000.2: an application has missed its cycles; `found` tells whether it is still there. */
  function AppOrder(e: AmtEntry, found: bool): Order {
    if e.action == ACT_PROC_RESET then Reset(APPMON_PROC_ERR_EID)
    else if e.action == ACT_APP_RESTART then
      if found then Restart(e.name, APPMON_RESTART_ERR_EID, APPMON_NOT_RESTARTED_ERR_EID)
      else Report(APPMON_NOT_RESTARTED_ERR_EID)
    else if e.action == AMT_ACT_EVENT then Report(APPMON_FAIL_ERR_EID)
    else if e.action > ACT_LAST_NONMSG then Send(e.action - ACT_LAST_NONMSG - 1)
    else Nothing
  }

  /** HS5000.1: a critical event was received; `found` tells whether the application is still there. */
  function EventOrder(e: EmtEntry, found: bool): Order {
    if e.action == ACT_PROC_RESET then Reset(EVENTMON_PROC_ERR_EID)
    else if e.action == ACT_APP_RESTART then
      if found then Restart(e.name, EVENTMON_RESTART_ERR_EID, EVENTMON_NOT_RESTARTED_ERR_EID)
      else Report(EVENTMON_NOT_RESTARTED_ERR_EID)
    else if e.action == EMT_ACT_APP_DELETE then
      if found then Delete(e.name, EVENTMON_DELETE_ERR_EID, EVENTMON_NOT_DELETED_ERR_EID)
      else Report(EVENTMON_NOT_DELETED_ERR_EID)
    else if e.action > ACT_LAST_NONMSG then Send(e.action - ACT_LAST_NONMSG - 1)
    else Nothing
  }

  /** At the limit a reset is reported instead; one that was counted is still to be issued. */
  function Capped(s: State, o: Order): Order {
    if o.Reset? && !Counting(s.log) && s.rst.cds.resets >= s.rst.cds.max then Report(RESET_LIMIT_ERR_EID) else o
  }

  /** A look that used up its countdown, or an entry that matched an event. */
  predicate Calls(op: Op) {
    (op.Saw? && op.fired) || op.Attempt?
  }

  /** What such a look or match obliges HS to do. */
  function Asked(s: State, call: Op): Order {
    match call
    case Saw(i, x, _) => if i < |s.app.amt| then Capped(s, AppOrder(s.app.amt[i], x.Seen?)) else Nothing
    case Attempt(_, i, found) => if i < |s.emt| then Capped(s, EventOrder(s.emt[i], found)) else Nothing
    case _ => Nothing
  }

  /** A restart or deletion that failed. */
  predicate Fails(op: Op) {
    (op.RestartApp? || op.DeleteApp?) && !op.ok
  }

  predicate Counts(op: Op) {
    op.SetCds? && op.why.Counted?
  }

  /** The look or match that HS is acting on: nothing has happened since but reports, the counting of a reset and a
      failed restart or deletion. */
  function Acting(t: Trace): Option<Op> {
    match t
    case Start => None
    case Then(before, op) =>
      if Calls(op) then Some(op)
      else if op.Event? || op.CdsUpset? || Counts(op) || Fails(op) then Acting(before)
      else None
  }

  /** Since the latest look or match a restart or deletion failed. */
  predicate Tried(t: Trace) {
    t.Then? && !Calls(t.op) && (Fails(t.op) || Tried(t.before))
  }

  /** Since the latest look, match or failed call this event was sent. */
  predicate Reported(t: Trace, eid: uint16) {
    t.Then? && !Calls(t.op) && !Fails(t.op) && (t.op == Event(eid) || Reported(t.before, eid))
  }

  function Unreported(t: Trace, eid: uint16): Order {
    if Reported(t, eid) then Nothing else Report(eid)
  }

  /** What is still to be done of an order. */
  function Remainder(t: Trace, o: Order): Order {
    match o
    case Restart(_, _, lost) => if Tried(t) then Unreported(t, lost) else o
    case Delete(_, _, lost) => if Tried(t) then Unreported(t, lost) else o
    case Report(eid) => Unreported(t, eid)
    case _ => o
  }

  /** What HS owes to the look or match it is acting on. */
  function Pending(s: State): Order {
    match Acting(s.log) case None => Nothing case Some(call) => Remainder(s.log, Asked(s, call))
  }

  /** The table and the cooldown allow it. */
  predicate Granted(s: State, o: Order)
    requires WF(s)
  {
    match o
    case Nothing => false
    case Send(m) =>
      && s.loads.msgActs && m < s.cfg.msgActs && s.msg.cooldown[m] == 0
      && s.msg.mat[m].enable != MAT_STATE_DISABLED
    case _ => true
  }

  /** Something that was asked for and granted has not been done yet. */
  predicate Due(s: State)
    requires WF(s)
  {
    Counting(s.log) || Granted(s, Pending(s))
  }

  /** Events that only answer a look or match. */
  const ANSWERS: set<uint16> := {
    RESET_LIMIT_ERR_EID, APPMON_NOT_RESTARTED_ERR_EID, APPMON_FAIL_ERR_EID, EVENTMON_NOT_RESTARTED_ERR_EID,
    EVENTMON_NOT_DELETED_ERR_EID}

  /** Operations that only answer a look or match. */
  predicate Acts(op: Op) {
    op.ResetCfe? || op.RestartApp? || op.DeleteApp? || op.Transmit? || (op.Event? && op.eid in ANSWERS)
  }

  predicate Performs(op: Op, o: Order) {
    match o
    case Nothing => false
    case Reset(_) => op.ResetCfe?
    case Restart(app, _, _) => op.RestartApp? && op.app == app
    case Delete(app, _, _) => op.DeleteApp? && op.app == app
    case Send(m) => op == Transmit(m)
    case Report(eid) => op == Event(eid)
  }

  /** The event that was the last thing HS did. */
  function LastReport(t: Trace): Option<uint16> {
    match t
    case Start => None
    case Then(before, op) =>
      if op.CdsUpset? then LastReport(before)
      else if op.Event? then Some(op.eid)
      else None
  }

  /** The monitors do what the entry being acted on asks for, nothing else, and nothing else comes before it;
      resets, restarts and deletions come right after their own event. */
  predicate InTurn(s: State, op: Op)
    requires WF(s)
  {
    && (Due(s) ==> op.Event? || op.Boot? || op.CdsUpset? || Counts(op) || Performs(op, Pending(s)))
    && (Acts(op) ==> Performs(op, Pending(s)))
    && (Counts(op) ==> Pending(s).Reset?)
    && (Counts(op) || op.RestartApp? || op.DeleteApp? ==> LastReport(s.log) == Some(Pending(s).eid))
  }

  /** The operations HS performs in state s, each with the test that guards it in the source. */
  predicate Can(s: State, op: Op)
    requires WF(s)
  {
    && Fits(s, op)
    && (Counting(s.log) ==> op.ResetCfe? || op.Boot? || op.CdsUpset?)
    && (Owing(s) ==> op.HogEvent? || op.Boot? || op.CdsUpset?)
    && InTurn(s, op)
    && match op
       case SetCds(why, n, m) =>
         (!why.Initialised? ==> !Starting(s.log)) &&
         (match why
          case Counted => s.rst.cds.resets < s.rst.cds.max && n == s.rst.cds.resets + 1 && m == s.rst.cds.max
          case Cleared => n == 0 && m == s.rst.cds.max
          case Limited => n == s.rst.cds.resets
          case Initialised => n == 0 && m == s.cfg.maxRestarts)
       case RestoreCds => Starting(s.log)
       case ResetCfe => Counting(s.log)
       case RunAppMon => s.modes.appMon && TableOk(s.log, AppMonTable)
       case RunEventMon(_) => s.modes.eventMon && TableOk(s.log, EventMonTable)
       case Saw(i, x, fired) =>
         && TableOk(s.log, AppMonTable)
         && s.app.amt[i].action != ACT_NOACT
         && fired == AppMonitor.Expires(s.app.mon, i, x)
       case Attempt(ev, i, _) => TableOk(s.log, EventMonTable) && i < s.cfg.events && Matches(s.emt[i], ev)
       case Transmit(m) =>
         && s.loads.msgActs && TableOk(s.log, MsgActsTable)
         && s.msg.cooldown[m] == 0 && s.msg.mat[m].enable != MAT_STATE_DISABLED
       case TakeSample(x) => x.hog == s.modes.cpuHog && s.cpu.cycle == 0 && !Sampled(s.log)
       case HogEvent => Owing(s)
       case UtilTick => s.cpu.cycle == 0 <==> Sampled(s.log)
       case AliveTick(printed) =>
         s.modes.aliveness && printed == (s.alive + 1 >= s.cfg.alivePeriod)
       case Watchdog => s.rst.watchdog
       case _ => true
  }

  /** An event table entry that has an action and names this event. */
  predicate Matches(e: EmtEntry, ev: EventMsg) {
    e.action != ACT_NOACT && e.eventId == ev.id && e.name == ev.app
  }

  /** Every operation was permitted in the state that the operations before it had produced. */
  predicate Lawful(cfg: Config, t: Trace)
    decreases t, 0
  {
    && ValidConfig(cfg)
    && (t.Then? ==> Lawful(cfg, t.before) && Can(Replay(cfg, t.before), t.op))
  }

  /** The state a lawful trace leads to, from power-on. */
  function Replay(cfg: Config, t: Trace): (s: State)
    requires Lawful(cfg, t)
    ensures WF(s) && s.cfg == cfg && s.log == t
    decreases t, 1
  {
    match t
    case Start => Booted(cfg, NO_RECORD, Start)
    case Then(before, op) => Do(Replay(cfg, before), op)
  }

  lemma Unfold(cfg: Config, t: Trace)
    requires Lawful(cfg, t) && t.Then?
    ensures Lawful(cfg, t.before) && Can(Replay(cfg, t.before), t.op)
    ensures Replay(cfg, t) == Do(Replay(cfg, t.before), t.op)
  {
  }

  /** The state is what its own log says, and the log is lawful. */
  predicate Reachable(s: State) {
    Lawful(s.cfg, s.log) && s == Replay(s.cfg, s.log)
  }

  lemma Reach(s: State, op: Op)
    requires Reachable(s) && Can(s, op)
    ensures Reachable(Do(s, op))
  {
  }
}
