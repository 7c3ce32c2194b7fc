/** The processor reset limiter. */
module ResetRuns {
  import opened HsTypes
  import opened CriticalData
  import opened HsState
  import AppMonitor

  predicate Extends(t: Trace, base: Trace) {
    t == base || (t.Then? && Extends(t.before, base))
  }

  /** Whatever moment HS is looked at, what it did until then was lawful. */
  lemma {:induction false} PrefixLawful(cfg: Config, t: Trace, base: Trace)
    requires Lawful(cfg, t) && Extends(t, base)
    ensures Lawful(cfg, base)
  {
    if t != base {
      PrefixLawful(cfg, t.before, base);
    }
  }

  lemma {:induction false} BootsGrow(t: Trace, base: Trace)
    requires Extends(t, base)
    ensures MarksOf(base).boots <= MarksOf(t).boots
  {
    if t != base {
      BootsGrow(t.before, base);
    }
  }

  // ---------- The record in memory ----------

  /** Once start-up has checked the record, the inverse words match at every moment of that boot. */
  lemma {:induction false} InversesMatch(cfg: Config, t: Trace, base: Trace)
    requires Lawful(cfg, t) && Extends(t, base) && Lawful(cfg, base)
    requires !Starting(base) && Consistent(Replay(cfg, base).rst.cds) && MarksOf(t).boots == MarksOf(base).boots
    ensures !Starting(t) && Consistent(Replay(cfg, t).rst.cds)
  {
    hide Lawful, Replay, Can, Starting, Do, ResetEffect;
    if t != base {
      Unfold(cfg, t);
      BootsGrow(t.before, base);
      InversesMatch(cfg, t.before, base);
      RecordStep(Replay(cfg, t.before), t.op);
      DoReset(Replay(cfg, t.before), t.op);
    }
  }

  lemma RecordStep(s: State, op: Op)
    requires WF(s) && Can(s, op) && !op.Boot? && !Starting(s.log) && Consistent(s.rst.cds)
    ensures !Starting(Then(s.log, op)) && Consistent(ResetEffect(s, op).cds)
  {
  }

  // ---------- Counting resets ----------

  /** Number of processor resets issued (CFE_ES_ResetCFE). */
  function Issued(t: Trace): nat {
    match t
    case Start => 0
    case Then(before, op) => Issued(before) + if op.ResetCfe? then 1 else 0
  }

  /** Number of times the count was raised. */
  function CountedResets(t: Trace): nat {
    match t
    case Start => 0
    case Then(before, op) => CountedResets(before) + if op.SetCds? && op.why.Counted? then 1 else 0
  }

  /** Resets counted but cut off by a reboot from elsewhere before they were issued. */
  function CutOff(t: Trace): nat {
    match t
    case Start => 0
    case Then(before, op) => CutOff(before) + if op.Boot? && Counting(before) then 1 else 0
  }

  /** Every reset issued was counted first; the count leads by at most the reset in progress and those a
      reboot cut off. */
  lemma {:induction false} CountedBeforeIssued(cfg: Config, t: Trace)
    requires Lawful(cfg, t)
    ensures CountedResets(t) == Issued(t) + CutOff(t) + if Counting(t) then 1 else 0
  {
    if t.Then? {
      CountedBeforeIssued(cfg, t.before);
    }
  }

  /** Since `base` no command cleared the count, the store was restored at each boot and never upset, and
      no command set the limit above `limit`. */
  predicate Undisturbed(t: Trace, base: Trace, limit: nat)
    requires Extends(t, base)
  {
    t == base || (
      && !t.op.CdsUpset? && !t.op.CdsOff?
      && (t.op.SetCds? ==> t.op.why.Counted? || t.op.why.Limited?)
      && (t.op.SetCds? ==> t.op.max <= limit)
      && Undisturbed(t.before, base, limit))
  }

  predicate InStep(r: ResetPart) {
    r.cdsInUse && r.cds == r.store && Consistent(r.store)
  }

  predicate Preserved(r: ResetPart, t: Trace) {
    r.cdsInUse && Consistent(r.store) && (!Starting(t) ==> r.cds == r.store)
  }

  lemma StoreStep(s: State, op: Op, limit: nat)
    requires WF(s) && Can(s, op) && Preserved(s.rst, s.log) && s.rst.store.max <= limit
    requires !op.CdsUpset? && !op.CdsOff?
    requires op.SetCds? ==> (op.why.Counted? || op.why.Limited?) && op.max <= limit
    ensures var r := ResetEffect(s, op);
            && Preserved(r, Then(s.log, op)) && r.store.max <= limit
            && r.store.resets == s.rst.store.resets + (if op.SetCds? && op.why.Counted? then 1 else 0)
            && (r.store.resets > s.rst.store.resets ==> r.store.resets <= limit)
  {
  }

  /** The store holds the start value plus every reset counted since, whatever reboots came between. */
  lemma {:induction false} StoreCounts(cfg: Config, t: Trace, base: Trace, limit: nat)
    requires Lawful(cfg, t) && Extends(t, base) && Lawful(cfg, base)
    requires !Starting(base) && InStep(Replay(cfg, base).rst)
    requires Replay(cfg, base).rst.store.max <= limit && Undisturbed(t, base, limit)
    ensures var r, r0 := Replay(cfg, t).rst, Replay(cfg, base).rst;
            && Preserved(r, t) && r.store.max <= limit
            && r.store.resets == r0.store.resets + CountedResets(t) - CountedResets(base)
            && (r.store.resets <= limit || r.store.resets == r0.store.resets)
  {
    hide AppEffect, EmtEffect, MsgEffect, CpuEffect, ModesEffect, LoadsEffect, ResetEffect, BusEffect, CountEffect,
         AliveEffect;
    if t != base {
      StoreCounts(cfg, t.before, base, limit);
      StoreStep(Replay(cfg, t.before), t.op, limit);
    }
  }

  lemma {:induction false} MonotoneCounts(t: Trace, base: Trace)
    requires Extends(t, base)
    ensures CountedResets(base) <= CountedResets(t) && CutOff(base) <= CutOff(t) && Issued(base) <= Issued(t)
  {
    if t != base {
      MonotoneCounts(t.before, base);
    }
  }

  /** No reset loop. From a state whose record is in step with the store, over any run with any reboots,
      the resets issued are the growth of the stored count (less those counted but not issued), and they
      never exceed what the limit leaves. */
  lemma NoResetLoop(cfg: Config, t: Trace, base: Trace, limit: nat)
    requires Lawful(cfg, t) && Extends(t, base) && Lawful(cfg, base)
    requires !Starting(base) && !Counting(base) && InStep(Replay(cfg, base).rst)
    requires Replay(cfg, base).rst.store.max <= limit && Undisturbed(t, base, limit)
    ensures var start, now := Replay(cfg, base).rst.store.resets, Replay(cfg, t).rst.store.resets;
            var issued, pending := Issued(t) - Issued(base), if Counting(t) then 1 else 0;
            && issued == now - start - pending - (CutOff(t) - CutOff(base))
            && 0 <= issued <= if limit > start then limit - start else 0
  {
    StoreCounts(cfg, t, base, limit);
    CountedBeforeIssued(cfg, t);
    CountedBeforeIssued(cfg, base);
    MonotoneCounts(t, base);
  }

  /** When a reset is issued the store already holds the raised count. */
  lemma {:induction false} StoredBeforeIssued(cfg: Config, t: Trace, base: Trace, limit: nat)
    requires Lawful(cfg, t) && Extends(t, base) && Lawful(cfg, base) && t != base && t.op.ResetCfe?
    requires !Starting(base) && !Counting(base) && InStep(Replay(cfg, base).rst)
    requires Replay(cfg, base).rst.store.max <= limit && Undisturbed(t, base, limit)
    ensures var start := Replay(cfg, base).rst.store.resets;
            Replay(cfg, t.before).rst.store.resets == start + (Issued(t) - Issued(base)) + (CutOff(t) - CutOff(base))
  {
    StoreCounts(cfg, t.before, base, limit);
    CountedBeforeIssued(cfg, t.before);
    CountedBeforeIssued(cfg, base);
  }

  // ---------- The limit can be lowered below the count ----------

  predicate WithinLimit(r: Cds) {
    r.resets <= r.max
  }

  /** An operation takes the count above the limit exactly when it is a set-max command with a smaller limit, or
      restores a record that was already so. */
  lemma LimitKeptIff(s: State, op: Op)
    requires WF(s) && Can(s, op) && WithinLimit(s.rst.cds)
    ensures WithinLimit(Do(s, op).rst.cds)
            <==> !(op.SetCds? && op.why.Limited? && op.max < s.rst.cds.resets)
                 && !(op.RestoreCds? && s.rst.store.max < s.rst.store.resets)
  {
    hide Do;
    DoReset(s, op);
  }

  // ---------- The watchdog ----------

  /** A processor reset was issued, and returned, since memory was last cleared. */
  predicate ResetThisBoot(t: Trace) {
    match t
    case Start => false
    case Then(before, op) =>
      if op.Boot? then false else op.ResetCfe? || ResetThisBoot(before)
  }

  lemma {:induction false} WatchdogFlag(cfg: Config, t: Trace)
    requires Lawful(cfg, t)
    ensures Replay(cfg, t).rst.watchdog <==> !ResetThisBoot(t)
  {
    hide AppEffect, EmtEffect, MsgEffect, CpuEffect, ModesEffect, LoadsEffect, BusEffect, CountEffect, AliveEffect;
    hide Confined, SameMarks, SameTables, HalfDisabled, Deeds;
    if t.Then? {
      WatchdogFlag(cfg, t.before);
    }
  }

  /** Once a reset was issued in a boot, the watchdog is not serviced again in that boot. */
  lemma NoServiceAfterReset(cfg: Config, t: Trace)
    requires Lawful(cfg, t) && t.Then? && t.op.Watchdog?
    ensures !ResetThisBoot(t.before)
  {
    hide Do, ResetThisBoot, AppMonitor.Expires, Matches;
    WatchdogFlag(cfg, t.before);
  }
}
