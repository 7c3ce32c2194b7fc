/** Message actions and their rate limit. */
module MessageRuns {
  import opened HsTypes
  import opened HsState
  import opened HsSteps
  import AppMonitor

  /** The message table was refreshed, or memory cleared: cooldowns start over. */
  predicate Restarts(op: Op) {
    op.Boot? || op.RefreshMsgActs?
  }

  /** Cycles begun since message m was last sent, if it was since the last refresh. */
  function Age(t: Trace, m: nat): Option<nat> {
    match t
    case Start => None
    case Then(before, op) =>
      if Restarts(op) then None
      else if op == Transmit(m) then Some(0)
      else if op.Tick? && Age(before, m).Some? then Some(Age(before, m).value + 1)
      else Age(before, m)
  }

  function Left(cooldown: nat, age: nat): nat {
    if age < cooldown then cooldown - age else 0
  }

  function Expected(mat: seq<MatEntry>, t: Trace, m: nat): nat
    requires m < |mat|
  {
    match Age(t, m) case None => 0 case Some(k) => Left(mat[m].cooldown, k)
  }

  lemma CooldownStep(s: State, op: Op, m: nat)
    requires WF(s) && Fits(s, op) && m < s.cfg.msgActs
    requires s.msg.cooldown[m] == Expected(s.msg.mat, s.log, m)
    ensures var r := MsgEffect(s, op); r.cooldown[m] == Expected(r.mat, Then(s.log, op), m)
  {
  }

  /** The cooldown counter is what the table asks for less the cycles since the last send. */
  lemma {:induction false} CooldownIsAge(cfg: Config, t: Trace, m: nat)
    requires Lawful(cfg, t) && m < cfg.msgActs
    ensures var s := Replay(cfg, t); s.msg.cooldown[m] == Expected(s.msg.mat, t, m)
  {
    hide AppEffect, EmtEffect, MsgEffect, CpuEffect, ModesEffect, LoadsEffect, ResetEffect, BusEffect, CountEffect,
         AliveEffect;
    if t.Then? {
      CooldownIsAge(cfg, t.before, m);
      CooldownStep(Replay(cfg, t.before), t.op, m);
    }
  }

  /** Two sends of one message are at least its cooldown apart, whichever monitor asked. */
  lemma SendsApart(cfg: Config, t: Trace, m: nat)
    requires Lawful(cfg, t) && t.Then? && t.op == Transmit(m)
    ensures m < cfg.msgActs
    ensures Age(t.before, m).Some? ==> Age(t.before, m).value >= Replay(cfg, t.before).msg.mat[m].cooldown
  {
    hide Do, Replay, Age, AppMonitor.Expires, Matches;
    CooldownIsAge(cfg, t.before, m);
  }

  /** Sends of m in the last n cycles, the current one included, since the last refresh. */
  function SendsIn(t: Trace, m: nat, n: nat): nat {
    match t
    case Start => 0
    case Then(before, op) =>
      if n == 0 || Restarts(op) then 0
      else if op.Tick? then SendsIn(before, m, n - 1)
      else SendsIn(before, m, n) + if op == Transmit(m) then 1 else 0
  }

  /** The number of stretches of c cycles needed to cover n cycles: n / c rounded up. */
  function Stretches(n: nat, c: nat): (r: nat)
    requires c >= 1
    ensures n <= r * c < n + c
  {
    if n == 0 then 0
    else if n <= c then 1
    else 1 + Stretches(n - c, c)
  }

  lemma {:induction false} StretchesMonotone(n: nat, n': nat, c: nat)
    requires c >= 1 && n <= n'
    ensures Stretches(n, c) <= Stretches(n', c)
  {
    if n > c {
      StretchesMonotone(n - c, n' - c, c);
    }
  }

  lemma StretchesStep(n: nat, k: nat, c: nat)
    requires c >= 1 && k >= c && n >= 1
    ensures Stretches(Left(n, k), c) + 1 <= Stretches(n, c)
  {
    StretchesMonotone(Left(n, k), Left(n, c), c);
  }

  lemma {:induction false} SendsBehind(cfg: Config, t: Trace, m: nat, n: nat)
    requires Lawful(cfg, t) && m < cfg.msgActs && Replay(cfg, t).msg.mat[m].cooldown >= 1
    ensures var c := Replay(cfg, t).msg.mat[m].cooldown;
            SendsIn(t, m, n) <= match Age(t, m) case None => 0 case Some(k) => Stretches(Left(n, k), c)
  {
    hide Do, Can, Replay;
    if t.Then? && n > 0 && !Restarts(t.op) {
      var c := Replay(cfg, t).msg.mat[m].cooldown;
      SameTable(cfg, t, m);
      SendsBehind(cfg, t.before, m, if t.op.Tick? then n - 1 else n);
      if t.op == Transmit(m) {
        SendsApart(cfg, t, m);
        StretchesStep(n, if Age(t.before, m).Some? then Age(t.before, m).value else c, c);
      }
    }
  }

  lemma SameTable(cfg: Config, t: Trace, m: nat)
    requires Lawful(cfg, t) && t.Then? && !Restarts(t.op)
    ensures Replay(cfg, t).msg.mat == Replay(cfg, t.before).msg.mat
  {
    hide AppEffect, EmtEffect, CpuEffect, ModesEffect, LoadsEffect, ResetEffect, BusEffect, CountEffect;
  }

  /** Any n consecutive cycles between table refreshes hold at most n / c sends, rounded up, of one
      message with cooldown c. */
  lemma RateLimit(cfg: Config, t: Trace, m: nat, n: nat)
    requires Lawful(cfg, t) && m < cfg.msgActs && Replay(cfg, t).msg.mat[m].cooldown >= 1
    ensures SendsIn(t, m, n) <= Stretches(n, Replay(cfg, t).msg.mat[m].cooldown)
  {
    SendsBehind(cfg, t, m, n);
    if Age(t, m).Some? {
      StretchesMonotone(Left(n, Age(t, m).value), n, Replay(cfg, t).msg.mat[m].cooldown);
    }
  }

  /** Message m may be sent: usable, enabled, and never sent since the last refresh or long enough ago. */
  predicate MaySend(s: State, m: nat)
    requires WF(s)
  {
    && s.loads.msgActs && m < s.cfg.msgActs && s.msg.mat[m].enable != MAT_STATE_DISABLED
    && (Age(s.log, m).Some? ==> Age(s.log, m).value >= s.msg.mat[m].cooldown)
  }

  /** A request from either monitor is granted exactly when the message may be sent, and then sends it once,
      counts it, starts its cooldown and reports it unless the entry is silent. Otherwise nothing changes. */
  lemma RequestDecided(s: State, action: uint16, eid: uint16)
    requires WF(s) && Reachable(s) && action > ACT_LAST_NONMSG
    ensures var m, r := action - ACT_LAST_NONMSG - 1, MsgAction(s, action, eid);
            if !MaySend(s, m) then r == s
            else
              && r.log == (if s.msg.mat[m].enable == MAT_STATE_NOEVENT then Then(s.log, Transmit(m))
                           else Then(Then(s.log, Transmit(m)), Event(eid)))
              && r.count.msgActExec == (s.count.msgActExec + 1) % U32
              && r.msg == s.msg.(cooldown := s.msg.cooldown[m := s.msg.mat[m].cooldown])
  {
    hide MsgAction, Lawful, Replay, Age, Do, Confined, SameMarks, SameTables, HalfDisabled, Deeds, Acted;
    var m := action - ACT_LAST_NONMSG - 1;
    if m < s.cfg.msgActs {
      CooldownIsAge(s.cfg, s.log, m);
    }
    OffCooldownSends(s, action, eid);
  }

  lemma OffCooldownSends(s: State, action: uint16, eid: uint16)
    requires WF(s) && action > ACT_LAST_NONMSG
    ensures var m, r := action - ACT_LAST_NONMSG - 1, MsgAction(s, action, eid);
            if !(s.loads.msgActs && m < s.cfg.msgActs && s.msg.mat[m].enable != MAT_STATE_DISABLED
                 && s.msg.cooldown[m] == 0)
            then r == s
            else
              && r.log == (if s.msg.mat[m].enable == MAT_STATE_NOEVENT then Then(s.log, Transmit(m))
                           else Then(Then(s.log, Transmit(m)), Event(eid)))
              && r.count.msgActExec == (s.count.msgActExec + 1) % U32
              && r.msg == s.msg.(cooldown := s.msg.cooldown[m := s.msg.mat[m].cooldown])
  {
    hide Do, Emit, Acted, MsgAction, Confined, SameMarks, SameTables, HalfDisabled, Deeds;
    var m := action - ACT_LAST_NONMSG - 1;
    MsgActionIs(s, action, eid);
    if m < s.cfg.msgActs {
      SendEffect(s, m);
      EmitEffect(Do(s, Transmit(m)), eid);
    }
  }

  lemma MsgActionIs(s: State, action: uint16, eid: uint16)
    requires WF(s) && action > ACT_LAST_NONMSG
    ensures var m := action - ACT_LAST_NONMSG - 1;
            MsgAction(s, action, eid) ==
              if !(s.loads.msgActs && m < s.cfg.msgActs && s.msg.mat[m].enable != MAT_STATE_DISABLED
                   && s.msg.cooldown[m] == 0) then s
              else if s.msg.mat[m].enable == MAT_STATE_NOEVENT then Do(s, Transmit(m))
              else Emit(Do(s, Transmit(m)), eid)
  {
    hide Do, Emit, Acted, Confined, SameMarks, SameTables, HalfDisabled, Deeds;
  }

  lemma SendEffect(s: State, m: nat)
    requires WF(s) && m < s.cfg.msgActs
    ensures var r := Do(s, Transmit(m));
            && r.log == Then(s.log, Transmit(m))
            && r.count.msgActExec == (s.count.msgActExec + 1) % U32
            && r.msg == s.msg.(cooldown := s.msg.cooldown[m := s.msg.mat[m].cooldown])
  {
    MsgAndCount(s, Transmit(m));
  }

  lemma EmitEffect(s: State, eid: uint16)
    requires WF(s)
    ensures Emit(s, eid) == s.(log := Then(s.log, Event(eid)))
  {
    hide Confined, SameMarks, SameTables, Acted;
    LogOnly(s, Event(eid));
  }
}
