/** Draining the event pipe while the event monitor puts HS's own events back on it. */
module EventDrain {
  import opened HsTypes
  import opened HsState
  import opened HsSteps
  import opened CriticalData
  import opened HsRuns
  import opened Arithmetic
  import Witnesses

  // ---------- Which own events can cause which ----------

  /** The events the event monitor itself can send. */
  const OWN: set<uint16> := {
    RESET_LIMIT_ERR_EID, EVENTMON_MSGACTS_ERR_EID, EVENTMON_PROC_ERR_EID, EVENTMON_RESTART_ERR_EID,
    EVENTMON_NOT_RESTARTED_ERR_EID, EVENTMON_DELETE_ERR_EID, EVENTMON_NOT_DELETED_ERR_EID}

  /** A message entry that reports every send. */
  predicate Reporting(mat: seq<MatEntry>, m: int) {
    0 <= m < |mat| && mat[m].enable != MAT_STATE_DISABLED && mat[m].enable != MAT_STATE_NOEVENT
  }

  /** One that also never cools down. */
  predicate Chatty(mat: seq<MatEntry>, m: int) {
    Reporting(mat, m) && mat[m].cooldown == 0
  }

  /** Acting on entry e can send own event f, again and again. */
  predicate Sends(mat: seq<MatEntry>, e: EmtEntry, f: uint16) {
    if e.action == ACT_NOACT then false
    else if e.action == ACT_PROC_RESET then f == EVENTMON_PROC_ERR_EID || f == RESET_LIMIT_ERR_EID
    else if e.action == ACT_APP_RESTART then
      f == EVENTMON_RESTART_ERR_EID || f == EVENTMON_NOT_RESTARTED_ERR_EID
    else if e.action == EMT_ACT_APP_DELETE then
      f == EVENTMON_DELETE_ERR_EID || f == EVENTMON_NOT_DELETED_ERR_EID
    else f == EVENTMON_MSGACTS_ERR_EID && Chatty(mat, e.action - ACT_LAST_NONMSG - 1)
  }

  /** Acting on entry e can send own event f, perhaps only once in a drain. */
  predicate MaySend(mat: seq<MatEntry>, e: EmtEntry, f: uint16) {
    Sends(mat, e, f)
    || (e.action > ACT_LAST_NONMSG && f == EVENTMON_MSGACTS_ERR_EID && Reporting(mat, e.action - ACT_LAST_NONMSG - 1))
  }

  /** The tables that decide it. */
  datatype Tables = Tables(app: string, emt: seq<EmtEntry>, mat: seq<MatEntry>)

  function TablesOf(s: State): Tables {
    Tables(s.cfg.appName, s.emt, s.msg.mat)
  }

  /** Own event a can cause own event b. */
  predicate Causes(t: Tables, a: uint16, b: uint16) {
    exists i | 0 <= i < |t.emt| :: Matches(t.emt[i], EventMsg(t.app, a)) && Sends(t.mat, t.emt[i], b)
  }

  predicate CausesSome(t: Tables, a: uint16, s: set<uint16>) {
    exists b | b in s :: Causes(t, a, b)
  }

  function Narrow(t: Tables, s: set<uint16>): set<uint16> {
    set a | a in s && CausesSome(t, a, s)
  }

  /** Own events from which a chain of k causes starts. */
  function Chains(t: Tables, k: nat): (r: set<uint16>)
    ensures r <= OWN
  {
    if k == 0 then OWN else Narrow(t, Chains(t, k - 1))
  }

  /** No chain of seven own events, each causing the next: what a table check could compute. */
  predicate Chainless(t: Tables) {
    Chains(t, 7) == {}
  }

  /** Once two successive chain sets agree they agree for ever. */
  lemma {:induction false} ChainsStable(t: Tables, k: nat, j: nat)
    requires k <= j && Chains(t, k + 1) == Chains(t, k)
    ensures Chains(t, j) == Chains(t, k)
    decreases j - k
  {
    hide Narrow;
    if k < j {
      ChainsStable(t, k, j - 1);
      assert Chains(t, j) == Narrow(t, Chains(t, k)) == Chains(t, k + 1);
    }
  }

  /** The sets shrink until they stop, and there are only seven events. */
  lemma {:induction false} ChainsShrink(t: Tables, k: nat)
    requires k <= 7
    ensures Chains(t, 8) == Chains(t, 7) || |Chains(t, k)| <= 7 - k
  {
    hide CausesSome, Causes;
    if k == 0 {
      assert |OWN| == 7;
    } else {
      ChainsShrink(t, k - 1);
      assert Chains(t, k) <= Chains(t, k - 1);
      if Chains(t, k) == Chains(t, k - 1) {
        ChainsStable(t, k - 1, 7);
        ChainsStable(t, k - 1, 8);
      } else {
        SmallerSubset(Chains(t, k), Chains(t, k - 1));
      }
    }
  }

  lemma SmallerSubset(a: set<uint16>, b: set<uint16>)
    requires a < b
    ensures |a| < |b|
  {
    assert b == a + (b - a);
    assert b - a != {};
  }

  /** An event with a chain of seven has a successor with one: the chain goes round for ever. */
  lemma ChainGoesOn(t: Tables, a: uint16)
    requires a in Chains(t, 7)
    ensures CausesSome(t, a, Chains(t, 7))
  {
    ChainsShrink(t, 7);
    assert |Chains(t, 7)| > 0;
    assert Chains(t, 8) == Narrow(t, Chains(t, 7));
  }

  // ---------- Which events lead to such a chain ----------

  /** Event ev can make HS send own event f, perhaps only once in a drain. */
  predicate MayCause(t: Tables, ev: EventMsg, f: uint16) {
    exists i | 0 <= i < |t.emt| :: Matches(t.emt[i], ev) && MaySend(t.mat, t.emt[i], f)
  }

  predicate MayCauseSome(t: Tables, ev: EventMsg, s: set<uint16>) {
    exists f | f in s :: MayCause(t, ev, f)
  }

  function Wider(t: Tables, s: set<uint16>): set<uint16> {
    s + set a | a in OWN && MayCauseSome(t, EventMsg(t.app, a), s)
  }

  /** Own events that lead to a chain of seven in at most k such steps. */
  function Doors(t: Tables, k: nat): (r: set<uint16>)
    ensures r <= OWN
  {
    if k == 0 then Chains(t, 7) else Wider(t, Doors(t, k - 1))
  }

  /** Event ev can cause no own event that leads to a chain of seven: what a table check could compute. */
  predicate Safe(t: Tables, ev: EventMsg) {
    !MayCauseSome(t, ev, Doors(t, 7))
  }

  /** The sets grow until they stop, and there are only seven events. */
  lemma {:induction false} DoorsGrow(t: Tables, k: nat)
    requires k <= 8
    ensures Doors(t, 8) == Doors(t, 7) || |Doors(t, k)| >= k
  {
    hide MayCauseSome;
    if k > 0 {
      DoorsGrow(t, k - 1);
      if Doors(t, k) == Doors(t, k - 1) {
        DoorsStable(t, k - 1, 7);
        DoorsStable(t, k - 1, 8);
      } else {
        SmallerSubset(Doors(t, k - 1), Doors(t, k));
      }
    }
  }

  lemma {:induction false} DoorsStable(t: Tables, k: nat, j: nat)
    requires k <= j && Doors(t, k + 1) == Doors(t, k)
    ensures Doors(t, j) == Doors(t, k)
    decreases j - k
  {
    hide Wider;
    if k < j {
      DoorsStable(t, k, j - 1);
      assert Doors(t, j) == Wider(t, Doors(t, k)) == Doors(t, k + 1);
    }
  }

  lemma DoorsClosed(t: Tables)
    ensures Doors(t, 8) == Doors(t, 7)
  {
    hide Doors;
    DoorsGrow(t, 8);
    assert |OWN| == 7;
    if |Doors(t, 8)| >= 8 {
      SubsetSize(Doors(t, 8), OWN);
    }
  }

  lemma SubsetSize(a: set<uint16>, b: set<uint16>)
    requires a <= b
    ensures |a| <= |b|
  {
    if a != b {
      SmallerSubset(a, b);
    }
  }

  lemma {:induction false} DoorsHoldChains(t: Tables, k: nat)
    ensures Chains(t, 7) <= Doors(t, k)
  {
    hide Chains, MayCauseSome;
    if k > 0 {
      DoorsHoldChains(t, k - 1);
    }
  }

  /** An own event that a safe event may cause is safe itself and starts no chain of seven. */
  lemma CausedIsSafe(t: Tables, ev: EventMsg, f: uint16)
    requires Safe(t, ev) && f in OWN && MayCause(t, ev, f)
    ensures Safe(t, EventMsg(t.app, f)) && f !in Chains(t, 7)
  {
    hide Chains, MayCause;
    DoorsClosed(t);
    DoorsHoldChains(t, 7);
    assert f !in Doors(t, 7);
    assert Doors(t, 8) == Wider(t, Doors(t, 7));
  }

  /** An own event that leads to a chain of seven is not safe. */
  lemma {:induction false} DoorNotSafe(t: Tables, a: uint16)
    requires a in Doors(t, 7)
    ensures !Safe(t, EventMsg(t.app, a))
  {
    DoorGoesOn(t, a, 7);
  }

  lemma {:induction false} DoorGoesOn(t: Tables, a: uint16, k: nat)
    requires a in Doors(t, k) && k <= 7
    ensures MayCauseSome(t, EventMsg(t.app, a), Doors(t, 7))
  {
    hide Chains, MayCause, CausesSome;
    if a in Chains(t, 7) {
      ChainGoesOn(t, a);
      ChainStepMay(t, a);
      DoorsHoldChains(t, 7);
    } else if a in Doors(t, k - 1) {
      DoorGoesOn(t, a, k - 1);
    } else {
      DoorsNested(t, k - 1, 7);
    }
  }

  lemma ChainStepMay(t: Tables, a: uint16)
    requires CausesSome(t, a, Chains(t, 7))
    ensures MayCauseSome(t, EventMsg(t.app, a), Chains(t, 7))
  {
    hide Chains;
    var b :| b in Chains(t, 7) && Causes(t, a, b);
    assert MayCause(t, EventMsg(t.app, a), b);
  }

  lemma {:induction false} DoorsNested(t: Tables, j: nat, k: nat)
    requires j <= k
    ensures Doors(t, j) <= Doors(t, k)
  {
    hide MayCauseSome, Chains;
    if j < k {
      DoorsNested(t, j, k - 1);
    }
  }

  /** If the report of a message starts no chain, nothing that is sent only once matters. */
  lemma {:induction false} DoorsAreChains(t: Tables, k: nat)
    requires EVENTMON_MSGACTS_ERR_EID !in Chains(t, 7)
    ensures Doors(t, k) == Chains(t, 7)
  {
    hide Chains, MayCause, Causes;
    if k > 0 {
      DoorsAreChains(t, k - 1);
      forall a | a in Doors(t, k) ensures a in Chains(t, 7) {
        if a !in Chains(t, 7) {
          var b :| b in Chains(t, 7) && MayCause(t, EventMsg(t.app, a), b);
          AlwaysCauses(t, a, b);
          ChainBefore(t, a, b);
        }
      }
    }
  }

  lemma AlwaysCauses(t: Tables, a: uint16, b: uint16)
    requires MayCause(t, EventMsg(t.app, a), b) && b != EVENTMON_MSGACTS_ERR_EID
    ensures Causes(t, a, b)
  {
  }

  /** What causes a member of an endless chain belongs to one. */
  lemma ChainBefore(t: Tables, a: uint16, b: uint16)
    requires a in OWN && b in Chains(t, 7) && Causes(t, a, b)
    ensures a in Chains(t, 7)
  {
    hide Causes, CausesSome;
    InChains(t, a, b, 7);
    assert Chains(t, 8) <= Chains(t, 7);
  }

  // ---------- Ranks and weights ----------

  /** The length of the longest chain from own event a. */
  function Rank(t: Tables, a: uint16, k: nat): (r: nat)
    ensures r <= k
    ensures a in OWN ==> a in Chains(t, r)
  {
    if k == 0 then 0 else if a in Chains(t, k) then k else Rank(t, a, k - 1)
  }

  lemma {:induction false} RankAtLeast(t: Tables, a: uint16, j: nat, k: nat)
    requires a in Chains(t, j) && j <= k
    ensures Rank(t, a, k) >= j
  {
    if k > j {
      RankAtLeast(t, a, j, k - 1);
    }
  }

  lemma CauseOutranks(t: Tables, a: uint16, b: uint16)
    requires a !in Chains(t, 7) && b !in Chains(t, 7) && a in OWN && b in OWN && Causes(t, a, b)
    ensures Rank(t, b, 7) < Rank(t, a, 7) < 7
  {
    hide Narrow;
    var j := Rank(t, b, 7);
    assert b in Chains(t, j) && j != 7;
    InChains(t, a, b, j);
    RankAtLeast(t, a, j + 1, 7);
  }

  lemma {:induction false} InChains(t: Tables, a: uint16, b: uint16, j: nat)
    requires a in OWN && b in Chains(t, j) && Causes(t, a, b)
    ensures a in Chains(t, j + 1)
  {
    if j > 0 {
      InChains(t, a, b, j - 1);
    }
  }

  function Pow(b: nat, n: nat): nat {
    if n == 0 then 1 else b * Pow(b, n - 1)
  }

  lemma PowStep(b: nat, n: nat)
    ensures Pow(b, n) * b == Pow(b, n + 1)
  {
  }

  lemma {:induction false} PowMonotone(b: nat, m: nat, n: nat)
    requires b >= 1 && m <= n
    ensures 1 <= Pow(b, m) <= Pow(b, n)
  {
    if n > 0 {
      PowMonotone(b, if m < n then m else m - 1, n - 1);
      MulMonotone(Pow(b, n - 1), 1, b);
    }
  }

  // ---------- What one event makes HS send ----------

  /** All events HS has sent, in order. */
  function OwnEvents(t: Trace): seq<uint16> {
    match t
    case Start => []
    case Then(before, op) => if op.Event? then OwnEvents(before) + [op.eid] else OwnEvents(before)
  }

  /** Message entries with a cooldown that are off it: each can be sent once more in this drain. */
  function Loaded(mat: seq<MatEntry>, cooldown: seq<uint16>, n: nat): nat
    requires n <= |mat| && n <= |cooldown|
  {
    if n == 0 then 0
    else Loaded(mat, cooldown, n - 1) + if mat[n - 1].cooldown > 0 && cooldown[n - 1] == 0 then 1 else 0
  }

  function LoadedIn(s: State): nat
    requires WF(s)
  {
    Loaded(s.msg.mat, s.msg.cooldown, s.cfg.msgActs)
  }

  lemma {:induction false} LoadedAfterSend(mat: seq<MatEntry>, cooldown: seq<uint16>, m: nat, n: nat)
    requires m < n <= |mat| && n <= |cooldown| && cooldown[m] == 0
    ensures Loaded(mat, cooldown[m := mat[m].cooldown], n)
              == Loaded(mat, cooldown, n) - if mat[m].cooldown > 0 then 1 else 0
  {
    if m < n - 1 {
      LoadedAfterSend(mat, cooldown, m, n - 1);
    } else {
      LoadedSame(mat, cooldown, cooldown[m := mat[m].cooldown], m);
    }
  }

  lemma {:induction false} LoadedSame(mat: seq<MatEntry>, a: seq<uint16>, b: seq<uint16>, n: nat)
    requires n <= |mat| && n <= |a| && n <= |b| && a[..n] == b[..n]
    ensures Loaded(mat, a, n) == Loaded(mat, b, n)
  {
    if n > 0 {
      assert a[..n - 1] == a[..n][..n - 1] && b[..n - 1] == b[..n][..n - 1];
      assert a[n - 1] == a[..n][n - 1] == b[n - 1];
      LoadedSame(mat, a, b, n - 1);
    }
  }

  /** From s to r HS sent `news`; it used up a loaded message, or sent only what entry e can always send. */
  predicate Sent(s: State, r: State, news: seq<uint16>, e: EmtEntry)
    requires WF(s) && WF(r)
  {
    && OwnEvents(r.log) == OwnEvents(s.log) + news
    && |news| <= 2
    && (forall k | 0 <= k < |news| :: news[k] in OWN && MaySend(s.msg.mat, e, news[k]))
    && LoadedIn(r) <= LoadedIn(s)
    && (LoadedIn(r) < LoadedIn(s) || forall k | 0 <= k < |news| :: Sends(s.msg.mat, e, news[k]))
  }

  lemma EmitSent(s: State, eid: uint16)
    requires WF(s)
    ensures OwnEvents(Emit(s, eid).log) == OwnEvents(s.log) + [eid]
    ensures Emit(s, eid).msg == s.msg && Emit(s, eid).rst == s.rst
  {
  }

  lemma QuietOp(s: State, op: Op)
    requires WF(s) && Fits(s, op)
    requires op.SetCds? || op.ResetCfe? || op.RestartApp? || op.DeleteApp? || op.Attempt? || op.RunEventMon?
    ensures OwnEvents(Do(s, op).log) == OwnEvents(s.log) && Do(s, op).msg == s.msg
    ensures !op.SetCds? && !op.ResetCfe? ==> Do(s, op).rst == s.rst
  {
  }

  lemma ResetSent(s: State) returns (news: seq<uint16>)
    requires WF(s)
    ensures var r := ProcReset(s, EVENTMON_PROC_ERR_EID);
            && OwnEvents(r.log) == OwnEvents(s.log) + news && r.msg == s.msg
            && (news == [EVENTMON_PROC_ERR_EID] || news == [EVENTMON_PROC_ERR_EID, RESET_LIMIT_ERR_EID])
            && (s.rst.cds.resets >= s.rst.cds.max ==> |news| == 2 && r.rst == s.rst)
  {
    hide Emit, Do;
    EmitSent(s, EVENTMON_PROC_ERR_EID);
    var s1 := Emit(s, EVENTMON_PROC_ERR_EID);
    var c := s1.rst.cds;
    news := [EVENTMON_PROC_ERR_EID];
    if c.resets < c.max {
      QuietOp(s1, SetCds(CdsReason.Counted, c.resets + 1, c.max));
      QuietOp(Do(s1, SetCds(CdsReason.Counted, c.resets + 1, c.max)), ResetCfe);
    } else {
      EmitSent(s1, RESET_LIMIT_ERR_EID);
      news := news + [RESET_LIMIT_ERR_EID];
    }
  }

  lemma ManageSent(s: State, x: EntryInput, eid: uint16, call: Op, failed: uint16) returns (news: seq<uint16>)
    requires WF(s) && (call.RestartApp? || call.DeleteApp?)
    ensures var r := ManageAction(s, x, eid, call, failed);
            && OwnEvents(r.log) == OwnEvents(s.log) + news && r.msg == s.msg && r.rst == s.rst
            && news == (if x.resolved then [eid] else []) + if x.resolved && x.callOk then [] else [failed]
  {
    hide Emit, Do;
    EmitSent(s, eid);
    QuietOp(Emit(s, eid), call);
    var s1 := if x.resolved then Do(Emit(s, eid), call) else s;
    EmitSent(s1, failed);
    news := (if x.resolved then [eid] else []) + if x.resolved && x.callOk then [] else [failed];
  }

  lemma TransmitSent(s: State, m: nat)
    requires WF(s) && m < s.cfg.msgActs && s.msg.cooldown[m] == 0
    ensures var r := Do(s, Transmit(m));
            && OwnEvents(r.log) == OwnEvents(s.log) && r.rst == s.rst && r.loads == s.loads
            && r.msg == s.msg.(cooldown := s.msg.cooldown[m := s.msg.mat[m].cooldown])
            && LoadedIn(r) == LoadedIn(s) - if s.msg.mat[m].cooldown > 0 then 1 else 0
  {
    LoadedAfterSend(s.msg.mat, s.msg.cooldown, m, s.cfg.msgActs);
  }

  lemma MsgSent(s: State, action: uint16) returns (news: seq<uint16>)
    requires WF(s) && action > ACT_LAST_NONMSG
    ensures var r, m := MsgAction(s, action, EVENTMON_MSGACTS_ERR_EID), action - ACT_LAST_NONMSG - 1;
            && OwnEvents(r.log) == OwnEvents(s.log) + news && r.rst == s.rst
            && LoadedIn(r) <= LoadedIn(s)
            && (news == [] || (news == [EVENTMON_MSGACTS_ERR_EID] && Reporting(s.msg.mat, m)))
            && (LoadedIn(r) < LoadedIn(s) || news == [] || Chatty(s.msg.mat, m))
            && (s.loads.msgActs && Chatty(s.msg.mat, m) && s.msg.cooldown[m] == 0 ==>
                  news != [] && r.msg == s.msg)
            && (forall k | 0 <= k < s.cfg.msgActs && s.msg.mat[k].cooldown == 0 && s.msg.cooldown[k] == 0 ::
                  r.msg.cooldown[k] == 0)
  {
    hide Emit, Do;
    var m := action - ACT_LAST_NONMSG - 1;
    news := [];
    if s.loads.msgActs && m < s.cfg.msgActs && s.msg.cooldown[m] == 0
       && s.msg.mat[m].enable != MAT_STATE_DISABLED {
      TransmitSent(s, m);
      if s.msg.mat[m].enable != MAT_STATE_NOEVENT {
        EmitSent(Do(s, Transmit(m)), EVENTMON_MSGACTS_ERR_EID);
        news := [EVENTMON_MSGACTS_ERR_EID];
      }
    }
  }

  lemma ActionSent(s: State, e: EmtEntry, x: EntryInput) returns (news: seq<uint16>)
    requires WF(s) && e.action != ACT_NOACT
    ensures Sent(s, EventAction(s, e, x), news, e)
  {
    hide Emit, Do, ProcReset, ManageAction, MsgAction, WF, Confined, SameMarks, SameTables, HalfDisabled, Deeds;
    if e.action == ACT_PROC_RESET {
      news := ResetSent(s);
    } else if e.action == ACT_APP_RESTART {
      news := ManageSent(s, x, EVENTMON_RESTART_ERR_EID, RestartApp(e.name, x.callOk), EVENTMON_NOT_RESTARTED_ERR_EID);
    } else if e.action == EMT_ACT_APP_DELETE {
      news := ManageSent(s, x, EVENTMON_DELETE_ERR_EID, DeleteApp(e.name, x.callOk), EVENTMON_NOT_DELETED_ERR_EID);
    } else {
      news := MsgSent(s, e.action);
    }
  }

  lemma EntrySent(s: State, i: nat, ev: EventMsg, x: EntryInput) returns (news: seq<uint16>)
    requires WF(s) && i < s.cfg.events
    ensures Sent(s, EventEntry(s, i, ev, x), news, s.emt[i])
    ensures !Matches(s.emt[i], ev) ==> news == []
  {
    hide EventAction, Do;
    news := [];
    if Matches(s.emt[i], ev) {
      QuietOp(s, Attempt(ev, i, x.resolved));
      news := ActionSent(Do(s, Attempt(ev, i, x.resolved)), s.emt[i], x);
    }
  }

  /** What the first n entries send on event ev: at most two events each; a loaded message is used up, or
      everything sent is caused by ev. */
  predicate SentOn(s: State, r: State, news: seq<uint16>, ev: EventMsg, n: nat)
    requires WF(s) && WF(r)
  {
    && OwnEvents(r.log) == OwnEvents(s.log) + news
    && |news| <= 2 * n
    && (forall k | 0 <= k < |news| :: news[k] in OWN && MayCause(TablesOf(s), ev, news[k]))
    && LoadedIn(r) <= LoadedIn(s)
    && (LoadedIn(r) < LoadedIn(s) || forall k | 0 <= k < |news| :: CausedBy(s.emt, s.msg.mat, ev, news[k]))
  }

  predicate CausedBy(emt: seq<EmtEntry>, mat: seq<MatEntry>, ev: EventMsg, f: uint16) {
    exists i | 0 <= i < |emt| :: Matches(emt[i], ev) && Sends(mat, emt[i], f)
  }

  lemma NothingSent(s: State, ev: EventMsg)
    requires WF(s)
    ensures SentOn(s, s, [], ev, 0)
  {
    hide LoadedIn, OwnEvents;
  }

  /** One more entry. */
  lemma JoinSent(s: State, s1: State, r: State, first: seq<uint16>, second: seq<uint16>, ev: EventMsg, i: nat)
    requires WF(s) && WF(s1) && WF(r) && i < s.cfg.events && s1.emt == s.emt && s1.msg.mat == s.msg.mat
    requires SentOn(s, s1, first, ev, i) && Sent(s1, r, second, s.emt[i])
    requires !Matches(s.emt[i], ev) ==> second == []
    ensures SentOn(s, r, first + second, ev, i + 1)
  {
    hide Sends, MaySend, Matches, LoadedIn, OwnEvents;
    assert OwnEvents(s.log) + first + second == OwnEvents(s.log) + (first + second);
  }

  lemma {:induction false} MonitorSent(s: State, ev: EventMsg, xs: seq<EntryInput>, n: nat)
    returns (news: seq<uint16>)
    requires WF(s) && n <= |xs| == s.cfg.events
    ensures SentOn(s, MonitorEvent(s, ev, xs, n), news, ev, n)
  {
    hide EventEntry, SentOn, Sent, Matches, SameMarks, SameTables, HalfDisabled;
    if n == 0 {
      news := [];
      NothingSent(s, ev);
    } else {
      var first := MonitorSent(s, ev, xs, n - 1);
      var s1 := MonitorEvent(s, ev, xs, n - 1);
      var second := EntrySent(s1, n - 1, ev, xs[n - 1]);
      news := first + second;
      JoinSent(s, s1, MonitorEvent(s, ev, xs, n), first, second, ev, n - 1);
    }
  }

  // ---------- The drain with own events put back ----------

  /** The answers the environment gives to the entries of the k-th handled event. */
  type Script = nat -> seq<EntryInput>

  ghost predicate ScriptFits(cfg: Config, script: Script) {
    forall k: nat :: |script(k)| == cfg.events
  }

  function AsMessages(app: string, eids: seq<uint16>): (r: seq<EventMsg>)
    ensures |r| == |eids|
    ensures forall k | 0 <= k < |r| :: r[k] == EventMsg(app, eids[k])
  {
    seq(|eids|, k requires 0 <= k < |eids| => EventMsg(app, eids[k]))
  }

  function Handle(s: State, ev: EventMsg, xs: seq<EntryInput>): (r: State)
    requires WF(s) && |xs| == s.cfg.events
    ensures WF(r) && Kept(s, r)
  {
    OneEvent(s, GotEvent(ev, xs))
  }

  /** Events sent between s and a later state r. */
  function NewEvents(s: State, r: State): seq<uint16> {
    var before, now := OwnEvents(s.log), OwnEvents(r.log);
    if |before| <= |now| then now[|before|..] else []
  }

  function HandleQueue(s: State, q: seq<EventMsg>, xs: seq<EntryInput>): seq<EventMsg>
    requires WF(s) && |xs| == s.cfg.events && q != []
  {
    q[1..] + AsMessages(s.cfg.appName, NewEvents(s, Handle(s, q[0], xs)))
  }

  /** The queue after n turns of the loop; an empty queue ends it. */
  ghost function Remaining(s: State, q: seq<EventMsg>, script: Script, k: nat, n: nat): seq<EventMsg>
    requires WF(s) && ScriptFits(s.cfg, script)
    decreases n
  {
    if n == 0 || q == [] then q
    else Remaining(Handle(s, q[0], script(k)), HandleQueue(s, q, script(k)), script, k + 1, n - 1)
  }

  ghost predicate Ends(s: State, q: seq<EventMsg>, script: Script)
    requires WF(s) && ScriptFits(s.cfg, script)
  {
    exists n: nat :: Remaining(s, q, script, 0, n) == []
  }

  /** What the pipe delivers in n turns, and the state after them. */
  ghost function Delivered(s: State, q: seq<EventMsg>, script: Script, k: nat, n: nat): seq<EventDelivery>
    requires WF(s) && ScriptFits(s.cfg, script)
    decreases n
  {
    if n == 0 || q == [] then [] else
      [GotEvent(q[0], script(k))]
      + Delivered(Handle(s, q[0], script(k)), HandleQueue(s, q, script(k)), script, k + 1, n - 1)
  }

  ghost function StateAfter(s: State, q: seq<EventMsg>, script: Script, k: nat, n: nat): (r: State)
    requires WF(s) && ScriptFits(s.cfg, script)
    ensures WF(r) && r.cfg == s.cfg
    decreases n
  {
    if n == 0 || q == [] then s
    else StateAfter(Handle(s, q[0], script(k)), HandleQueue(s, q, script(k)), script, k + 1, n - 1)
  }

  lemma {:induction false} DrainFirst(s: State, d: EventDelivery, ds: seq<EventDelivery>, n: nat)
    requires WF(s) && n <= |ds| && DeliveryFits(s.cfg, d) && forall x | x in ds :: DeliveryFits(s.cfg, x)
    ensures forall x | x in [d] + ds :: DeliveryFits(s.cfg, x)
    ensures DrainEvents(s, [d] + ds, n + 1) == DrainEvents(OneEvent(s, d), ds, n)
  {
    hide OneEvent;
    var all := [d] + ds;
    if n > 0 {
      DrainFirst(s, d, ds, n - 1);
      assert all[n] == ds[n - 1];
    } else {
      assert DrainEvents(s, all, 0) == s;
    }
  }

  /** The loop fed with its own events is the event loop of a cycle in which the pipe delivers just those. */
  lemma {:induction false} TurnsAreDeliveries(s: State, q: seq<EventMsg>, script: Script, k: nat, n: nat)
    requires WF(s) && ScriptFits(s.cfg, script)
    ensures var ds := Delivered(s, q, script, k, n);
            && (forall d | d in ds :: DeliveryFits(s.cfg, d))
            && DrainEvents(s, ds, |ds|) == StateAfter(s, q, script, k, n)
    decreases n
  {
    hide OneEvent, HandleQueue;
    if n > 0 && q != [] {
      var d := GotEvent(q[0], script(k));
      var s1, q1 := Handle(s, q[0], script(k)), HandleQueue(s, q, script(k));
      TurnsAreDeliveries(s1, q1, script, k + 1, n - 1);
      var ds := Delivered(s1, q1, script, k + 1, n - 1);
      DrainFirst(s, d, ds, |ds|);
    }
  }

  lemma HandleSent(s: State, ev: EventMsg, xs: seq<EntryInput>)
    requires WF(s) && |xs| == s.cfg.events
    ensures SentOn(s, Handle(s, ev, xs), NewEvents(s, Handle(s, ev, xs)), ev, s.cfg.events)
  {
    hide Do, MonitorEvent;
    QuietOp(s, RunEventMon(ev));
    var news := MonitorSent(Do(s, RunEventMon(ev)), ev, xs, s.cfg.events);
    assert NewEvents(s, Handle(s, ev, xs)) == news;
  }

  // ---------- Termination ----------

  /** An own event weighs by its rank, any other event more than every own one. */
  function Weight(t: Tables, b: nat, ev: EventMsg): nat {
    if ev.app == t.app && ev.id in OWN then Pow(b, Rank(t, ev.id, 7)) else Pow(b, 7)
  }

  function Total(t: Tables, b: nat, q: seq<EventMsg>): nat {
    if q == [] then 0 else Weight(t, b, q[0]) + Total(t, b, q[1..])
  }

  lemma {:induction false} TotalConcat(t: Tables, b: nat, p: seq<EventMsg>, q: seq<EventMsg>)
    ensures Total(t, b, p + q) == Total(t, b, p) + Total(t, b, q)
  {
    if p == [] {
      assert p + q == q;
    } else {
      TotalConcat(t, b, p[1..], q);
      assert (p + q)[1..] == p[1..] + q;
    }
  }

  lemma {:induction false} TotalBound(t: Tables, b: nat, q: seq<EventMsg>, w: nat)
    requires forall k | 0 <= k < |q| :: Weight(t, b, q[k]) <= w
    ensures Total(t, b, q) <= |q| * w
  {
    if q != [] {
      TotalBound(t, b, q[1..], w);
      assert |q| * w == w + (|q| - 1) * w;
    }
  }

  /** A safe own event starts no chain of seven. */
  lemma SafeUnchained(t: Tables, a: uint16)
    requires Safe(t, EventMsg(t.app, a))
    ensures a !in Chains(t, 7)
  {
    hide Chains, Doors, Safe;
    DoorsHoldChains(t, 7);
    if a in Chains(t, 7) {
      DoorNotSafe(t, a);
    }
  }

  /** A safe event outweighs everything it causes. */
  lemma CausedLighter(t: Tables, b: nat, ev: EventMsg, f: uint16)
    requires Safe(t, ev) && b >= 1 && f in OWN && CausedBy(t.emt, t.mat, ev, f)
    ensures Weight(t, b, EventMsg(t.app, f)) * b <= Weight(t, b, ev)
  {
    hide Chains, Narrow, Pow, Rank, Safe;
    CausedMay(t, ev, f);
    CausedIsSafe(t, ev, f);
    var r := Rank(t, f, 7);
    var w := if ev.app == t.app && ev.id in OWN then Rank(t, ev.id, 7) else 7;
    if ev.app == t.app && ev.id in OWN {
      assert ev == EventMsg(t.app, ev.id);
      SafeUnchained(t, ev.id);
      CausesIsCausedBy(t, ev.id, f);
      CauseOutranks(t, ev.id, f);
    } else {
      RankBelowSeven(t, f);
    }
    PowMonotone(b, r + 1, w);
    PowStep(b, r);
  }

  lemma CausedMay(t: Tables, ev: EventMsg, f: uint16)
    requires CausedBy(t.emt, t.mat, ev, f)
    ensures MayCause(t, ev, f)
  {
    hide Sends;
    var i :| 0 <= i < |t.emt| && Matches(t.emt[i], ev) && Sends(t.mat, t.emt[i], f);
    assert MaySend(t.mat, t.emt[i], f);
  }

  lemma CausesIsCausedBy(t: Tables, a: uint16, f: uint16)
    requires CausedBy(t.emt, t.mat, EventMsg(t.app, a), f)
    ensures Causes(t, a, f)
  {
  }

  lemma RankBelowSeven(t: Tables, f: uint16)
    requires f !in Chains(t, 7) && f in OWN
    ensures Rank(t, f, 7) < 7
  {
    hide Chains;
    assert f in Chains(t, Rank(t, f, 7));
  }

  lemma SentLighter(t: Tables, b: nat, ev: EventMsg, news: seq<uint16>)
    requires Safe(t, ev) && b > |news|
    requires forall k | 0 <= k < |news| :: news[k] in OWN && CausedBy(t.emt, t.mat, ev, news[k])
    ensures Total(t, b, AsMessages(t.app, news)) < Weight(t, b, ev)
  {
    hide Chains, Rank;
    var q := AsMessages(t.app, news);
    var v := Weight(t, b, ev);
    PowMonotone(b, 0, 7);
    WeightPositive(t, b, ev);
    if news != [] {
      var w := v / b;
      forall k | 0 <= k < |q| ensures Weight(t, b, q[k]) <= w {
        CausedLighter(t, b, ev, news[k]);
        Divides(Weight(t, b, q[k]), b, v);
      }
      TotalBound(t, b, q, w);
      Room(|q|, w, b, v);
    }
  }

  lemma Divides(x: nat, b: nat, v: nat)
    requires b >= 1 && x * b <= v
    ensures x <= v / b
  {
    var q := v / b;
    assert v < q * b + b;
    MulMonotone(b, q + 1, x);
  }

  lemma Room(n: nat, w: nat, b: nat, v: nat)
    requires n < b && w == v / b && v >= 1
    ensures n * w < v
  {
    assert w * b <= v;
    if w > 0 {
      assert n * w < b * w;
    }
  }

  lemma WeightPositive(t: Tables, b: nat, ev: EventMsg)
    requires b >= 1
    ensures Weight(t, b, ev) >= 1
  {
    PowMonotone(b, 0, 7);
    PowMonotone(b, 0, Rank(t, ev.id, 7));
  }

  function Base(cfg: Config): nat {
    2 * cfg.events + 1
  }

  predicate AllSafe(t: Tables, q: seq<EventMsg>) {
    forall k | 0 <= k < |q| :: Safe(t, q[k])
  }

  /** One turn of the loop uses up a loaded message or makes the queue lighter, and keeps it safe. */
  lemma TurnDecreases(s: State, q: seq<EventMsg>, xs: seq<EntryInput>)
    requires WF(s) && |xs| == s.cfg.events && q != [] && AllSafe(TablesOf(s), q)
    ensures var r := Handle(s, q[0], xs);
            && TablesOf(r) == TablesOf(s) && LoadedIn(r) <= LoadedIn(s)
            && AllSafe(TablesOf(s), HandleQueue(s, q, xs))
            && (LoadedIn(r) < LoadedIn(s) ||
                Total(TablesOf(s), Base(s.cfg), HandleQueue(s, q, xs)) < Total(TablesOf(s), Base(s.cfg), q))
  {
    hide OneEvent, Chains, Weight, Safe, MayCause;
    var t, b, r := TablesOf(s), Base(s.cfg), Handle(s, q[0], xs);
    HandleSent(s, q[0], xs);
    var news := NewEvents(s, r);
    forall k | 0 <= k < |news| ensures Safe(t, EventMsg(t.app, news[k])) {
      CausedIsSafe(t, q[0], news[k]);
    }
    if LoadedIn(r) == LoadedIn(s) {
      SentLighter(t, b, q[0], news);
      TotalConcat(t, b, q[1..], AsMessages(t.app, news));
    }
  }

  lemma {:induction false} Finishes(s: State, q: seq<EventMsg>, script: Script, k: nat) returns (n: nat)
    requires WF(s) && ScriptFits(s.cfg, script) && AllSafe(TablesOf(s), q)
    ensures Remaining(s, q, script, k, n) == []
    decreases LoadedIn(s), Total(TablesOf(s), Base(s.cfg), q)
  {
    hide Handle, HandleQueue, Chains, LoadedIn, Total, AllSafe;
    n := 0;
    if q != [] {
      TurnDecreases(s, q, script(k));
      var m := Finishes(Handle(s, q[0], script(k)), HandleQueue(s, q, script(k)), script, k + 1);
      n := m + 1;
    }
  }

  // ---------- Non-termination ----------

  /** Message actions are usable, uncooled messages are ready and the reset limit is reached. */
  predicate Adverse(s: State) {
    && WF(s) && s.loads.msgActs && s.rst.cds.resets >= s.rst.cds.max
    && forall m | 0 <= m < s.cfg.msgActs && s.msg.mat[m].cooldown == 0 :: s.msg.cooldown[m] == 0
  }

  /** Every application is found and every restart or delete fails. */
  const FAILING := EntryInput(true, false)

  /** From s to r HS sent `news`, which holds everything entry e can send. */
  predicate SentAll(s: State, r: State, news: seq<uint16>, e: EmtEntry) {
    && Adverse(r) && OwnEvents(r.log) == OwnEvents(s.log) + news
    && forall f: uint16 | Sends(s.msg.mat, e, f) :: f in news
  }

  lemma ActionAdverse(s: State, e: EmtEntry) returns (news: seq<uint16>)
    requires Adverse(s) && e.action != ACT_NOACT
    ensures SentAll(s, EventAction(s, e, FAILING), news, e)
  {
    hide Emit, Do, ProcReset, ManageAction, MsgAction;
    if e.action == ACT_PROC_RESET {
      news := ResetSent(s);
    } else if e.action == ACT_APP_RESTART {
      news := ManageSent(s, FAILING, EVENTMON_RESTART_ERR_EID, RestartApp(e.name, false),
                         EVENTMON_NOT_RESTARTED_ERR_EID);
    } else if e.action == EMT_ACT_APP_DELETE {
      news := ManageSent(s, FAILING, EVENTMON_DELETE_ERR_EID, DeleteApp(e.name, false), EVENTMON_NOT_DELETED_ERR_EID);
    } else {
      news := MsgSent(s, e.action);
    }
  }

  lemma QuietLoads(s: State, op: Op)
    requires WF(s) && Fits(s, op) && (op.Attempt? || op.RunEventMon?)
    ensures Do(s, op).loads == s.loads
  {
  }

  lemma EntryAdverse(s: State, i: nat, ev: EventMsg) returns (news: seq<uint16>)
    requires Adverse(s) && i < s.cfg.events
    ensures var r := EventEntry(s, i, ev, FAILING);
            if Matches(s.emt[i], ev) then SentAll(s, r, news, s.emt[i]) else r == s && news == []
  {
    hide EventAction, Do, Sends;
    news := [];
    if Matches(s.emt[i], ev) {
      QuietOp(s, Attempt(ev, i, true));
      QuietLoads(s, Attempt(ev, i, true));
      news := ActionAdverse(Do(s, Attempt(ev, i, true)), s.emt[i]);
    }
  }

  predicate Uniform(xs: seq<EntryInput>) {
    forall k | 0 <= k < |xs| :: xs[k] == FAILING
  }

  /** From s to r HS sent `news`, which holds everything the first n entries can send on event ev. */
  predicate SentAllOn(s: State, r: State, news: seq<uint16>, ev: EventMsg, n: nat)
    requires n <= |s.emt|
  {
    && Adverse(r) && OwnEvents(r.log) == OwnEvents(s.log) + news
    && forall i, f: uint16 | 0 <= i < n && Matches(s.emt[i], ev) && Sends(s.msg.mat, s.emt[i], f) :: f in news
  }

  lemma StaysAdverse(s: State, r: State, news: seq<uint16>, ev: EventMsg, n: nat)
    requires n <= |s.emt| && SentAllOn(s, r, news, ev, n)
    ensures Adverse(r)
  {
  }

  lemma JoinAdverse(s: State, s1: State, r: State, first: seq<uint16>, second: seq<uint16>, ev: EventMsg, i: nat)
    requires i < |s.emt| && s1.emt == s.emt && s1.msg.mat == s.msg.mat && SentAllOn(s, s1, first, ev, i)
    requires if Matches(s.emt[i], ev) then SentAll(s1, r, second, s.emt[i]) else r == s1 && second == []
    ensures SentAllOn(s, r, first + second, ev, i + 1)
  {
    hide Adverse, Sends, Matches, OwnEvents;
    assert OwnEvents(s.log) + first + second == OwnEvents(s.log) + (first + second);
  }

  lemma {:induction false} MonitorAdverse(s: State, ev: EventMsg, xs: seq<EntryInput>, n: nat)
    returns (news: seq<uint16>)
    requires Adverse(s) && n <= |xs| == s.cfg.events && Uniform(xs)
    ensures SentAllOn(s, MonitorEvent(s, ev, xs, n), news, ev, n)
  {
    hide EventEntry, SentAll, Sends, Matches, SameMarks, SameTables, HalfDisabled;
    if n == 0 {
      news := [];
    } else {
      hide SentAllOn;
      var first := MonitorAdverse(s, ev, xs, n - 1);
      var s1 := MonitorEvent(s, ev, xs, n - 1);
      StaysAdverse(s, s1, first, ev, n - 1);
      var second := EntryAdverse(s1, n - 1, ev);
      news := first + second;
      JoinAdverse(s, s1, MonitorEvent(s, ev, xs, n), first, second, ev, n - 1);
    }
  }

  lemma HandleAdverse(s: State, ev: EventMsg, xs: seq<EntryInput>)
    requires Adverse(s) && |xs| == s.cfg.events && Uniform(xs)
    ensures var r := Handle(s, ev, xs);
            && Adverse(r)
            && forall f: uint16 | CausedBy(s.emt, s.msg.mat, ev, f) :: f in NewEvents(s, r)
  {
    hide Do, MonitorEvent, Sends;
    QuietOp(s, RunEventMon(ev));
    QuietLoads(s, RunEventMon(ev));
    var news := MonitorAdverse(Do(s, RunEventMon(ev)), ev, xs, s.cfg.events);
    assert NewEvents(s, Handle(s, ev, xs)) == news;
  }

  /** Some queued own event starts a chain of seven. */
  predicate Lively(t: Tables, q: seq<EventMsg>) {
    exists k | 0 <= k < |q| :: q[k].app == t.app && q[k].id in Chains(t, 7)
  }

  lemma LivelyTurn(s: State, q: seq<EventMsg>, xs: seq<EntryInput>)
    requires Adverse(s) && |xs| == s.cfg.events && Uniform(xs) && q != [] && Lively(TablesOf(s), q)
    ensures Adverse(Handle(s, q[0], xs)) && Lively(TablesOf(s), HandleQueue(s, q, xs))
  {
    hide OneEvent, Chains;
    var t, q' := TablesOf(s), HandleQueue(s, q, xs);
    HandleAdverse(s, q[0], xs);
    var k :| 0 <= k < |q| && q[k].app == t.app && q[k].id in Chains(t, 7);
    if k > 0 {
      assert q'[k - 1] == q[k];
    } else {
      ChainGoesOn(t, q[0].id);
      var f :| f in Chains(t, 7) && Causes(t, q[0].id, f);
      assert q[0] == EventMsg(t.app, q[0].id);
      var news := NewEvents(s, Handle(s, q[0], xs));
      assert CausedBy(s.emt, s.msg.mat, q[0], f);
      var j :| 0 <= j < |news| && news[j] == f;
      assert q'[|q| - 1 + j] == EventMsg(t.app, f);
    }
  }

  lemma {:induction false} NeverEmpty(s: State, q: seq<EventMsg>, script: Script, k: nat, n: nat)
    requires Adverse(s) && ScriptFits(s.cfg, script) && (forall j: nat :: Uniform(script(j)))
    requires Lively(TablesOf(s), q)
    ensures Remaining(s, q, script, k, n) != []
    decreases n
  {
    hide Handle, HandleQueue, Adverse, Chains, Uniform;
    if n > 0 {
      AdverseWF(s);
      LivelyTurn(s, q, script(k));
      NeverEmpty(Handle(s, q[0], script(k)), HandleQueue(s, q, script(k)), script, k + 1, n - 1);
    }
  }

  lemma AdverseWF(s: State)
    requires Adverse(s)
    ensures WF(s)
  {
  }

  /** No message that reports its send cools down. */
  predicate Fresh(s: State)
    requires WF(s)
  {
    forall m | 0 <= m < s.cfg.msgActs && Reporting(s.msg.mat, m) :: s.msg.cooldown[m] == 0
  }

  /** From s to r HS sent `news`: everything entry e may send, and the report of every message that cools down now. */
  predicate SentFresh(s: State, r: State, news: seq<uint16>, e: EmtEntry)
    requires WF(r)
  {
    && (forall f: uint16 | MaySend(s.msg.mat, e, f) :: f in news)
    && (Fresh(r) || EVENTMON_MSGACTS_ERR_EID in news)
  }

  lemma MessageFresh(s: State, action: uint16, news: seq<uint16>)
    requires WF(s) && action > ACT_LAST_NONMSG && Fresh(s) && s.loads.msgActs
    requires OwnEvents(MsgAction(s, action, EVENTMON_MSGACTS_ERR_EID).log) == OwnEvents(s.log) + news
    ensures var r, m := MsgAction(s, action, EVENTMON_MSGACTS_ERR_EID), action - ACT_LAST_NONMSG - 1;
            && (Reporting(s.msg.mat, m) ==> EVENTMON_MSGACTS_ERR_EID in news)
            && (Fresh(r) || EVENTMON_MSGACTS_ERR_EID in news)
  {
    hide Emit, Do, Confined, SameMarks, SameTables, HalfDisabled, Deeds, LoadedIn;
    var m := action - ACT_LAST_NONMSG - 1;
    if m < s.cfg.msgActs && s.msg.cooldown[m] == 0 {
      TransmitSent(s, m);
      EmitSent(Do(s, Transmit(m)), EVENTMON_MSGACTS_ERR_EID);
    }
    assert news == OwnEvents(MsgAction(s, action, EVENTMON_MSGACTS_ERR_EID).log)[|OwnEvents(s.log)|..];
  }

  lemma FreshAs(s: State, r: State)
    requires WF(s) && WF(r) && r.cfg == s.cfg && r.msg == s.msg && Fresh(s)
    ensures Fresh(r)
  {
  }

  lemma ActionFresh(s: State, e: EmtEntry, news: seq<uint16>)
    requires Adverse(s) && Fresh(s) && e.action != ACT_NOACT
    requires SentAll(s, EventAction(s, e, FAILING), news, e)
    ensures SentFresh(s, EventAction(s, e, FAILING), news, e)
  {
    hide Emit, Do, ProcReset, ManageAction, MsgAction, Fresh, SameMarks, SameTables, HalfDisabled, Deeds;
    var r := EventAction(s, e, FAILING);
    if e.action == ACT_PROC_RESET {
      var again := ResetSent(s);
      FreshAs(s, r);
    } else if e.action == ACT_APP_RESTART {
      var again := ManageSent(s, FAILING, EVENTMON_RESTART_ERR_EID, RestartApp(e.name, false),
                              EVENTMON_NOT_RESTARTED_ERR_EID);
      FreshAs(s, r);
    } else if e.action == EMT_ACT_APP_DELETE {
      var again := ManageSent(s, FAILING, EVENTMON_DELETE_ERR_EID, DeleteApp(e.name, false),
                              EVENTMON_NOT_DELETED_ERR_EID);
      FreshAs(s, r);
    } else {
      MessageFresh(s, e.action, news);
    }
  }

  /** What the first n entries send on event ev, from a fresh state. */
  predicate SentFreshOn(s: State, r: State, news: seq<uint16>, ev: EventMsg, n: nat)
    requires WF(r) && n <= |s.emt|
  {
    && (forall i, f: uint16 | 0 <= i < n && Matches(s.emt[i], ev) && MaySend(s.msg.mat, s.emt[i], f) :: f in news)
    && (Fresh(r) || EVENTMON_MSGACTS_ERR_EID in news)
  }

  lemma JoinFresh(s: State, s1: State, r: State, first: seq<uint16>, second: seq<uint16>, ev: EventMsg, i: nat)
    requires i < |s.emt| && WF(s1) && WF(r) && s1.emt == s.emt && s1.msg.mat == s.msg.mat && r.cfg == s1.cfg
    requires SentFreshOn(s, s1, first, ev, i)
    requires if Matches(s.emt[i], ev) then
               SentAll(s1, r, second, s.emt[i]) && (Fresh(s1) ==> SentFresh(s1, r, second, s.emt[i]))
             else r == s1 && second == []
    ensures SentFreshOn(s, r, first + second, ev, i + 1)
  {
    hide WF, Fresh, Matches, Sends, Adverse, OwnEvents;
    var e := s.emt[i];
    if Matches(e, ev) {
      forall f: uint16 | MaySend(s.msg.mat, e, f) ensures f in first + second {
        if !Fresh(s1) && !Sends(s.msg.mat, e, f) {
          assert f == EVENTMON_MSGACTS_ERR_EID;
        }
      }
    }
  }

  lemma EntryFresh(s: State, i: nat, ev: EventMsg, news: seq<uint16>)
    requires Adverse(s) && Fresh(s) && i < s.cfg.events && Matches(s.emt[i], ev)
    requires SentAll(s, EventEntry(s, i, ev, FAILING), news, s.emt[i])
    ensures SentFresh(s, EventEntry(s, i, ev, FAILING), news, s.emt[i])
  {
    hide EventAction, Do, Sends, MaySend, Fresh, Kept, Acted;
    QuietOp(s, Attempt(ev, i, true));
    QuietLoads(s, Attempt(ev, i, true));
    FreshAs(s, Do(s, Attempt(ev, i, true)));
    ActionFresh(Do(s, Attempt(ev, i, true)), s.emt[i], news);
  }

  lemma {:induction false} MonitorFresh(s: State, ev: EventMsg, xs: seq<EntryInput>, n: nat)
    returns (news: seq<uint16>)
    requires Adverse(s) && Fresh(s) && n <= |xs| == s.cfg.events && Uniform(xs)
    ensures SentAllOn(s, MonitorEvent(s, ev, xs, n), news, ev, n)
    ensures SentFreshOn(s, MonitorEvent(s, ev, xs, n), news, ev, n)
  {
    hide EventEntry, SentAll, Sends, MaySend, Matches, SameMarks, SameTables, HalfDisabled, Fresh, SentFresh;
    if n == 0 {
      news := [];
    } else {
      hide SentAllOn, SentFreshOn;
      var first := MonitorFresh(s, ev, xs, n - 1);
      var s1 := MonitorEvent(s, ev, xs, n - 1);
      StaysAdverse(s, s1, first, ev, n - 1);
      var second := EntryAdverse(s1, n - 1, ev);
      if Matches(s1.emt[n - 1], ev) && Fresh(s1) {
        EntryFresh(s1, n - 1, ev, second);
      }
      news := first + second;
      JoinAdverse(s, s1, MonitorEvent(s, ev, xs, n), first, second, ev, n - 1);
      JoinFresh(s, s1, MonitorEvent(s, ev, xs, n), first, second, ev, n - 1);
    }
  }

  /** From a fresh state everything that the event may cause is sent. */
  lemma HandleFresh(s: State, ev: EventMsg, xs: seq<EntryInput>)
    requires Adverse(s) && Fresh(s) && |xs| == s.cfg.events && Uniform(xs)
    ensures var r, news := Handle(s, ev, xs), NewEvents(s, Handle(s, ev, xs));
            && Adverse(r) && (Fresh(r) || EVENTMON_MSGACTS_ERR_EID in news)
            && forall f: uint16 | MayCause(TablesOf(s), ev, f) :: f in news
  {
    hide Do, MonitorEvent, Sends, MaySend, Fresh;
    QuietOp(s, RunEventMon(ev));
    QuietLoads(s, RunEventMon(ev));
    FreshAs(s, Do(s, RunEventMon(ev)));
    var news := MonitorFresh(Do(s, RunEventMon(ev)), ev, xs, s.cfg.events);
    assert NewEvents(s, Handle(s, ev, xs)) == news;
  }

  // ---------- A door leads to a loop without end ----------

  /** With these answers for ever the loop never ends. */
  ghost predicate Endless(s: State, q: seq<EventMsg>, script: Script)
    requires WF(s) && ScriptFits(s.cfg, script)
  {
    forall k: nat, n: nat :: Remaining(s, q, script, k, n) != []
  }

  lemma LivelyEndless(s: State, q: seq<EventMsg>, script: Script)
    requires Adverse(s) && ScriptFits(s.cfg, script) && (forall j: nat :: Uniform(script(j)))
    requires Lively(TablesOf(s), q)
    ensures Endless(s, q, script)
  {
    hide Remaining, Adverse, Uniform;
    AdverseWF(s);
    forall k: nat, n: nat ensures Remaining(s, q, script, k, n) != [] {
      NeverEmpty(s, q, script, k, n);
    }
  }

  /** The same answers in every turn. */
  ghost predicate Constant(script: Script, xs: seq<EntryInput>) {
    forall k: nat :: script(k) == xs
  }

  lemma EndlessBefore(s: State, q: seq<EventMsg>, script: Script, xs: seq<EntryInput>)
    requires WF(s) && ScriptFits(s.cfg, script) && Constant(script, xs) && |xs| == s.cfg.events && q != []
    requires Endless(Handle(s, q[0], xs), HandleQueue(s, q, xs), script)
    ensures Endless(s, q, script)
  {
    hide Handle, HandleQueue;
    forall k: nat, n: nat ensures Remaining(s, q, script, k, n) != [] {
      assert script(k) == xs;
      if n > 0 {
        assert Remaining(Handle(s, q[0], xs), HandleQueue(s, q, xs), script, k + 1, n - 1) != [];
      }
    }
  }

  /** A queued report of a message on the one hand, a message that cools down on the other. */
  lemma SpentIsLively(t: Tables, q: seq<EventMsg>, j: nat, k: nat)
    requires j < |q| && q[j].app == t.app && q[j].id in Doors(t, k)
    requires EventMsg(t.app, EVENTMON_MSGACTS_ERR_EID) in q
    ensures Lively(t, q)
  {
    hide Chains, Doors;
    if EVENTMON_MSGACTS_ERR_EID !in Chains(t, 7) {
      DoorsAreChains(t, k);
    }
  }

  lemma InQueue(s: State, q: seq<EventMsg>, xs: seq<EntryInput>, f: uint16)
    requires WF(s) && |xs| == s.cfg.events && q != [] && f in NewEvents(s, Handle(s, q[0], xs))
    ensures EventMsg(s.cfg.appName, f) in HandleQueue(s, q, xs)
  {
    hide Handle, NewEvents;
    var news := NewEvents(s, Handle(s, q[0], xs));
    var j :| 0 <= j < |news| && news[j] == f;
    assert AsMessages(s.cfg.appName, news)[j] == EventMsg(s.cfg.appName, f);
    assert HandleQueue(s, q, xs)[|q| - 1 + j] == EventMsg(s.cfg.appName, f);
  }

  /** After a turn the queue holds a door at j: the loop goes on for ever. */
  lemma DoorTurn(s: State, q: seq<EventMsg>, script: Script, xs: seq<EntryInput>, j: nat, k: nat)
    requires Adverse(s) && Fresh(s) && ScriptFits(s.cfg, script) && Constant(script, xs) && Uniform(xs)
    requires q != [] && |xs| == s.cfg.events
    requires j < |HandleQueue(s, q, xs)| && HandleQueue(s, q, xs)[j].app == s.cfg.appName
    requires HandleQueue(s, q, xs)[j].id in Doors(TablesOf(s), k)
    ensures Endless(s, q, script)
    decreases k, j, 1
  {
    hide Handle, HandleQueue, Adverse, Fresh, Doors, Uniform, Constant, Lively, Endless;
    AdverseWF(s);
    var t, r, q' := TablesOf(s), Handle(s, q[0], xs), HandleQueue(s, q, xs);
    HandleFresh(s, q[0], xs);
    AdverseWF(r);
    if Fresh(r) {
      DoorEndless(r, q', script, xs, j, k);
    } else {
      InQueue(s, q, xs, EVENTMON_MSGACTS_ERR_EID);
      SpentIsLively(t, q', j, k);
      UniformScript(script, xs);
      LivelyEndless(r, q', script);
    }
    EndlessBefore(s, q, script, xs);
  }

  lemma UniformScript(script: Script, xs: seq<EntryInput>)
    requires Constant(script, xs) && Uniform(xs)
    ensures forall j: nat :: Uniform(script(j))
  {
    hide Uniform;
  }

  /** A queue that holds a door at j, in a fresh state. */
  lemma {:induction false} DoorEndless(s: State, q: seq<EventMsg>, script: Script, xs: seq<EntryInput>, j: nat, k: nat)
    requires Adverse(s) && Fresh(s) && ScriptFits(s.cfg, script) && Constant(script, xs) && Uniform(xs)
    requires |xs| == s.cfg.events
    requires j < |q| && q[j].app == s.cfg.appName && q[j].id in Doors(TablesOf(s), k)
    ensures Endless(s, q, script)
    decreases k, j, 0
  {
    hide Handle, Adverse, Fresh, Uniform, Constant, Chains, NewEvents, MayCause, Endless;
    AdverseWF(s);
    var t := TablesOf(s);
    if q[j].id in Chains(t, 7) {
      UniformScript(script, xs);
      LivelyEndless(s, q, script);
    } else if j > 0 {
      assert HandleQueue(s, q, xs)[j - 1] == q[j];
      DoorTurn(s, q, script, xs, j - 1, k);
    } else if q[0].id in Doors(t, k - 1) {
      DoorEndless(s, q, script, xs, 0, k - 1);
    } else {
      CauseEndless(s, q, script, xs, k - 1);
    }
  }

  /** The head of the queue may cause a door. */
  lemma CauseEndless(s: State, q: seq<EventMsg>, script: Script, xs: seq<EntryInput>, k: nat)
    requires Adverse(s) && Fresh(s) && ScriptFits(s.cfg, script) && Constant(script, xs) && Uniform(xs)
    requires |xs| == s.cfg.events && q != [] && MayCauseSome(TablesOf(s), q[0], Doors(TablesOf(s), k))
    ensures Endless(s, q, script)
    decreases k
  {
    hide Handle, HandleQueue, Adverse, Fresh, Uniform, Constant, Doors, NewEvents, MayCause, Endless;
    AdverseWF(s);
    var f :| f in Doors(TablesOf(s), k) && MayCause(TablesOf(s), q[0], f);
    HandleFresh(s, q[0], xs);
    InQueue(s, q, xs, f);
    var q' := HandleQueue(s, q, xs);
    var j :| 0 <= j < |q'| && q'[j] == EventMsg(s.cfg.appName, f);
    DoorTurn(s, q, script, xs, j, k);
  }

  // ---------- Exactly when the loop ends ----------

  /** In cycle x after this run HS enters the event loop, with these tables. */
  predicate EntersLoop(cfg: Config, run: Run, x: CycleIn, emt: seq<EmtEntry>, mat: seq<MatEntry>) {
    && Possible(cfg, run) && Up(cfg, run) && CycleFits(cfg, x)
    && var s := BeforePipes(After(cfg, run), x);
       s.modes.eventMon && s.emt == emt && s.msg.mat == mat
  }

  /** Every queued event is one of these. */
  predicate Drawn(q: seq<EventMsg>, from: EventMsg -> bool) {
    forall k | 0 <= k < |q| :: from(q[k])
  }

  /** The loop ends in every run, whatever is queued of these events and whatever the environment answers. */
  ghost predicate AlwaysEnds(cfg: Config, emt: seq<EmtEntry>, mat: seq<MatEntry>, from: EventMsg -> bool) {
    forall run, x, q, script: Script | EntersLoop(cfg, run, x, emt, mat) && ScriptFits(cfg, script) && Drawn(q, from) ::
      Ends(BeforePipes(After(cfg, run), x), q, script)
  }

  /** A run and a cycle that enter the loop with the given tables, at the reset limit and nothing cooling down. */
  lemma AdverseRun(cfg: Config, emt: seq<EmtEntry>, mat: seq<MatEntry>) returns (run: Run, x: CycleIn)
    requires ValidConfig(cfg) && |emt| == cfg.events && |mat| == cfg.msgActs
    ensures EntersLoop(cfg, run, x, emt, mat)
    ensures var s := BeforePipes(After(cfg, run), x);
            Adverse(s) && Fresh(s) && TablesOf(s) == Tables(cfg.appName, emt, mat)
  {
    hide After, BeforePipes, Possible, Up;
    SealedConsistent(0, 0);
    var c := Witnesses.Core(emt, mat, Sealed(0, 0), true, Bus(true, true));
    Witnesses.EnabledRun(cfg, Sealed(0, 0), emt, mat);
    run := Witnesses.Enabled(cfg, Sealed(0, 0), emt, mat);
    Witnesses.CommandedRun(cfg, run, [], c);
    x := Witnesses.Commanded(cfg, []);
  }

  /** An event that is not safe keeps the loop of a reachable cycle going for ever. */
  lemma UnsafeNeverEnds(cfg: Config, emt: seq<EmtEntry>, mat: seq<MatEntry>, ev: EventMsg, from: EventMsg -> bool)
    requires ValidConfig(cfg) && |emt| == cfg.events && |mat| == cfg.msgActs
    requires from(ev) && !Safe(Tables(cfg.appName, emt, mat), ev)
    ensures !AlwaysEnds(cfg, emt, mat, from)
  {
    hide Doors, Handle, HandleQueue, After, BeforePipes, Possible, Up, Confined, SameMarks, SameTables, Adverse, Fresh,
         Remaining, MayCauseSome;
    var run, x := AdverseRun(cfg, emt, mat);
    var s := BeforePipes(After(cfg, run), x);
    AdverseWF(s);
    var q, xs := [ev], Copies(cfg.events, FAILING);
    var script: Script := _ => xs;
    assert Uniform(xs) && Constant(script, xs) && q[0] == ev;
    CauseEndless(s, q, script, xs, 7);
    assert !Ends(s, q, script);
    assert Drawn(q, from);
  }

  /** The drain of a cycle ends in every run, for every queue of such events and all answers of the environment, exactly
      when each of them is safe. */
  lemma EndsExactlyWhenSafe(cfg: Config, emt: seq<EmtEntry>, mat: seq<MatEntry>, from: EventMsg -> bool)
    requires ValidConfig(cfg) && |emt| == cfg.events && |mat| == cfg.msgActs
    ensures AlwaysEnds(cfg, emt, mat, from) <==> forall ev | from(ev) :: Safe(Tables(cfg.appName, emt, mat), ev)
  {
    hide Safe, After, BeforePipes, Possible, Up, Remaining, Confined, SameMarks, SameTables;
    var t := Tables(cfg.appName, emt, mat);
    if forall ev | from(ev) :: Safe(t, ev) {
      forall run, x, q, script: Script | EntersLoop(cfg, run, x, emt, mat) && ScriptFits(cfg, script) && Drawn(q, from)
        ensures Ends(BeforePipes(After(cfg, run), x), q, script)
      {
        assert TablesOf(BeforePipes(After(cfg, run), x)) == t;
        var n := Finishes(BeforePipes(After(cfg, run), x), q, script, 0);
      }
    } else {
      var ev :| from(ev) && !Safe(t, ev);
      UnsafeNeverEnds(cfg, emt, mat, ev, from);
    }
  }

  /** What the pipe can hold when the loop begins: events of others and those of HS that the event monitor does not
      send, or not alone. Its own ones were all drained by the loop that sent them. */
  predicate Outside(app: string, ev: EventMsg) {
    ev.app != app || ev.id !in OWN || ev.id == RESET_LIMIT_ERR_EID
  }

  /** No entry that such an event can match may send an event that leads to a chain of seven. */
  predicate Sheltered(t: Tables) {
    forall i, f: uint16 | 0 <= i < |t.emt| && t.emt[i].action != ACT_NOACT
                          && Outside(t.app, EventMsg(t.emt[i].name, t.emt[i].eventId)) && f in Doors(t, 7) ::
      !MaySend(t.mat, t.emt[i], f)
  }

  /** So the drain ends in every run, for all that can be on the pipe, exactly when the tables are sheltered. */
  lemma DrainEndsIff(cfg: Config, emt: seq<EmtEntry>, mat: seq<MatEntry>)
    requires ValidConfig(cfg) && |emt| == cfg.events && |mat| == cfg.msgActs
    ensures AlwaysEnds(cfg, emt, mat, ev => Outside(cfg.appName, ev)) <==> Sheltered(Tables(cfg.appName, emt, mat))
  {
    hide AlwaysEnds, Doors, MaySend, Outside;
    var t := Tables(cfg.appName, emt, mat);
    var from := ev => Outside(cfg.appName, ev);
    EndsExactlyWhenSafe(cfg, emt, mat, from);
    if Sheltered(t) {
      forall ev, i, f: uint16 | from(ev) && 0 <= i < |emt| && Matches(emt[i], ev) && f in Doors(t, 7)
        ensures !MaySend(mat, emt[i], f)
      {
        assert ev == EventMsg(emt[i].name, emt[i].eventId);
      }
    } else {
      var i, f: uint16 :| 0 <= i < |emt| && emt[i].action != ACT_NOACT
                          && Outside(t.app, EventMsg(emt[i].name, emt[i].eventId)) && f in Doors(t, 7)
                          && MaySend(mat, emt[i], f);
      var ev := EventMsg(emt[i].name, emt[i].eventId);
      assert Matches(emt[i], ev) && MayCause(t, ev, f);
      assert from(ev) && !Safe(t, ev);
    }
  }

  /** If the event monitor's own events may be on the pipe too, from another sender, the tables must hold no chain
      of seven. */
  lemma AnyQueueEndsIff(cfg: Config, emt: seq<EmtEntry>, mat: seq<MatEntry>)
    requires ValidConfig(cfg) && |emt| == cfg.events && |mat| == cfg.msgActs
    ensures AlwaysEnds(cfg, emt, mat, _ => true) <==> Chainless(Tables(cfg.appName, emt, mat))
  {
    hide AlwaysEnds, Doors, Chains, Safe;
    var t := Tables(cfg.appName, emt, mat);
    EndsExactlyWhenSafe(cfg, emt, mat, _ => true);
    if Chainless(t) {
      forall ev: EventMsg ensures Safe(t, ev) {
        ChainlessSafe(t, ev);
      }
    } else {
      var a :| a in Chains(t, 7);
      DoorsHoldChains(t, 7);
      DoorNotSafe(t, a);
      assert !Safe(t, EventMsg(t.app, a));
    }
  }

  lemma ChainlessSafe(t: Tables, ev: EventMsg)
    requires Chainless(t)
    ensures Safe(t, ev)
  {
    hide Chains, MayCause, Doors;
    DoorsAreChains(t, 7);
  }

  /** In particular it ends when no event table entry names HS itself. */
  lemma NoSelfEntriesChainless(t: Tables)
    requires forall i | 0 <= i < |t.emt| :: t.emt[i].action == ACT_NOACT || t.emt[i].name != t.app
    ensures Chainless(t)
  {
    hide Sends;
    assert Chains(t, 1) == {};
    ChainsStable(t, 1, 7);
  }

  /** An entry that asks for a restart of HS on HS's own restart event: as long as these restarts are reported
      and fail, each report asks for the next. */
  lemma RestartOnRestartChains(t: Tables, e: EmtEntry)
    requires e in t.emt && e.name == t.app && e.eventId == EVENTMON_RESTART_ERR_EID && e.action == ACT_APP_RESTART
    ensures EVENTMON_RESTART_ERR_EID in Chains(t, 7)
  {
    hide Chains;
    var i :| 0 <= i < |t.emt| && t.emt[i] == e;
    var id := EVENTMON_RESTART_ERR_EID;
    assert Matches(t.emt[i], EventMsg(t.app, id)) && Sends(t.mat, t.emt[i], id);
    assert Causes(t, EVENTMON_RESTART_ERR_EID, EVENTMON_RESTART_ERR_EID);
    SelfCauseChains(t, EVENTMON_RESTART_ERR_EID, 7);
  }

  /** Any other event that asks for a restart, of whatever application, sets it going. */
  lemma RestartSetsGoing(t: Tables, e: EmtEntry, d: EmtEntry)
    requires e in t.emt && e.name == t.app && e.eventId == EVENTMON_RESTART_ERR_EID && e.action == ACT_APP_RESTART
    requires d in t.emt && d.action == ACT_APP_RESTART && Outside(t.app, EventMsg(d.name, d.eventId))
    ensures !Sheltered(t)
  {
    hide Chains, Doors;
    RestartOnRestartChains(t, e);
    DoorsHoldChains(t, 7);
    var i :| 0 <= i < |t.emt| && t.emt[i] == d;
    assert MaySend(t.mat, t.emt[i], EVENTMON_RESTART_ERR_EID);
  }

  lemma {:induction false} SelfCauseChains(t: Tables, a: uint16, k: nat)
    requires a in OWN && Causes(t, a, a)
    ensures a in Chains(t, k)
  {
    if k > 0 {
      SelfCauseChains(t, a, k - 1);
    }
  }
}
