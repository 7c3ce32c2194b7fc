/** Table validation and what accepted tables mean. */
module Validation {
  import opened HsTypes
  import opened HsState
  import AppMonitor
  import AppMonitorRuns

  const NO_ERR: int32 := 0
  const TBL_VAL_ERR: int32 := -1
  const ACTVAL_ERR_ACT: int32 := -1
  const ACTVAL_ERR_NUL: int32 := -2
  const XCTVAL_ERR_TYPE: int32 := -1
  const XCTVAL_ERR_NUL: int32 := -2
  const MATVAL_ERR_ID: int32 := -1
  const MATVAL_ERR_LEN: int32 := -2
  const MATVAL_ERR_ENA: int32 := -3

  const XCT_TYPE_NOTYPE: uint16 := 0
  const XCT_TYPE_APP_MAIN: uint16 := 1
  const XCT_TYPE_APP_CHILD: uint16 := 2
  const XCT_TYPE_DEVICE: uint16 := 3
  const XCT_TYPE_ISR: uint16 := 4

  // ---------- What each entry should be judged ----------

  datatype Kind = Good | Unused | Bad(error: int32)

  /** A built-in action or an index into the message table, the subtraction not going below 0. */
  predicate Dispatches(cfg: Config, action: uint16) {
    ACT_PROC_RESET <= action <= ACT_LAST_NONMSG || 0 <= action - ACT_LAST_NONMSG - 1 < cfg.msgActs
  }

  function AmtKind(cfg: Config, e: AmtEntry): Kind {
    if !AppMonitor.Active(e) then Unused
    else if e.nullTerm != 0 then Bad(ACTVAL_ERR_NUL)
    else if !Dispatches(cfg, e.action) then Bad(ACTVAL_ERR_ACT)
    else Good
  }

  function EmtKind(cfg: Config, e: EmtEntry): Kind {
    if e.eventId == 0 || e.action == ACT_NOACT then Unused
    else if e.nullTerm != 0 then Bad(ACTVAL_ERR_NUL)
    else if !Dispatches(cfg, e.action) then Bad(ACTVAL_ERR_ACT)
    else Good
  }

  /** The resource type is judged by its low 16 bits. */
  function XctKind(e: XctEntry): Kind {
    var low := e.resourceType % U16;
    if low == XCT_TYPE_NOTYPE then Unused
    else if e.nullTerm != 0 then Bad(XCTVAL_ERR_NUL)
    else if low > XCT_TYPE_ISR then Bad(XCTVAL_ERR_TYPE)
    else Good
  }

  function MatKind(e: MatEntry, maxSize: nat): Kind {
    if e.enable == MAT_STATE_DISABLED then Unused
    else if e.enable > MAT_STATE_NOEVENT then Bad(MATVAL_ERR_ENA)
    else if !e.idValid then Bad(MATVAL_ERR_ID)
    else if e.size > maxSize then Bad(MATVAL_ERR_LEN)
    else Good
  }

  function AmtKinds(cfg: Config, t: seq<AmtEntry>): seq<Kind> {
    seq(|t|, i requires 0 <= i < |t| => AmtKind(cfg, t[i]))
  }

  function EmtKinds(cfg: Config, t: seq<EmtEntry>): seq<Kind> {
    seq(|t|, i requires 0 <= i < |t| => EmtKind(cfg, t[i]))
  }

  function XctKinds(t: seq<XctEntry>): seq<Kind> {
    seq(|t|, i requires 0 <= i < |t| => XctKind(t[i]))
  }

  function MatKinds(t: seq<MatEntry>, maxSize: nat): seq<Kind> {
    seq(|t|, i requires 0 <= i < |t| => MatKind(t[i], maxSize))
  }

  // ---------- What a validator reports ----------

  /** The totals of the informational event; together they are the table size. */
  datatype Totals = Totals(good: nat, bad: nat, unused: nat)

  function TotalsOf(kinds: seq<Kind>): (t: Totals)
    ensures t.good + t.bad + t.unused == |kinds|
  {
    if kinds == [] then Totals(0, 0, 0)
    else Added(TotalsOf(kinds[..|kinds| - 1]), kinds[|kinds| - 1])
  }

  predicate AllFine(kinds: seq<Kind>) {
    forall i | 0 <= i < |kinds| :: !kinds[i].Bad?
  }

  /** Success exactly when no entry is bad; otherwise the error of the first bad one. */
  predicate Reports(kinds: seq<Kind>, result: int32) {
    && (result == NO_ERR <==> AllFine(kinds))
    && (result != NO_ERR ==>
          exists i | 0 <= i < |kinds| :: kinds[i] == Bad(result) && AllFine(kinds[..i]))
  }

  /** What is known once the first n entries have been judged. */
  predicate Scanned(kinds: seq<Kind>, n: nat, result: int32, totals: Totals)
    requires n <= |kinds|
  {
    Reports(kinds[..n], result) && TotalsOf(kinds[..n]) == totals
  }

  function Added(t: Totals, k: Kind): Totals {
    match k
    case Good => t.(good := t.good + 1)
    case Bad(_) => t.(bad := t.bad + 1)
    case Unused => t.(unused := t.unused + 1)
  }

  /** One more entry: it decides the result only if nothing before it was bad. */
  lemma ScanStep(kinds: seq<Kind>, n: nat, result: int32, t: Totals)
    requires n < |kinds| && Scanned(kinds, n, result, t)
    requires kinds[n].Bad? ==> kinds[n].error != NO_ERR
    ensures t.good + t.bad + t.unused == n
    ensures Scanned(kinds, n + 1, if result == NO_ERR && kinds[n].Bad? then kinds[n].error else result,
                    Added(t, kinds[n]))
  {
    var a, b := kinds[..n], kinds[..n + 1];
    assert b[..n] == a && b[n] == kinds[n];
    if result != NO_ERR {
      var i :| 0 <= i < |a| && a[i] == Bad(result) && AllFine(a[..i]);
      assert b[i] == Bad(result) && b[..i] == a[..i];
    } else if kinds[n].Bad? {
      assert b[n] == kinds[n] && AllFine(b[..n]);
    }
  }

  lemma ScanNone(kinds: seq<Kind>)
    ensures Scanned(kinds, 0, NO_ERR, Totals(0, 0, 0))
  {
  }

  lemma ScanDone(kinds: seq<Kind>, result: int32, t: Totals)
    requires Scanned(kinds, |kinds|, result, t)
    ensures Reports(kinds, result) && TotalsOf(kinds) == t
  {
    assert kinds[..|kinds|] == kinds;
  }

  // ---------- The validators ----------

  /** HS_AMTActionIsValid and HS_EMTActionIsValid; both tables number their built-in actions alike. */
  predicate ActionIsValid(cfg: Config, action: uint16) {
    if action < ACT_NOACT then false
    else if action > ACT_LAST_NONMSG + cfg.msgActs then false
    else true
  }

  lemma ValidActions(cfg: Config, action: uint16)
    ensures ActionIsValid(cfg, action) <==> action == ACT_NOACT || Dispatches(cfg, action)
  {
  }

  method ValidateAMTable(cfg: Config, table: Option<seq<AmtEntry>>) returns (result: int32, totals: Option<Totals>)
    requires ValidConfig(cfg) && (table.Some? ==> |table.value| == cfg.apps)
    ensures table.None? ==> result == TBL_VAL_ERR && totals == None
    ensures table.Some? ==> Reports(AmtKinds(cfg, table.value), result)
                            && totals == Some(TotalsOf(AmtKinds(cfg, table.value)))
  {
    if table.None? {
      return TBL_VAL_ERR, None;
    }
    hide Reports, TotalsOf, Scanned;
    ghost var kinds := AmtKinds(cfg, table.value);
    var good: uint32, bad: uint32, unused: uint32 := 0, 0, 0;
    result := NO_ERR;
    ScanNone(kinds);
    for i := 0 to cfg.apps
      invariant Scanned(kinds, i, result, Totals(good, bad, unused))
    {
      var e := table.value[i];
      var entryResult := NO_ERR;
      ScanStep(kinds, i, result, Totals(good, bad, unused));
      if e.cycleCount == 0 || e.action == ACT_NOACT {
        unused := unused + 1;
      } else if e.nullTerm != 0 {
        entryResult := ACTVAL_ERR_NUL;
        bad := bad + 1;
      } else if !ActionIsValid(cfg, e.action) {
        entryResult := ACTVAL_ERR_ACT;
        bad := bad + 1;
      } else {
        good := good + 1;
      }
      if entryResult != NO_ERR && result == NO_ERR {
        result := entryResult;
      }
    }
    ScanDone(kinds, result, Totals(good, bad, unused));
    totals := Some(Totals(good, bad, unused));
  }

  method ValidateEMTable(cfg: Config, table: Option<seq<EmtEntry>>) returns (result: int32, totals: Option<Totals>)
    requires ValidConfig(cfg) && (table.Some? ==> |table.value| == cfg.events)
    ensures table.None? ==> result == TBL_VAL_ERR && totals == None
    ensures table.Some? ==> Reports(EmtKinds(cfg, table.value), result)
                            && totals == Some(TotalsOf(EmtKinds(cfg, table.value)))
  {
    if table.None? {
      return TBL_VAL_ERR, None;
    }
    hide Reports, TotalsOf, Scanned;
    ghost var kinds := EmtKinds(cfg, table.value);
    var good: uint32, bad: uint32, unused: uint32 := 0, 0, 0;
    result := NO_ERR;
    ScanNone(kinds);
    for i := 0 to cfg.events
      invariant Scanned(kinds, i, result, Totals(good, bad, unused))
    {
      var e := table.value[i];
      var entryResult := NO_ERR;
      ScanStep(kinds, i, result, Totals(good, bad, unused));
      if e.eventId == 0 || e.action == ACT_NOACT {
        unused := unused + 1;
      } else if e.nullTerm != 0 {
        entryResult := ACTVAL_ERR_NUL;
        bad := bad + 1;
      } else if !ActionIsValid(cfg, e.action) {
        entryResult := ACTVAL_ERR_ACT;
        bad := bad + 1;
      } else {
        good := good + 1;
      }
      if entryResult != NO_ERR && result == NO_ERR {
        result := entryResult;
      }
    }
    ScanDone(kinds, result, Totals(good, bad, unused));
    totals := Some(Totals(good, bad, unused));
  }

  method ValidateXCTable(table: Option<seq<XctEntry>>) returns (result: int32, totals: Option<Totals>)
    requires table.Some? ==> |table.value| < U32
    ensures table.None? ==> result == TBL_VAL_ERR && totals == None
    ensures table.Some? ==> Reports(XctKinds(table.value), result)
                            && totals == Some(TotalsOf(XctKinds(table.value)))
  {
    if table.None? {
      return TBL_VAL_ERR, None;
    }
    hide Reports, TotalsOf, Scanned;
    ghost var kinds := XctKinds(table.value);
    var good: uint32, bad: uint32, unused: uint32 := 0, 0, 0;
    result := NO_ERR;
    ScanNone(kinds);
    for i := 0 to |table.value|
      invariant Scanned(kinds, i, result, Totals(good, bad, unused))
    {
      var e := table.value[i];
      var resourceType: uint16 := e.resourceType % U16;
      var entryResult := NO_ERR;
      ScanStep(kinds, i, result, Totals(good, bad, unused));
      if resourceType == XCT_TYPE_NOTYPE {
        unused := unused + 1;
      } else if e.nullTerm != 0 {
        entryResult := XCTVAL_ERR_NUL;
        bad := bad + 1;
      } else if resourceType != XCT_TYPE_APP_MAIN && resourceType != XCT_TYPE_APP_CHILD
                && resourceType != XCT_TYPE_DEVICE && resourceType != XCT_TYPE_ISR {
        entryResult := XCTVAL_ERR_TYPE;
        bad := bad + 1;
      } else {
        good := good + 1;
      }
      if entryResult != NO_ERR && result == NO_ERR {
        result := entryResult;
      }
    }
    ScanDone(kinds, result, Totals(good, bad, unused));
    totals := Some(Totals(good, bad, unused));
  }

  method ValidateMATable(cfg: Config, maxSize: nat, table: Option<seq<MatEntry>>)
    returns (result: int32, totals: Option<Totals>)
    requires ValidConfig(cfg) && (table.Some? ==> |table.value| == cfg.msgActs)
    ensures table.None? ==> result == TBL_VAL_ERR && totals == None
    ensures table.Some? ==> Reports(MatKinds(table.value, maxSize), result)
                            && totals == Some(TotalsOf(MatKinds(table.value, maxSize)))
  {
    if table.None? {
      return TBL_VAL_ERR, None;
    }
    hide Reports, TotalsOf, Scanned;
    ghost var kinds := MatKinds(table.value, maxSize);
    var good: uint32, bad: uint32, unused: uint32 := 0, 0, 0;
    result := NO_ERR;
    ScanNone(kinds);
    for i := 0 to cfg.msgActs
      invariant Scanned(kinds, i, result, Totals(good, bad, unused))
    {
      var e := table.value[i];
      var entryResult := NO_ERR;
      ScanStep(kinds, i, result, Totals(good, bad, unused));
      if e.enable == MAT_STATE_DISABLED {
        unused := unused + 1;
      } else if e.enable != MAT_STATE_ENABLED && e.enable != MAT_STATE_NOEVENT {
        entryResult := MATVAL_ERR_ENA;
        bad := bad + 1;
      } else if !e.idValid {
        entryResult := MATVAL_ERR_ID;
        bad := bad + 1;
      } else if e.size > maxSize {
        entryResult := MATVAL_ERR_LEN;
        bad := bad + 1;
      } else {
        good := good + 1;
      }
      if entryResult != NO_ERR && result == NO_ERR {
        result := entryResult;
      }
    }
    ScanDone(kinds, result, Totals(good, bad, unused));
    totals := Some(Totals(good, bad, unused));
  }

  // ---------- Accepted tables make dispatch total ----------

  /** With an accepted application table, every look at an entry, and so every action it can lead to, is at an
      entry with a built-in action or an index into the message table. */
  lemma AcceptedAmtDispatches(cfg: Config, t: Trace)
    requires Lawful(cfg, t) && t.Then? && t.op.Saw?
    requires Reports(AmtKinds(cfg, Replay(cfg, t.before).app.amt), NO_ERR)
    ensures t.op.entry < cfg.apps && Dispatches(cfg, Replay(cfg, t.before).app.amt[t.op.entry].action)
  {
    hide Do;
    var s, i := Replay(cfg, t.before), t.op.entry;
    AppMonitorRuns.BitmapInvariant(cfg, t.before);
    assert AppMonitor.Active(s.app.amt[i]);
    assert AmtKinds(cfg, s.app.amt)[i] == AmtKind(cfg, s.app.amt[i]);
  }

  /** With an accepted event table the same holds of every entry that acts on an event whose ID is not 0. */
  lemma AcceptedEmtDispatches(cfg: Config, t: Trace)
    requires Lawful(cfg, t) && t.Then? && t.op.Attempt? && t.op.event.id != 0
    requires Reports(EmtKinds(cfg, Replay(cfg, t.before).emt), NO_ERR)
    ensures t.op.entry < cfg.events && Dispatches(cfg, Replay(cfg, t.before).emt[t.op.entry].action)
  {
    hide Do;
    var s, i := Replay(cfg, t.before), t.op.entry;
    assert EmtKinds(cfg, s.emt)[i] == EmtKind(cfg, s.emt[i]);
  }

  /** Entries with event ID 0 are counted as unused but still match. All entries of an accepted table that can
      match an event have a known action exactly when its ID-0 entries have. */
  lemma EmtDispatchesIff(cfg: Config, t: seq<EmtEntry>)
    requires Reports(EmtKinds(cfg, t), NO_ERR)
    ensures (forall i, ev | 0 <= i < |t| && Matches(t[i], ev) :: Dispatches(cfg, t[i].action))
            <==> (forall i | 0 <= i < |t| && t[i].eventId == 0 && t[i].action != ACT_NOACT ::
                    Dispatches(cfg, t[i].action))
  {
    forall i | 0 <= i < |t| && t[i].eventId != 0 && t[i].action != ACT_NOACT ensures Dispatches(cfg, t[i].action) {
      assert EmtKinds(cfg, t)[i] == EmtKind(cfg, t[i]);
    }
    forall i | 0 <= i < |t| && t[i].action != ACT_NOACT
      ensures Matches(t[i], EventMsg(t[i].name, t[i].eventId))
    {
    }
  }

  /** An accepted table with an ID-0 entry whose action is nothing HS knows. */
  lemma EventIdZeroSlips(cfg: Config, app: string)
    requires ValidConfig(cfg)
    ensures var e := EmtEntry(app, 0, 0, 0xFFFF);
            && Reports(EmtKinds(cfg, Copies(cfg.events, e)), NO_ERR)
            && Matches(e, EventMsg(app, 0)) && !Dispatches(cfg, e.action)
  {
  }

  /** Types are judged by their low 16 bits. All entries of an accepted table are unused or of one of the four
      types exactly when no type has a bit above those. */
  lemma XctTypesIff(t: seq<XctEntry>)
    requires Reports(XctKinds(t), NO_ERR)
    ensures (forall i | 0 <= i < |t| :: t[i].resourceType <= XCT_TYPE_ISR)
            <==> (forall i | 0 <= i < |t| :: t[i].resourceType < U16)
  {
    forall i | 0 <= i < |t| && t[i].resourceType < U16 ensures t[i].resourceType <= XCT_TYPE_ISR {
      assert XctKinds(t)[i] == XctKind(t[i]);
    }
  }

  /** A type above 16 bits can pass as good or as unused. */
  lemma NarrowedTypeSlips()
    ensures var e := XctEntry(0, 0x1_0001); XctKind(e) == Good && e.resourceType > XCT_TYPE_ISR
    ensures var e := XctEntry(0, 0x1_0000); XctKind(e) == Unused && e.resourceType > XCT_TYPE_ISR
  {
  }

  /** With an accepted message table every message sent has a valid ID and fits the software bus. */
  lemma AcceptedMatSends(cfg: Config, t: Trace, maxSize: nat)
    requires Lawful(cfg, t) && t.Then? && t.op.Transmit?
    requires Reports(MatKinds(Replay(cfg, t.before).msg.mat, maxSize), NO_ERR)
    ensures t.op.index < cfg.msgActs
    ensures var e := Replay(cfg, t.before).msg.mat[t.op.index];
            e.idValid && e.size <= maxSize && (e.enable == MAT_STATE_ENABLED || e.enable == MAT_STATE_NOEVENT)
  {
    hide Do;
    var s, i := Replay(cfg, t.before), t.op.index;
    assert MatKinds(s.msg.mat, maxSize)[i] == MatKind(s.msg.mat[i], maxSize);
  }
}
