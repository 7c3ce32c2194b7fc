/** The reset record across reboots. */
module CdsRuns {
  import opened HsTypes
  import opened CriticalData
  import opened HsState
  import opened HsSteps
  import opened ResetRuns

  /** Start-up takes the stored pair over, silently, exactly when it is there, can be read and passes the
      check; otherwise memory, and the store if it is in use, hold (0, HS_MAX_RESTART_ACTIONS). */
  lemma RecordAfterStartUp(s: State, status: CdsStatus)
    requires WF(s) && s.rst.cdsInUse
    ensures var r := CdsPhase(s, status);
            && Consistent(r.rst.cds)
            && r.rst.cdsInUse == !status.Refused?
            && if status == AlreadyExists(true) && Consistent(s.rst.store) then
                 r.rst.cds == r.rst.store == s.rst.store && r.log == Then(s.log, RestoreCds)
               else
                 && r.rst.cds == Sealed(0, s.cfg.maxRestarts)
                 && r.rst.store == if status.Refused? then s.rst.store else r.rst.cds
  {
    hide Do, Emit, InitCds, Confined, SameMarks, SameTables, Acted;
    match status
    case AlreadyExists(true) =>
      DoReset(s, RestoreCds);
      var s1 := Do(s, RestoreCds);
      EmitReset(s1, CDS_CORRUPT_ERR_EID);
      InitReset(Emit(s1, CDS_CORRUPT_ERR_EID));
    case AlreadyExists(false) =>
      EmitReset(s, CDS_RESTORE_ERR_EID);
      InitReset(Emit(s, CDS_RESTORE_ERR_EID));
    case Created =>
      InitReset(s);
    case Refused =>
      DoReset(s, CdsOff);
      InitReset(Do(s, CdsOff));
  }

  lemma InitReset(s: State)
    requires WF(s)
    ensures var r, c := InitCds(s).rst, Sealed(0, s.cfg.maxRestarts);
            r == s.rst.(cds := c, store := if s.rst.cdsInUse then c else s.rst.store)
  {
    hide Do;
    DoReset(s, SetCds(Initialised, 0, s.cfg.maxRestarts));
  }

  lemma EmitReset(s: State, eid: uint16)
    requires WF(s)
    ensures Emit(s, eid).rst == s.rst
  {
  }

  /** A stored pair, hit by any bit errors while HS is down, comes back with the next boot exactly when each
      value was hit in the same bits as its inverse word. Without errors it comes back unchanged. */
  lemma StoreRestoreRoundTrip(s: State, why: CdsReason, resets: uint16, max: uint16, error: Cds)
    requires WF(s) && s.rst.cdsInUse
    ensures var kept := FlipRecord(Sealed(resets, max), error);
            var down := Do(Do(s, SetCds(why, resets, max)), CdsUpset(kept));
            var r := CdsPhase(Do(down, Boot), AlreadyExists(true)).rst;
            && r.cds == r.store == (if error.resets == error.resetsNot && error.max == error.maxNot
                                    then kept else Sealed(0, s.cfg.maxRestarts))
            && (error == Cds(0, 0, 0, 0) ==> kept == Sealed(resets, max))
  {
    hide Do;
    var kept := FlipRecord(Sealed(resets, max), error);
    var s1 := Do(s, SetCds(why, resets, max));
    DoReset(s, SetCds(why, resets, max));
    DoReset(s1, CdsUpset(kept));
    var down := Do(s1, CdsUpset(kept));
    DoReset(down, Boot);
    RecordAfterStartUp(Do(down, Boot), AlreadyExists(true));
    DetectsErrors(resets, max, error);
    NoFlip(resets);
    NoFlip(max);
    NoFlip(Not(resets));
    NoFlip(Not(max));
  }

  /** After every start-up that could register the store, memory and store are in step, as NoResetLoop asks. */
  lemma InStepAfterStartUp(s: State, x: InitIn)
    requires WF(s) && AcquireFits(s.cfg, x.acquire) && !x.cds.Refused?
    ensures InStep(StartUp(s, x).rst)
  {
    hide Do, CdsPhase, TablePhase, Emit, Subscribed;
    DoReset(s, Boot);
    RecordAfterStartUp(Do(s, Boot), x.cds);
  }
}
