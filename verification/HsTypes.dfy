/** Integer widths, configuration, tables, and the messages the environment delivers to HS. */
module HsTypes {

  const U8 := 0x100
  const U16 := 0x1_0000
  const U32 := 0x1_0000_0000

  type uint8 = x: int | 0 <= x < 0x100
  type uint16 = x: int | 0 <= x < 0x1_0000
  type uint32 = x: int | 0 <= x < 0x1_0000_0000
  type int32 = x: int | -0x8000_0000 <= x < 0x8000_0000

  function Bump8(x: uint8): uint8 {
    (x + 1) % U8
  }

  function Bump32(x: uint32): uint32 {
    (x + 1) % U32
  }

  datatype Option<T> = None | Some(value: T)

  function Copies<T>(n: nat, x: T): (s: seq<T>)
    ensures |s| == n && forall i | 0 <= i < n :: s[i] == x
  {
    seq(n, _ => x)
  }

  /** Platform configuration. Every proof is for all values inside the bounds of hs_verify.h. */
  datatype Config = Config(
    appName: string,
    apps: nat,
    events: nat,
    msgActs: nat,
    peakN: nat,
    avgN: nat,
    utilMax: nat,
    hogLimit: nat,
    hogTimeout: nat,
    interval: nat,
    alivePeriod: nat,
    maxRestarts: uint16,
    appMonDefault: bool,
    eventMonDefault: bool,
    aliveDefault: bool,
    hogDefault: bool,
    cmdLength: nat,
    setMaxLength: nat,
    hkLength: nat)

  predicate ValidConfig(c: Config) {
    && 1 <= c.apps < U32
    && 1 <= c.events < U32
    && 1 <= c.msgActs <= 65531
    && 1 <= c.avgN <= c.peakN < U32
    && 1 <= c.utilMax < U32
    && 1 <= c.hogLimit <= c.utilMax
    && 1 <= c.hogTimeout < U32
    && c.interval < U32
    && 1 <= c.alivePeriod < U32
  }

  // Action types shared by the application and event monitor tables.
  const ACT_NOACT: uint16 := 0
  const ACT_PROC_RESET: uint16 := 1
  const ACT_APP_RESTART: uint16 := 2
  const AMT_ACT_EVENT: uint16 := 3
  const EMT_ACT_APP_DELETE: uint16 := 3
  const ACT_LAST_NONMSG: uint16 := 3

  const MAT_STATE_DISABLED: uint16 := 0
  const MAT_STATE_ENABLED: uint16 := 1
  const MAT_STATE_NOEVENT: uint16 := 2

  datatype AmtEntry = AmtEntry(name: string, nullTerm: uint16, cycleCount: uint16, action: uint16)
  datatype EmtEntry = EmtEntry(name: string, nullTerm: uint16, eventId: uint16, action: uint16)
  datatype XctEntry = XctEntry(nullTerm: uint32, resourceType: uint32)

  /** `idValid` and `size` are what cFE reports about the stored message. */
  datatype MatEntry = MatEntry(enable: uint16, cooldown: uint16, idValid: bool, size: nat)

  /** Outcome of CFE_TBL_GetAddress: an error, success, or CFE_TBL_INFO_UPDATED with new contents. */
  datatype TableGet<T> = Failed | Same | Updated(table: seq<T>)

  datatype Table = AppMonTable | EventMonTable | MsgActsTable | ExeCountTable

  /** What one look at a monitored application finds. */
  datatype Sighting = Unresolved | NoInfo | Seen(count: uint32)

  datatype AppInput = AppInput(sight: Sighting, restartOk: bool)

  /** Answers to the name lookup and the restart or delete call of one event table entry. */
  datatype EntryInput = EntryInput(resolved: bool, callOk: bool)

  datatype EventMsg = EventMsg(app: string, id: uint16)

  /** One receive on the event pipe that returned CFE_SUCCESS. */
  datatype EventDelivery = NullEvent | GotEvent(event: EventMsg, inputs: seq<EntryInput>)

  datatype MsgKind = HkRequest | Command | Unknown

  datatype CmdMsg = CmdMsg(kind: MsgKind, code: uint16, length: nat, maxResets: uint16)

  /** One receive on the command pipe; `long` and `short` answer the (un)subscribe calls it may cause. */
  datatype CmdDelivery = NullCmd | GotCmd(msg: CmdMsg, long: bool, short: bool)

  /** How a polled pipe stopped delivering: CFE_SB_NO_MESSAGE, or any other status. */
  datatype PipeEnd = NoMessage | Broken

  const CC_NOOP: uint16 := 0
  const CC_RESET: uint16 := 1
  const CC_ENABLE_APP_MON: uint16 := 2
  const CC_DISABLE_APP_MON: uint16 := 3
  const CC_ENABLE_EVENT_MON: uint16 := 4
  const CC_DISABLE_EVENT_MON: uint16 := 5
  const CC_ENABLE_ALIVENESS: uint16 := 6
  const CC_DISABLE_ALIVENESS: uint16 := 7
  const CC_RESET_RESETS_PERFORMED: uint16 := 8
  const CC_SET_MAX_RESETS: uint16 := 9
  const CC_ENABLE_CPU_HOG: uint16 := 10
  const CC_DISABLE_CPU_HOG: uint16 := 11

  // Event IDs of the HS application (hs_eventids.h).
  const INIT_INF_EID: uint16 := 1
  const CDS_RESTORE_ERR_EID: uint16 := 3
  const CR_PIPE_ERR_EID: uint16 := 4
  const CR_EVENT_PIPE_ERR_EID: uint16 := 5
  const CR_WAKEUP_PIPE_ERR_EID: uint16 := 6
  const SUB_LONG_EVS_ERR_EID: uint16 := 7
  const SUB_REQ_ERR_EID: uint16 := 8
  const SUB_CMD_ERR_EID: uint16 := 9
  const AMT_REG_ERR_EID: uint16 := 10
  const EMT_REG_ERR_EID: uint16 := 11
  const XCT_REG_ERR_EID: uint16 := 12
  const MAT_REG_ERR_EID: uint16 := 13
  const AMT_LD_ERR_EID: uint16 := 14
  const EMT_LD_ERR_EID: uint16 := 15
  const XCT_LD_ERR_EID: uint16 := 16
  const MAT_LD_ERR_EID: uint16 := 17
  const CDS_CORRUPT_ERR_EID: uint16 := 18
  const CC_ERR_EID: uint16 := 19
  const MID_ERR_EID: uint16 := 20
  const HKREQ_LEN_ERR_EID: uint16 := 21
  const CMD_LEN_ERR_EID: uint16 := 22
  const NOOP_INF_EID: uint16 := 23
  const RESET_INF_EID: uint16 := 24
  const ENABLE_APPMON_DBG_EID: uint16 := 25
  const DISABLE_APPMON_DBG_EID: uint16 := 26
  const ENABLE_EVENTMON_DBG_EID: uint16 := 27
  const DISABLE_EVENTMON_DBG_EID: uint16 := 28
  const ENABLE_ALIVENESS_DBG_EID: uint16 := 29
  const DISABLE_ALIVENESS_DBG_EID: uint16 := 30
  const RESET_RESETS_DBG_EID: uint16 := 31
  const SET_MAX_RESETS_DBG_EID: uint16 := 32
  const APPMON_GETADDR_ERR_EID: uint16 := 33
  const EVENTMON_GETADDR_ERR_EID: uint16 := 34
  const EXECOUNT_GETADDR_ERR_EID: uint16 := 35
  const MSGACTS_GETADDR_ERR_EID: uint16 := 36
  const RESET_LIMIT_ERR_EID: uint16 := 37
  const APPMON_APPNAME_ERR_EID: uint16 := 38
  const APPMON_RESTART_ERR_EID: uint16 := 39
  const APPMON_NOT_RESTARTED_ERR_EID: uint16 := 40
  const APPMON_FAIL_ERR_EID: uint16 := 41
  const APPMON_PROC_ERR_EID: uint16 := 42
  const APPMON_MSGACTS_ERR_EID: uint16 := 43
  const EVENTMON_MSGACTS_ERR_EID: uint16 := 44
  const EVENTMON_PROC_ERR_EID: uint16 := 45
  const EVENTMON_RESTART_ERR_EID: uint16 := 46
  const EVENTMON_NOT_RESTARTED_ERR_EID: uint16 := 47
  const EVENTMON_DELETE_ERR_EID: uint16 := 48
  const EVENTMON_NOT_DELETED_ERR_EID: uint16 := 49
  const DISABLE_APPMON_ERR_EID: uint16 := 58
  const DISABLE_EVENTMON_ERR_EID: uint16 := 59
  const SUB_WAKEUP_ERR_EID: uint16 := 60
  const ENABLE_CPUHOG_DBG_EID: uint16 := 64
  const DISABLE_CPUHOG_DBG_EID: uint16 := 65
  const EVENTMON_LONG_SUB_EID: uint16 := 66
  const EVENTMON_SHORT_SUB_EID: uint16 := 67
  const EVENTMON_LONG_UNSUB_EID: uint16 := 68
  const EVENTMON_SHORT_UNSUB_EID: uint16 := 69
  const BADEMT_LONG_UNSUB_EID: uint16 := 70
  const BADEMT_SHORT_UNSUB_EID: uint16 := 71
  const APPMON_APPNAME_DBG_EID: uint16 := 72
  const SYSMON_INIT_ERR_EID: uint16 := 74
  const SUB_SHORT_EVS_ERR_EID: uint16 := 79
}
