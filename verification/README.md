# Health and Safety (HS) cycle engine

This project models the HS application of the core Flight System: the global record `HS_AppData` and the
functions that step it once per wakeup, and proves what they guarantee over whole runs, reboots included.

One wakeup acquires the four tables, cools the message actions down, samples the CPU utilization every N cycles,
runs the application monitor, outputs aliveness, drains the event pipe through the event monitor, drains the
command pipe and services the watchdog.

## How it is built

* `HsTypes`: integer widths, the configuration with the bounds of `fsw/src/hs_verify.h` (every proof is for all
  values inside them), tables, and what the environment delivers.
* `Utilization`, `AppMonitor`, `CriticalData`, `Arithmetic`: the arithmetic parts on values.
* `HsState`: the state, a log of every observable operation, the change each operation makes (`Do`), the test
  that guards it in the source (`Can`) and the *lawful traces*, in which every operation was permitted in the state
  that the ones before it produced.
* `HsSteps`: each function of HS as a composition of operations.
* `HsApp`: the class `App` with the fields and arrays of `HS_AppData`, updated in place by loops and branches like
  those of the source. `Now()` is its abstract state; each method is proved to change it as the step function says.
  `Cfe` holds what survives a reboot: the critical data store, the subscriptions and the ghost log.
* `HsSound`: every step, for all inputs, extends a lawful trace. `HsRuns`: so does every run of start-ups, cycles,
  upsets of the store and resets that strike at any operation.
* `AppMonitorRuns`, `ActionRuns`, `SilenceRuns`, `MessageRuns`, `ResetRuns`, `CdsRuns`, `CycleRuns`, `UtilRuns`,
  `EventRuns`, `EventDrain`, `CommandRuns`: what lawful traces, hence all runs, guarantee.
* `StepEffects`, `Exchange`, `CycleExchange`, `StartExchange`, `AnswerRuns`: what the environment's answers decide. They
  give the state after an acquisition, a command and a start-up, and the whole exchange of a cycle and a start-up, as
  functions of the answers, without the step functions; and what follows for runs.
* `Validation`: the table validators, and what an accepted table means for the monitors.
* `Witnesses`: runs that reach the states in which HS does less than one might expect.

`hide` statements keep definitions out of proofs that do not need them.

## Findings

* While MAX <= 32768, so that the scaling stays in 32 bits, the average CPU utilization is right for all readings the
  sampler can return exactly when A * MAX < 2^32. The configuration check bounds both only one by one
  (`Utilization.AverageExactIff`; A readings at the end code are the input that goes wrong).
* The event loop of one cycle can feed itself. For all events that can be on the pipe when it begins it ends, in every
  run, exactly when no entry that such an event can match may send an event that leads to a chain of seven of the event
  monitor's own events, each causing the next (`EventDrain.DrainEndsIff`; what an event may cause counts messages that
  then cool down). Tables without an entry that names HS always pass. An entry that asks for a restart of HS on HS's
  own restart event fails as soon as any other event asks for a restart: while HS is found and its restart fails, each
  report of it asks for the next.
* `ResetsPerformed <= MaxResets` is not an invariant: it is left exactly by a set-max command with a limit under the
  count, or by restoring such a record (`ResetRuns.LimitKeptIff`; `Witnesses.LimitCanDropBelowCount` is a run). The
  bound on resets issued does not need it.
* Event table entries with event ID 0 are counted as unused by validation but still match. All matching entries of an
  accepted table dispatch exactly when the ID-0 ones do (`Validation.EmtDispatchesIff`, example
  `EventIdZeroSlips`).
* Execution counter types are judged by 16 of their 32 bits. All types of an accepted table are known or unused exactly
  when none has a higher bit (`Validation.XctTypesIff`, examples `NarrowedTypeSlips`).
* Event monitoring can be on without its subscriptions in two ways. A half-failed disable command leaves only the short
  format subscribed (`Witnesses.HalfDisabledRun`). And the main loop is entered also when initialization failed, which
  skips the subscribing: if the system monitor device refuses to start, HS cycles with nothing subscribed, and an enable
  command does not help, since it subscribes only from "disabled" (`Witnesses.DeafRun`). These are the only ways:
  `HsRuns.SubscribedWhileUp` says exactly when.
* An interval of 0 cycles, which the configuration check lets through, makes HS sample every 2^32 cycles.

Where the requirements in `docs/hs_FunctionalRequirements.csv` and the code differ, the model follows the code: the
reset-counters command is not itself counted (HS1003), a housekeeping request of wrong length is reported but not
counted (HS1004), event messages are subscribed only if event monitoring is enabled (HS8002), and hogging means at or
above the threshold (HS6010 says "exceeds").

## Assumptions

* Table contents change only inside `HS_AcquirePointers`, and only when the status is `CFE_TBL_INFO_UPDATED`. The
  tables are always present, at first empty.
* `CFE_ES_CopyToCDS` succeeds; its result is ignored at fsw/src/hs_monitors.c:840.
* A failing subscribe or unsubscribe leaves the subscriptions as they were; a repeated subscribe succeeds. The
  subscriptions of an instance end with it.
* A receive on a pipe that was not created fails, so the main loop runs no cycle then. What an unregistered table or a
  missing subscription delivers is arbitrary, like any other answer.
* `CFE_ES_ResetCFE` may return. When it does not, the run is cut short after it and a boot follows.
* `1 << 31` is the unsigned mask. Names are compared as whole strings.
* The software bus, table services, event services and the system monitor are inputs: what they answer and deliver is
  arbitrary. `CFE_PSP_IODriver_AdcCode_t` is taken as a 32-bit signed code of which 24 bits are used.
* In `EventDrain` the pipe is unbounded, all of HS's own events come back on it, and nothing else arrives meanwhile.

## Model

| member | source | states |
|---|---|---|
| `AppMonitor.SetBit` | fsw/src/hs_cmds.c:684-685 | setting the enable bit of entry i changes bit i%32 of word i/32 and no other bit of any word |
| `AppMonitor.ClearBit` | fsw/src/hs_monitors.c:110-111 | clearing the enable bit of entry i changes that bit and no other |
| `AppMonitor.ArmedBits` | fsw/src/hs_cmds.c:672-687 | after the first n entries of a refresh, a bit is set exactly for the armed entries among them, also in the unused tail of the last word |
| `AppMonitorRuns.BitmapInvariant` | fsw/src/hs_cmds.c:656-688 | in every state of every lawful trace a bit of the packed enables is set exactly when that entry is still counting down, bits past the last application are 0, no countdown exceeds its cycle count, and only entries with an action count down |
| `AppMonitorRuns.EntryInvariant` | fsw/src/hs_monitors.c:62-112 | in every lawful trace an armed entry's countdown is its cycle count less the consecutive misses since it was armed, the stored count is the last one seen, and it has fired once if the misses used up the cycle count, never otherwise |
| `AppMonitorRuns.FiresAtCycleCount` | fsw/src/hs_monitors.c:90-108 | a look uses up the countdown exactly when it is the CycleCount-th miss in a row, at most once until the entry is armed again; what follows it is the subject of ActionRuns |
| `AppMonitorRuns.NameErrorOnFirstMiss` | fsw/src/hs_monitors.c:70-85 | in every reachable state a name that does not resolve is reported as an error exactly on the first of a row of misses, as a debug event after that |
| `AppMonitorRuns.LooksAtArmed` | fsw/src/hs_monitors.c:55-64 | one run of the application monitor looks at every entry that still counts down, once, in table order, and at no other |
| `ActionRuns.OnlyWhatWasAsked` | fsw/src/hs_monitors.c:112-206 | in every run each reset, restart, deletion, send and report of an outcome (event-only action, failed restart or deletion, reset limit) answers the latest look that used up its countdown or the latest match: only reports, the counting of a reset and a failed call came since, that entry asks for exactly this on this name or index, no report is repeated, and a restart, a deletion or the counting of a reset comes right after its own event |
| `ActionRuns.EveryCallAnswered` | fsw/src/hs_monitors.c:247-360 | in every run in which HS is up, whatever it owed to a look or match of the boot was done, with only reports in between: the reset or the limit report, the restart or deletion or the report that it could not be done, the event, and the message if table and cooldown grant it |
| `ActionRuns.AnsweredOrWaiting` | fsw/src/hs_monitors.c:112-131 | at any moment of any lawful trace what is owed was done or only reports came after it so far, so only a boot can cut it off |
| `ActionRuns.ActsAtCycleCount` | fsw/src/hs_monitors.c:90-206 | in every run in which HS is up, the CycleCount-th miss in a row of an application is followed by what its entry asks for, any of the four kinds of action; only a message depends on table and cooldown |
| `ActionRuns.FailuresReported` | fsw/src/hs_monitors.c:145-158 | in every run in which HS is up, each restart or deletion that failed was reported by the monitor that tried it |
| `SilenceRuns.SilenceCosts` | fsw/src/hs_app.c:564-567 | each whole cycle with monitoring on, no refresh and no sign of life from an application takes one off its countdown, which is its cycle count less its misses so far |
| `SilenceRuns.SilentAppActedOn` | fsw/src/hs_monitors.c:44-215 | in every run in which HS is up, an application silent for as many consecutive cycles as its entry had left was looked at in the last of them, its countdown used up, and what its entry asks for carried out (a message if granted) |
| `MessageRuns.CooldownIsAge` | fsw/src/hs_app.c:546-552 | in every lawful trace a cooldown counter is what the table asks for less the cycles since the last send, and 0 if there was none since the last refresh |
| `MessageRuns.SendsApart` | fsw/src/hs_monitors.c:186-193 | between table refreshes two sends of one message are at least its cooldown in cycles apart, whichever monitor asked |
| `MessageRuns.RateLimit` | fsw/src/hs_monitors.c:339-346 | any n consecutive cycles hold at most ceil(n / c) sends of a message with cooldown c |
| `MessageRuns.RequestDecided` | fsw/src/hs_monitors.c:176-202 | in every reachable state a request is granted exactly when the table is usable, the entry enabled and the last send at least the cooldown ago; a granted one sends once, counts, starts the cooldown and reports unless silent, a refused one changes nothing |
| `ResetRuns.PrefixLawful` | fsw/src/hs_app.c:532-597 | what HS did up to any earlier moment was lawful too, so statements about lawful traces hold at every moment of a run |
| `ResetRuns.InversesMatch` | fsw/src/hs_monitors.c:831-834 | from the end of the start-up check until the next boot the inverse words match their values, at every operation |
| `ResetRuns.CountedBeforeIssued` | fsw/src/hs_monitors.c:122-130 | over every lawful trace each reset issued was counted first; the count leads by the one in progress and those a reboot cut off |
| `ResetRuns.NoResetLoop` | fsw/src/hs_monitors.c:258-267 | over any run with any reboots, without a clearing command, a lost or an upset store, the resets issued equal the growth of the stored count (less the counted ones not issued) and never exceed limit - start, or 0 |
| `ResetRuns.StoredBeforeIssued` | fsw/src/hs_monitors.c:838-841 | when a reset is issued the store already holds the raised count |
| `ResetRuns.LimitKeptIff` | fsw/src/hs_cmds.c:434-441 | an operation takes the count above the limit exactly when it is a set-max command with a limit below the count, or restores a record that was already so |
| `Witnesses.LimitCanDropBelowCount` | fsw/src/hs_cmds.c:441 | for every configuration there is a run, HS up at its end, that leaves the count above the limit |
| `ResetRuns.WatchdogFlag` | fsw/src/hs_monitors.c:129 | the service flag is set exactly while no processor reset was issued since memory was cleared |
| `ResetRuns.NoServiceAfterReset` | fsw/src/hs_app.c:591-594 | once either monitor has issued a reset that returned, the watchdog is not serviced again in that boot |
| `CriticalData.DetectsErrors` | fsw/src/hs_app.c:251-252 | a stored pair hit by bit errors passes the check exactly when each value and its inverse word were hit in the same bits |
| `CdsRuns.RecordAfterStartUp` | fsw/src/hs_app.c:239-299 | start-up keeps the stored pair, without a report, exactly when it exists, can be read and passes the check; otherwise memory, and the store if in use, hold (0, HS_MAX_RESTART_ACTIONS) |
| `CdsRuns.StoreRestoreRoundTrip` | fsw/src/hs_app.c:247-263 | storing, any bit errors in the store, then a boot: the pair comes back exactly for matching errors, unchanged if there are none, else the defaults are put in memory and store |
| `CdsRuns.InStepAfterStartUp` | fsw/src/hs_app.c:239-288 | every start-up that could register the store leaves memory and store in step and consistent |
| `CycleRuns.CycleCounter` | fsw/src/hs_app.c:554-559 | the utilization cycle counter is the number of cycles to the next multiple of the interval, also when a configured 0 makes it run through 32 bits |
| `CycleRuns.SampledOnMultiples` | fsw/src/hs_app.c:554-558 | the k-th utilization tick of a boot was preceded by a sample exactly when k is a multiple of the cycles per interval |
| `CycleRuns.AlivenessPeriodic` | fsw/src/hs_app.c:572-581 | after k cycles with aliveness enabled exactly k / period strings were output and the counter is k mod period, whatever was switched in between |
| `CycleRuns.CycleMarks` | fsw/src/hs_app.c:532-597 | every cycle acquires, cools down and ticks once, samples exactly on multiples of the interval, ticks aliveness exactly when enabled, and services the watchdog once, or not at all after a reset was issued |
| `CycleRuns.StartUpMarks` | fsw/src/hs_app.c:202-337 | a start-up is one boot and does none of the per-cycle work |
| `EventRuns.DrainDeeds` | fsw/src/hs_app.c:612-627 | draining the pipe hands every event to the monitor once and acts on exactly the matching entries, events in arrival order and entries in table order |
| `EventRuns.CmdsKeepSubscriptions` | fsw/src/hs_cmds.c:264-356 | any commands, any answers of the software bus: while event monitoring is on the short format is subscribed, and the long one too unless a disable command failed half way |
| `EventRuns.AcquireKeepsSubscriptions` | fsw/src/hs_cmds.c:524-564 | losing the event table keeps that subscription rule |
| `EventRuns.CycleKeepsSubscriptions` | fsw/src/hs_app.c:532-640 | a whole cycle keeps it |
| `EventRuns.StartUpSubscribes` | fsw/src/hs_app.c:69-121 | after a start-up that reaches the cycles the subscription rule holds exactly when initialization was complete or event monitoring is off, a condition on its inputs; complete, both formats are subscribed if monitoring is on, else none |
| `EventRuns.CycleDeaf` | fsw/src/hs_cmds.c:264-356 | a cycle leaves monitoring on with nothing subscribed exactly as it is unless it loses the event table or a disable command gets through |
| `EventRuns.EnableStaysDeaf` | fsw/src/hs_cmds.c:271-290 | an enable command does not repair that |
| `Witnesses.HalfDisabledRun` | fsw/src/hs_cmds.c:321-352 | for every configuration there is a run, HS up at its end, with event monitoring on and only the short format subscribed |
| `Witnesses.HalfDisable` | fsw/src/hs_cmds.c:327-352 | a disable command whose second call fails does that from every fully subscribed state |
| `Witnesses.DeafRun` | fsw/src/hs_sysmon.c:60-71 | for every configuration that monitors events there is a run, HS up, whose system monitor device refused to start: event monitoring on, nothing subscribed, an enable command later |
| `EventDrain.EndsExactlyWhenSafe` | fsw/src/hs_app.c:614-626 | with HS's own events put back on the pipe, the event loop ends in every cycle of every run that enters it, for every queue drawn from a given kind of events and every environment, exactly when no event of that kind may cause an own event that leads to a chain of seven own events each causing the next |
| `EventDrain.DrainEndsIff` | fsw/src/hs_app.c:614-626 | for the events that can be on the pipe when the loop begins, that is a condition on the tables: no entry that such an event can match may send an event that leads to a chain of seven |
| `EventDrain.AnyQueueEndsIff` | fsw/src/hs_app.c:614-626 | for any queue, the event monitor's own events included: exactly when the tables hold no chain of seven |
| `EventDrain.NoSelfEntriesChainless` | fsw/src/hs_monitors.c:238-242 | in particular it ends when no event table entry names HS |
| `EventDrain.RestartOnRestartChains` | fsw/src/hs_monitors.c:277-296 | an entry that asks for a restart of HS on HS's own restart event makes such a chain |
| `EventDrain.RestartSetsGoing` | fsw/src/hs_monitors.c:277-296 | and any other event that asks for a restart, of whatever application, sets it going |
| `EventDrain.MonitorSent` | fsw/src/hs_monitors.c:231-366 | handling one event sends at most two own events per entry, all of them caused by it unless a message was used up that now cools down |
| `EventDrain.TurnsAreDeliveries` | fsw/src/hs_app.c:612-627 | the self-feeding loop is the event loop of a cycle whose pipe delivers exactly the queued and fed-back events |
| `CommandRuns.OneCmdCounted` | fsw/src/hs_dispatch.c:92-186 | every message moves exactly one counter by one, or none (housekeeping), or clears all (reset), as a verdict on ID, code, length and bus answers says |
| `CommandRuns.MalformedChangesNothing` | fsw/src/hs_dispatch.c:41-85 | a message rejected for ID, code or length changes at most the error counter and the log |
| `CommandRuns.CountersAreTotals` | fsw/src/hs_app.c:640-653 | after any messages the two counters are the totals accepted and rejected since the last reset-counters command, mod 256 |
| `CommandRuns.CountersTally` | fsw/src/hs_cmds.c:224-230 | in every lawful trace the four telemetry counters are the commands accepted and rejected, the events monitored and the messages sent since the last clearing, modulo their widths |
| `HsSound.AcquireSound` | fsw/src/hs_cmds.c:454-649 | after acquisition whatever is still switched on has its table, whatever the state was before |
| `HsSound.CycleSound` | fsw/src/hs_app.c:532-597 | a cycle from any sound state, for all inputs, extends a lawful trace: each monitor ran on a table acquired in this cycle, each message was sent off cooldown, each reset was counted and stored before it was issued |
| `HsSound.StartUpSound` | fsw/src/hs_app.c:55-121 | a boot may come at any operation; start-up from there, wherever initialization ends, leaves a lawful trace and a checked record |
| `HsRuns.After` | fsw/src/hs_app.c:121-165 | every run of start-ups, cycles, store upsets and resets at any operation leads to a reachable state with a lawful log |
| `HsRuns.NeverOnUnacquiredTable` | fsw/src/hs_app.c:609-640 | in every run each look, each monitored event and each message send came after its table was acquired in the same cycle |
| `HsRuns.SubscribedWhileUp` | fsw/src/hs_app.c:74-121 | between any two cycles of any run the subscription rule holds exactly unless the last initialization failed with event monitoring on and no input since has switched it off; then nothing is subscribed |
| `HsRuns.CyclesRegular` | fsw/src/hs_app.c:541-559 | in every run k cycles of a boot made k cooldown ticks, k utilization ticks and ceil(k / interval) samples |
| `Utilization.PickedIsWindow` | fsw/src/hs_monitors.c:422-444 | the index tests of the sampling loop add up exactly the last A slots, wrapped or not |
| `Utilization.RingIsHistory` | fsw/src/hs_monitors.c:380-420 | for every sequence of readings the ring read from the index on is the last N values of the history, an unread interval contributing the value N intervals earlier |
| `Utilization.ReportsHistory` | fsw/src/hs_monitors.c:391-447 | after a valid reading average and peak are those of the last A and N history values; after an unreadable one both are 0xFFFFFFFF |
| `Utilization.AverageExact` | fsw/src/hs_monitors.c:433-447 | if A times the largest contribution fits 32 bits nothing overflows, the average is the true one and average <= peak <= MAX |
| `Utilization.AverageExactIff` | fsw/src/hs_verify.h:217-257 | for MAX <= 32768, where the scaling stays in int32, the average is right for all sequences of readings the sampler can return exactly when A * MAX < 2^32, which the configuration check does not demand |
| `Utilization.AverageExactForAnyReading` | fsw/src/hs_monitors.c:376-446 | for arbitrary int32 readings and any MAX the same with MAX replaced by min(MAX, 2^31 - 1) |
| `Utilization.AverageWraps` | fsw/src/hs_monitors.c:378 | when that product does not fit, A readings at min(MAX, 2^31 - 1) make the 32-bit sum wrap |
| `Utilization.HogTimeIsStreak` | fsw/src/hs_monitors.c:404-417 | the hogging counter is the length of the current run of hot readings mod 2^32; unreadable intervals neither extend nor break it |
| `Utilization.AlarmsPerStreak` | fsw/src/hs_monitors.c:406-412 | the hogging events sent are those owed for the streaks of the run: one for each that reaches the limit (and one more per 2^32 after that) |
| `Utilization.OwedOnce` | fsw/src/hs_monitors.c:408-412 | for streaks shorter than 2^32 that is one event if the limit was reached, else none |
| `UtilRuns.UtilFollowsSamples` | fsw/src/hs_app.c:554-558 | in every lawful trace tracker, index, reports and hogging counter are those of the samples taken since the boot |
| `UtilRuns.ReportsSampledHistory` | fsw/src/hs_monitors.c:391-447 | so at every moment the reports are mean and peak of the last A and N values of that boot's history, or unknown |
| `UtilRuns.HogEventsPerStreak` | fsw/src/hs_monitors.c:404-417 | in every lawful trace, save between a sample and its event, the hogging events sent since the boot are those owed for its streaks |
| `Utilization.ProductFitsIff` | fsw/src/hs_sysmon.c:160 | the product stays inside int32 for every 24-bit sample exactly when MAX <= 32768 |
| `Utilization.ScaleRange` | fsw/src/hs_sysmon.c:158-161 | the scaled value is monotone, within [0, MAX], 0 and MAX at the end codes |
| `Utilization.ScaleAccuracy` | fsw/src/hs_sysmon.c:160 | it lies within one and a half counts of sample * MAX / 0xFFFFFF |
| `Utilization.ClampKeepsScaled` | fsw/src/hs_monitors.c:399-402 | the clamp of the monitor never changes a scaled value |
| `Validation.ValidActions` | fsw/src/hs_utils.c:40-81 | an action is valid exactly if it is 0, built-in, or indexes the message table without the subtraction going below 0 |
| `Validation.TotalsOf` | fsw/src/hs_monitors.c:535-537 | good, bad and unused entries add up to the table size |
| `Validation.ValidateAMTable` | fsw/src/hs_monitors.c:456-540 | the result is 0 exactly if no entry is bad, else the first bad entry's error; totals per kind; a null table gives -1 |
| `Validation.ValidateEMTable` | fsw/src/hs_monitors.c:547-631 | the same for the event table |
| `Validation.ValidateXCTable` | fsw/src/hs_monitors.c:638-721 | the same for the execution counter table, the type narrowed to 16 bits |
| `Validation.ValidateMATable` | fsw/src/hs_monitors.c:728-819 | the same for the message table: enable state, then ID, then length |
| `Validation.AcceptedAmtDispatches` | fsw/src/hs_monitors.c:175-181 | with an accepted table every entry ever looked at has a built-in action or a message index in range |
| `Validation.AcceptedEmtDispatches` | fsw/src/hs_monitors.c:328-334 | the same for event entries acting on an event ID other than 0 |
| `Validation.EmtDispatchesIff` | fsw/src/hs_monitors.c:579-600 | in an accepted event table all entries that can match an event have a built-in action or a message index in range exactly when the ID-0 entries have |
| `Validation.EventIdZeroSlips` | fsw/src/hs_monitors.c:579-584 | an accepted table can hold an ID-0 entry that matches events and has an action out of range |
| `Validation.XctTypesIff` | fsw/src/hs_monitors.c:663-697 | in an accepted execution counter table all types are unused or one of the four exactly when none has a bit above the low 16 |
| `Validation.NarrowedTypeSlips` | fsw/src/hs_monitors.c:663-667 | a type above 16 bits can pass as good or as unused |
| `Validation.AcceptedMatSends` | fsw/src/hs_monitors.c:768-791 | with an accepted message table every message sent has a valid ID and fits the bus |
| `StepEffects.AcquisitionFollowsAnswers` | fsw/src/hs_cmds.c:454-649 | from any state and for any answers of the table services: a failed table is marked so and its monitor off (the event table with its subscriptions), one that could be had is marked so and its monitor left as it was, new contents are installed and arm the countdowns or clear the cooldowns, all else is kept |
| `AnswerRuns.OwnTablesOnly` | fsw/src/hs_cmds.c:484-496 | in every run each look, monitored or matched event and send of a cycle was made only though the answer for its table in that very cycle was no failure |
| `StepEffects.CommandsDoWhatTheySay` | fsw/src/hs_dispatch.c:92-186 | every message: a well-formed command leaves the modes, subscriptions, armed entries and reset record that its code and the bus answers call for, and all else save counters and log; anything else leaves the whole state save these |
| `StepEffects.LoadFollowsAnswers` | fsw/src/hs_app.c:472-517 | the tables that load at start-up decide exactly which marks and monitors go off |
| `Exchange.MonitorSays` | fsw/src/hs_monitors.c:44-215 | the application monitor over any sightings and restart answers: each armed entry is looked at with exactly what was found of it, it fires when its last allowed miss is used up, a miss being no count or the count of the look before, and restart and failure reports follow the answers, in table order |
| `Exchange.DrainSays` | fsw/src/hs_monitors.c:222-367 | the events of a pipe, any answers: per event and matching entry in order the restart or deletion with the outcome it had if the name was found, and the report of failure exactly unless it was found and succeeded |
| `AnswerRuns.MovingRevives` | fsw/src/hs_monitors.c:90-97 | a cycle that finds a new count of an armed application leaves its countdown whole and remembers that count |
| `AnswerRuns.MovingNeverFires` | fsw/src/hs_monitors.c:90-108 | in every run an application whose count moves in every cycle never uses up its countdown, whatever tables are loaded and commands arrive |
| `AnswerRuns.MovingNeverActedOn` | fsw/src/hs_monitors.c:90-206 | so no reset, restart, deletion, send or outcome report of those cycles answers a look at it |
| `AnswerRuns.CycleSamples` | fsw/src/hs_app.c:554-558 | a cycle adds its own reading, as it is, to the samples of the boot exactly when the utilization counter is 0 |
| `AnswerRuns.SamplesAreReadings` | fsw/src/hs_app.c:554-558 | in every run the samples of the boot are the readings of its cycles 0, P, 2P and so on, P cycles per interval |
| `AnswerRuns.ReportsReadings` | fsw/src/hs_monitors.c:389-447 | in every run the reported average and peak are those of the history of these readings, and the hogging events are those owed for their hot streaks |
| `CycleExchange.CycleSays` | fsw/src/hs_app.c:532-664 | for every state and all answers and deliveries: everything a cycle asks, is told and reports, in order, save what limit, cooldown and hog streak decide |
| `CycleExchange.CycleOkIff` | fsw/src/hs_app.c:604-664 | the cycle succeeds exactly when the pipes it read ran dry |
| `AnswerRuns.OwnEventsOnlyInDrain` | fsw/src/hs_app.c:604-664 | in a cycle the event monitor's own events are sent only while the event pipe is drained |
| `StartExchange.StartUpFollowsAnswers` | fsw/src/hs_app.c:69-336 | from any state and for all answers: everything a start-up asks, is told and reports, in order, and the state it leaves save the reset record |
| `StartExchange.StartUpOkIff` | fsw/src/hs_app.c:74-121 | cycles follow exactly when initialization was complete and event monitoring, if on, got both subscriptions, or when initialization failed after the wakeup pipe was created |
| `HsApp.App.constructor` | fsw/src/hs_app.c:209-224 | memory cleared and defaults set: each part of the state is that of a fresh boot over the surviving store |
| `HsApp.App.SetCDSData` | fsw/src/hs_monitors.c:826-842 | the pair and its inverses in memory, and in the store if that is in use |
| `HsApp.App.PerformReset` | fsw/src/hs_monitors.c:250-275 | the whole new state after a processor reset action |
| `HsApp.App.PerformMsgAction` | fsw/src/hs_monitors.c:329-356 | the whole new state after a message action |
| `HsApp.App.UpdateEntry` | fsw/src/hs_monitors.c:90-111 | countdown, last count and bitmap after one look, and whether it expired, computed in place |
| `HsApp.App.TakeAppAction` | fsw/src/hs_monitors.c:112-206 | the switch over application actions |
| `HsApp.App.CheckApp` | fsw/src/hs_monitors.c:57-212 | one table entry: name report, look, action |
| `HsApp.App.MonitorApplications` | fsw/src/hs_monitors.c:44-215 | the loop refines the fold of the entry step over the table |
| `HsApp.App.TakeEventAction` | fsw/src/hs_monitors.c:247-360 | the switch over event actions |
| `HsApp.App.MonitorOneEvent` | fsw/src/hs_monitors.c:222-367 | the loop over the event table refines the fold of the entry step |
| `HsApp.App.Summarize` | fsw/src/hs_monitors.c:422-447 | the sampling loop computes the mean of the window and the peak of the ring |
| `HsApp.App.UpdateUtil` | fsw/src/hs_monitors.c:380-448 | index, ring, hogging counter, average and peak after one reading |
| `HsApp.App.MonitorUtilization` | fsw/src/hs_monitors.c:374-449 | the same with the hogging event |
| `HsApp.App.ArmEntries` | fsw/src/hs_cmds.c:664-687 | the two refresh loops arm exactly the used entries and rebuild the bitmap |
| `HsApp.App.AppMonStatusRefresh` | fsw/src/hs_cmds.c:656-688 | the whole new state after a refresh |
| `HsApp.App.MsgActsStatusRefresh` | fsw/src/hs_cmds.c:695-706 | all cooldowns cleared |
| `HsApp.App.DecrementCooldowns` | fsw/src/hs_app.c:546-552 | every nonzero cooldown one lower |
| `HsApp.App.ResetCounters` | fsw/src/hs_cmds.c:224-230 | the four counters cleared, nothing else |
| `HsApp.App.SwitchModeCmd` | fsw/src/hs_cmds.c:363-412 | accepted, switched, reported |
| `HsApp.App.EnableAppMonCmd` | fsw/src/hs_cmds.c:237-244 | accepted, refreshed, switched on, reported |
| `HsApp.App.EnableEventMonCmd` | fsw/src/hs_cmds.c:264-307 | both subscriptions, then on; rejected at the first refusal |
| `HsApp.App.DisableEventMonCmd` | fsw/src/hs_cmds.c:314-356 | both subscriptions given up, then off; rejected at the first refusal |
| `HsApp.App.WriteCdsCmd` | fsw/src/hs_cmds.c:419-447 | the two commands that rewrite the reset record |
| `HsApp.App.VerifyMsgLength` | fsw/src/hs_dispatch.c:41-85 | true exactly for the expected length; otherwise reported, and counted unless it is a housekeeping request |
| `HsApp.App.ExecuteCmd` | fsw/src/hs_dispatch.c:115-163 | each command code runs its handler |
| `HsApp.App.AppPipe` | fsw/src/hs_dispatch.c:92-186 | one message: ID, code, length, handler |
| `HsApp.App.DropTable` | fsw/src/hs_cmds.c:494-495 | a lost table and the monitor that needs it are marked off |
| `HsApp.App.AcquireAppMon` | fsw/src/hs_cmds.c:461-504 | the application table: refresh on update, report and disable once on failure |
| `HsApp.App.AcquireEventMon` | fsw/src/hs_cmds.c:509-564 | the event table, with the unsubscribing |
| `HsApp.App.AcquireMsgActs` | fsw/src/hs_cmds.c:569-610 | the message table |
| `HsApp.App.AcquireExeCount` | fsw/src/hs_cmds.c:615-648 | the execution counter table |
| `HsApp.App.AcquirePointers` | fsw/src/hs_cmds.c:454-649 | the four in order |
| `HsApp.App.UtilizationTick` | fsw/src/hs_app.c:554-559 | sample and reload at 0, then count down with 32-bit wrap |
| `HsApp.App.OutputAliveness` | fsw/src/hs_app.c:574-580 | counter and output |
| `HsApp.App.PollEvents` | fsw/src/hs_app.c:612-635 | the event loop refines the drain of what the pipe delivers |
| `HsApp.App.ProcessPipes` | fsw/src/hs_app.c:604-664 | events before commands; commands not read if the event pipe broke |
| `HsApp.App.ProcessMain` | fsw/src/hs_app.c:532-597 | one wakeup refines the cycle step, whose safety HsSound.CycleSound proves |
| `HsApp.App.RestoreFromStore` | fsw/src/hs_app.c:239-299 | the restore branch taken for each registration and restore status |
| `HsApp.App.LoadTables` | fsw/src/hs_app.c:472-517 | the tables that fail to load, and their monitors, are off |
| `HsApp.App.Start` | fsw/src/hs_app.c:69-121 | start-up to the main loop with every early return of initialization after the store, and whether cycles follow |
| `HsApp.Reboot` | fsw/src/hs_app.c:202-224 | a boot is a new instance over the same store and log |

## Left out

- Housekeeping packet (`HS_SendHkCmd`): a field-by-field copy; the request is one operation in the log.
- Execution counters: the table is acquired and validated, but the counters are only read for housekeeping.
- Event texts, system log lines, performance log markers and task delays.
- Pipe creation, command subscriptions, table registration and the system monitor device appear only as the call at which initialization ends, if any.
- A start-up that event services refuse does nothing and its loop ends at the first receive: in the runs, a start-up cut short after its boot.
- Start-up calls that set, enable and service the watchdog hardware (fsw/src/hs_app.c:81-84); the log holds the services of the cycle.
- Wakeup pipe status other than message, no message or time-out: such a wakeup runs no cycle and ends the loop.
- `HS_SysMonInit`, `HS_SysMonCleanup` and the driver call: only the status of the first and the scaling of the code are modelled.
- fsw/src/hs_eds_dispatch.c: the generated code that it calls is not part of this model.
- EventDrain.EndsExactlyWhenSafe: a bounded pipe drops events when it is full, so a loop that never ends here may also end by losing its own events.
- Validation.ValidateXCTable: what housekeeping does with an accepted entry of unknown type is not modelled.
- HsApp.App.MonitorOneEvent: the event record is passed as application name and ID, not as a packet.
- HsRuns.After: upsets of the store strike between start-ups and cycles; the statements about lawful traces allow them at any operation.
