# Verified model of the marina ERP

The ERP reads shore-power cabinets, books what every outlet consumed, follows the cabinets' charging
sessions, and guards its own sign-in. This project models the parts of it that keep state over time and
proves what every run of them keeps. `dafny verify dfyconfig.toml` checks all of it.

| file | what it models |
|---|---|
| `metering.dfy` | one register reading: the chain of consumption intervals, idle rows extended in place, resets |
| `figures.dfy` | the energy inside a time window, pro rata |
| `retention.dfy` | roll-up into monthly rows, deletion of simulated history, and the ledger over any interleaving |
| `chain.dfy` | what the chain means: refinement of a row-per-reading store, exactness, storage bound |
| `joints.dfy` | where the intervals of an outlet touch |
| `meterdb.dfy` | the tables updated in place, chunk by chunk |
| `demo.dfy` | the demo marina's register and the history seeded from it |
| `sessions.dfy`, `sessionruns.dfy` | one session payload parsed and applied; runs of payloads, billings, acknowledgements |
| `sessioncolumns.dfy` | what a delivered payload leaves in the row, column by column |
| `rangeroute.dfy` | the cabinet's list of ended sessions and the offset paging over it while it grows |
| `runhistory.dfy` | reconciliation runs and the rows kept of them: where windows start, when one leaves a hole |
| `reconcile.dfy` | pull reconciliation: a run page by page, and coverage of every ended session |
| `agent.dfy` | the stateless security agent and its alarms, with retention deleting them |
| `totp.dfy`, `signin.dfy` | one-time codes; lockout, one-time use and backup codes over runs of requests |
| `client.dfy` | the cabinet client's call: retries, silence, cache |
| `contract.dfy` | building a cabinet URL and finding its endpoint and parameters again |
| `nfc.dfy` | NFC tag UIDs, all-or-nothing imports, lookup in either byte order |
| `quantities.dfy` | half-even rounding, options |

Conventions. Stored energy is an integer count of 0.0001 kWh, stored water of 0.001 L, times are integer
instants; a window's energy and the recompute check are exact reals. A table is a sequence or map with its
uniqueness rule. Where the code changes fields in place there is a class whose methods are proved against a
function of the old contents (`Record`, `RollUp`, `Delete`, `Step`, `Next`, ...), and the theorems are about
runs of those functions. Each such function has lemmas beside it that say what it comes to on the inputs and
the columns themselves, without its own helpers. The world outside (the cabinets' answers, clocks, the MAC, the demo's draws, which
outlets are simulated, the calendar's months) is a parameter.

What the code does differently from what its text says, and what is proved of it instead:

- A NFC import reports a line given twice as unchanged only when the tag is already stored. A new UID given
  twice, in the same byte order and on the same outlet, passes every check and then breaks the table's UNIQUE
  constraint, so nothing of the file is written; so does, on PostgreSQL, a UID of more than 21 bytes, which the
  64-character columns do not hold. `NfcTags.TagStore.ImportCsv` states exactly when;
  `NfcTags.RepeatedLineFails` and `NfcTags.LongUidFails` are such files.
- A path built from a value that is empty or holds a slash is not found again by its own endpoint's pattern.
  `Contract.ReverseLookup` states the exact condition, `Contract.SlashIsLost` is an input.
- A retention run leaves simulated outlets out of the monthly rows only while no simulated row is old enough to
  be rolled up and too young to be deleted. `Retention.SimulatedMonthly` is the equivalence;
  `Retention.SimulatedUntouched` the case of the windows as set.
- The range query sends whole seconds, so the window really asked for is the truncated one; coverage is proved
  for that one. A nightly run starts at now less 30 days, whatever the frontier, and an ordinary run whose
  frontier row retention has deleted (after 90 days) at now less 2 days; after a long enough outage either leaves
  a hole. `RunHistory.HoleWhen` says exactly when, `Reconciliation.EverySessionApplied` is coverage without one,
  `RunHistory.OutageMisses` shows that a session in a hole is never read while it is listed, and
  `Reconciliation.CloseRunsCover` needs only that good runs are at most 30 days less the overlap apart.
- A stale answer is not there for good: retention deletes cache rows not refreshed for 30 days, and
  `CabinetClient.StaleWhenever` says so.
- The lock bounds failed passwords and codes at sign-in, but the request for new backup codes counts failures
  without asking the lock. `SignIn.LockoutRate` is the bound on the former with any of the latter in between,
  `SignIn.RegenerateIsUnbounded` shows that the latter have none.

## Model

| member | source | states |
|---|---|---|
| `Quantities.RoundHalfEven` | backend/app/services/session_sync.py:37-38 | the stored figure is within half a unit of the real one, and even on a tie |
| `Metering.ExtendableIsExact` | backend/app/services/collector.py:123-127 | a row is extended exactly when the stored row the meter points at is idle, of the reading's attribution, and ends at the last reading |
| `Metering.RecordKeepsValid` | backend/app/services/collector.py:100-140 | a reading keeps the chain: rows sound, ordered, disjoint, none past the last reading, touching idle rows of one attribution never two, the pointer never at another outlet's row |
| `Figures.ComputeEnergyBetween` | backend/app/services/overview.py:64-80 | the query's loop, with its skips and its two branches, computes the integral of the rows' mean power over the window, for any set of outlets |
| `Figures.EnergySplits` | backend/app/services/overview.py:64-80 | the energy of adjacent windows adds up, for any cut point |
| `Figures.ShareIsProRata` | backend/app/services/overview.py:75-79 | inside its span a row gives a stretch the same part of its energy as of its time |
| `Figures.EnergyOfBoth` | backend/app/services/overview.py:70-74 | the energy of two disjoint sets of outlets is the sum of theirs |
| `Figures.EnergyOfEach` | backend/app/services/overview.py:90-95 | so the energy of a marina is the sum of each outlet's |
| `Retention.StepKeepsValid` | backend/app/services/retention.py:80-136 | readings, roll-up chunks and deletion chunks each keep the chain's invariant |
| `Retention.RunIsValid` | backend/app/services/collector.py:100-140 | the chain's invariant holds after any interleaving of readings and committed chunks, dangling pointers included |
| `Retention.RegistersAgree` | backend/app/services/collector.py:103-115 | the stored meter state is the last accepted register and its time, by the readings alone |
| `Retention.TotalMeans` | backend/app/services/retention.py:110-118 | a monthly total is the sum of the known figures, energy and water, of the rows with its outlet, starting month and flag, unknown when none is known, and counts them |
| `Retention.RollUpTakes` | backend/app/services/retention.py:106-134 | the roll-up takes out exactly the rows that ended before the cutoff |
| `Retention.RollUpAdds` | backend/app/services/retention.py:119-132 | and adds their known figures and their number to each monthly row, where an unknown figure stays so when none of them knows it |
| `Retention.DeleteMeans` | backend/app/services/retention.py:80-96 | the deletion takes out exactly the simulated outlets' rows that ended before the cutoff, clears exactly the pointers at those, and touches nothing else |
| `Retention.RollUpKeepsLedger` | backend/app/services/retention.py:103-136 | a chunk moves totals from live to monthly rows without changing their sum |
| `Retention.Conservation` | backend/app/services/retention.py:103-136 | for every real outlet, month and standalone flag, over any interleaving: live plus monthly energy is the sum of the accepted register steps, live rows plus interval_count are the rows ever created |
| `Retention.RollUpInvisible` | backend/app/services/overview.py:64-80 | removing rows that ended before a cutoff changes no window from the cutoff on |
| `Retention.RetentionInvisible` | backend/app/services/retention.py:139-152 | a whole run leaves real outlets' energy in every window from the interval cutoff on, and their ledger, as they were |
| `Retention.SimulatedMonthly` | backend/app/services/retention.py:146-149 | a run touches no simulated outlet's monthly row exactly when no simulated row expired for the roll-up but not for the deletion |
| `Retention.SimulatedUntouched` | backend/app/services/retention.py:144-149 | with the simulated window no longer than the interval window, never |
| `Chain.LiveFiguresAgree` | backend/app/services/collector.py:124-139 | for every run of readings and whole roll-ups, the coalescing store and a row-per-reading store agree on every figure to which an idle row adds nothing |
| `Chain.MonthlyAgree` | backend/app/services/retention.py:119-132 | their monthly energies agree too, a missing row read as 0 |
| `Chain.CoalescingInvisible` | backend/app/services/collector.py:124-139 | so every window of any outlets and every session's or standalone energy is the same in both |
| `Chain.ReadAdvances` | backend/app/services/collector.py:116-139 | a newer reading that does not fall adds exactly its register difference to the windows that end at it |
| `Chain.ReadLeavesPast` | backend/app/services/collector.py:124-139 | a reading changes no window that ends by the outlet's last reading |
| `Joints.TouchExceptAtResets` | backend/app/services/collector.py:107-139 | after any run whose chunks take an outlet's oldest rows first, each of its rows begins at the instant and with the register the row before ended, exactly when no restart lies between |
| `Joints.RealRowsTouch` | backend/app/services/collector.py:107-139 | the same for every outlet that is not simulated, over any run whose roll-up chunks are the first expired rows by id |
| `Joints.ChunkTakesFront` | backend/app/services/retention.py:106-107 | the roll-up's chunks, first rows by id, are such chunks for every outlet |
| `Chain.Exactness` | backend/app/services/overview.py:64-80 | between any two accepted readings with no reset in between the window's energy is exactly the register difference, through any later run that spares those rows |
| `Chain.OutletsExact` | backend/app/services/overview.py:90-95 | the energy of any outlets between two rounds of readings is the sum of their register differences |
| `Chain.EnergyIsBooked` | backend/app/services/collector.py:117-131 | over any run of readings, the energy of a session's rows is the register steps accepted while the cabinet was in smart mode with that session active; the cabinets' own, those while it was known not to be; nobody's, the rest |
| `Chain.MonotoneIsSteady` | backend/app/services/collector.py:110-115 | readings off one register that never falls never restart the chain |
| `Chain.StorageBound` | backend/app/services/collector.py:124-139 | without retention an outlet gets at most 2 rows per step that moved its register, 1 per change of attribution, 1 per reset, and 1 more |
| `MeterTables.ChunkByIds` | backend/app/services/retention.py:106-134 | a chunk is given by its ids: deleting by the ids of the first rows that meet a test deletes exactly those rows |
| `MeterTables.RollUpsCompose` | backend/app/services/retention.py:103-136 | two chunks one after the other give the store of one roll-up of both, monthly rows and unknown figures included |
| `MeterTables.DeletesCompose` | backend/app/services/retention.py:80-96 | deleting part of a selection first changes nothing in the end, pointers included |
| `MeterTables.Add` | backend/app/services/retention.py:114-117 | known figures add up, unknown ones leave the other as it is |
| `MeterTables.Aggregate` | backend/app/services/retention.py:110-118 | the loop's dictionary holds, per outlet, month and flag, the totals of the fetched rows |
| `MeterTables.MeterDb.RecordReading` | backend/app/services/collector.py:100-140 | the in-place update of meter state and interval rows is `Record`, and the answer its verdict |
| `MeterTables.MeterDb.MergeMonthly` | backend/app/services/retention.py:119-132 | every aggregated key is added to its monthly row, created empty when missing, and no other row changes |
| `MeterTables.MeterDb.RollUpChunk` | backend/app/services/retention.py:105-136 | one transaction rolls up exactly the first expired rows by id, at most a chunk of them, and is a roll-up step over their ids |
| `MeterTables.MeterDb.RollUpIntervals` | backend/app/services/retention.py:103-136 | the loop gives the one-shot aggregation, for every chunk size, and counts the rows |
| `MeterTables.MeterDb.DeleteChunk` | backend/app/services/retention.py:84-96 | one transaction deletes at most a chunk of the expired simulated rows, clears exactly the pointers at those, and is a deletion step over their ids |
| `MeterTables.MeterDb.DeleteSimulated` | backend/app/services/retention.py:80-96 | the loop deletes exactly the expired simulated rows and clears exactly the pointers at them |
| `MeterTables.MeterDb.RunRetention` | backend/app/services/retention.py:139-152 | the interval part of a retention run: deletion, then roll-up |
| `DemoWorld.RegisterWithinHour` | backend/simulator/demo_world.py:195-204 | the register grows by the hour's power times the length, hour ends included |
| `DemoWorld.RegisterIsTheIntegral` | backend/simulator/demo_world.py:195-204 | before rounding, the register is the integral of the power from the start value, and the only function that is |
| `DemoWorld.RegisterNeverFalls` | backend/simulator/demo_world.py:195-204 | it is monotone |
| `DemoWorld.DayIs` | backend/simulator/demo_world.py:103-104 | a demo day runs from midday to midday |
| `DemoWorld.PowerMeans` | backend/simulator/demo_world.py:168-173 | an unplugged berth draws nothing, a plugged one within half a watt of its base power times the profile two hours on times 0.7 to 1.3 |
| `DemoWorld.ReadingNeverFalls` | backend/simulator/demo_world.py:204 | so is the stored reading |
| `DemoWorld.Meters.KwhBeforeDay` | backend/simulator/demo_world.py:183-192 | the cached prefix is the true sum of the days, whatever calls filled the cache |
| `DemoWorld.Meters.RegisterKwh` | backend/simulator/demo_world.py:195-204 | a read through the cache is the register, whatever reads came before |
| `DemoSeed.WalkHour` | backend/app/demo/seed.py:131-142 | one hour of the backfill stores what the collector would have stored |
| `DemoSeed.History` | backend/app/demo/seed.py:111-145 | the seeded rows and meter state are exactly those of the collector fed the same hourly readings |
| `DemoSeed.ReplayIsRun` | backend/app/demo/seed.py:111-145 | feeding readings one by one is a run of the tables |
| `DemoSeed.OneSeries` | backend/app/demo/seed.py:111-145 | between any two accepted readings, seeded or live, the window's energy is the register's difference |
| `DemoSeed.DemoNeverFalls` | backend/simulator/demo_world.py:195-204 | the demo register is such a register |
| `Sessions.ParseSession` | backend/app/cabinet/session_payload.py:106-205 | the parse, with the findings in order and the review flag raised along the way |
| `Sessions.FindingsMean` | backend/app/cabinet/session_payload.py:106-185 | each of the nine findings is reported exactly when what it says holds of the payload, and once |
| `SessionColumns.ContractKeysAre` | backend/app/cabinet/session_payload.py:24-37 | the contract's keys are all the named ones but the reference and the prices |
| `SessionColumns.ReadWhen` | backend/app/cabinet/session_payload.py:106-153 | a payload is read exactly when every contract key is there (the customer's not with an ERP reference), the medium is known, the outlet none or one of that medium, and the medium's three numbers, the duration and the power are numbers or null |
| `SessionColumns.Identity` | backend/app/cabinet/session_payload.py:187-205 | ids, customer, outlet, medium and state as sent, an empty reference as none |
| `SessionColumns.ShapeNoted` | backend/app/cabinet/session_payload.py:110-159 | the dropped price keys are counted, the unknown keys named, a figure of the other medium and an unknown source noted, exactly when there are any |
| `SessionColumns.FigureNoted` | backend/app/cabinet/session_payload.py:161-185 | an ended session's missing, unmeasured or approximate figure, and a figure without registers or off by more than a thousandth, are noted exactly when so |
| `Sessions.NoteEnd` | backend/app/cabinet/session_payload.py:161-171 | review is raised exactly for an ended session without a register's figure |
| `Sessions.NoteRegisters` | backend/app/cabinet/session_payload.py:173-185 | review is raised exactly for a figure its registers do not confirm |
| `Sessions.ParseIsTrustworthy` | backend/app/cabinet/session_payload.py:161-185 | a recompute finding stands for exactly the unconfirmed figures and always means review; an ended session out of review has a figure from the register or an unnamed source |
| `Sessions.MatchMeans` | backend/app/services/session_sync.py:41-61 | a row with the ERP's reference comes first, then one with the cabinet's id, then the newest row of that customer and outlet still waiting; nothing only when there is none |
| `SessionColumns.AnswerWhen` | backend/app/services/session_sync.py:67-79 | unknown exactly for another cabinet's payload or one that finds no row, left alone when billed, refused when another row has the id or a number does not fit |
| `SessionColumns.TooLarge` | backend/app/models/metering.py:49-62 | a number does not fit exactly when the id has more than 32 bits or the rounded figure, register or duration more digits than its column |
| `SessionColumns.OthersStay` | backend/app/services/session_sync.py:93-117 | no other row changes |
| `SessionColumns.FiguresStored` | backend/app/services/session_sync.py:99-106 | an applied payload's figure and both registers are stored in the medium's columns, NULL exactly when null and else within half a unit; the other medium's keep their values |
| `SessionColumns.TimesStored` | backend/app/services/session_sync.py:93-98 | the cabinet's id, the state, the activation and the minutes are stored, and the end of an ended session is the one the cabinet lists it by |
| `SessionColumns.MarksStored` | backend/app/services/session_sync.py:81-117 | the known source, whether the registers confirm the figure, review exactly for the payload's reasons or another outlet, medium or source, and the pull's mark |
| `SessionColumns.AcknowledgementMarks` | backend/app/services/reconciler.py:125-136 | exactly the cabinet's billed rows with its id and no acknowledgement get one |
| `SessionColumns.BillingMarks` | backend/app/models/metering.py:25-47 | a row is billed exactly when it was pending, reconciled and has its medium's figure |
| `SessionRuns.StepEvolves` | backend/app/services/session_sync.py:64-118 | one step creates no row, changes nothing of a billed one but its acknowledgement, marks reconciled only by a pull of an ended payload, acknowledges only what is billed |
| `SessionRuns.RunSafety` | backend/app/services/session_sync.py:64-118 | the same over any interleaving: review is never left, a reconciled row stays marked, every new mark was set by a pull of an ended payload |
| `SessionRuns.QuantizedAgree` | backend/app/services/session_sync.py:99-107 | after three half-even roundings a confirmed figure is within 11 units (0.0011 kWh) or 2 units (0.002 L) of its stored registers' difference |
| `SessionRuns.FiguresStayConfirmed` | backend/app/services/session_sync.py:99-115 | so it is for every figure pending or billed, after any run |
| `SessionRuns.RunKeepsUnique` | backend/app/models/metering.py:25 | cabinet session ids stay distinct over any run |
| `SessionRuns.FindsAgain` | backend/app/services/session_sync.py:41-61 | a payload applied finds the same row again |
| `SessionRuns.Idempotent` | backend/app/services/session_sync.py:64-118 | applying a payload again with the same clock changes nothing |
| `SessionRuns.RunIdempotent` | backend/app/services/session_sync.py:64-118 | and so after any run |
| `SessionRuns.PullReconciles` | backend/app/services/session_sync.py:116-117 | an applied pull of an ended payload marks its row |
| `SessionRuns.SessionTable.Deliver` | backend/app/services/session_sync.py:64-118 | the field-by-field update is the step, and the answer its verdict |
| `SessionRuns.AssignTimes` | backend/app/services/session_sync.py:94-98 | the cabinet's id, state and times as assigned |
| `SessionRuns.AssignFigures` | backend/app/services/session_sync.py:99-107 | the figure and registers of the payload's medium, and no other's |
| `SessionRuns.Assign` | backend/app/services/session_sync.py:79-117 | all assignments: times, figures, source, recompute mark, review, reconciliation |
| `RangeRoute.PlaceOnlyGrows` | backend/app/services/reconciler.py:85-102 | insertions into a sorted list never move a session towards the front |
| `RangeRoute.NextPage` | backend/app/services/reconciler.py:95-100 | moving the offset past an applied page skips no session of the first list, however the list grew |
| `RangeRoute.PageRead` | backend/app/services/reconciler.py:86-102 | an empty page, or an offset at the list's length, means all is done |
| `RangeRoute.ListingIs` | backend/simulator/cabinet_sim.py:398-402 | the range route's filter and sort: exactly the sessions that ended in the window, ordered by end and id |
| `RangeRoute.EndedAtIs` | backend/simulator/cabinet_sim.py:232-237 | a session's end is its activation plus its minutes, to the nearest microsecond, for an ended one that has both |
| `RangeRoute.TruncatedIs` | backend/app/cabinet/client.py:445-447 | the wire form of a time is the last whole second not after it |
| `RangeRoute.AskingGrows` | backend/simulator/cabinet_sim.py:391-402 | a cabinet that only adds sessions gives a list that keeps its order and only grows |
| `RunHistory.FrontierIs` | backend/app/services/reconciler.py:43-48 | the frontier is the window's end of the last good range run whose row there is, and nothing only when there is none |
| `RunHistory.WindowStarts` | backend/app/services/reconciler.py:82-84 | a nightly window starts 30 days back, another ten minutes before the last good window's end, or two days back when there is none |
| `RunHistory.AskedIs` | backend/app/cabinet/client.py:327-335 | an end is asked for from the whole second the window starts in to the one it ends in |
| `RunHistory.FailedRunsKeepFrontier` | backend/app/services/reconciler.py:43-48 | no number of failed and by-user runs moves it |
| `RunHistory.NoHole` | backend/app/services/reconciler.py:81-84 | a window asks for every end after a run less the overlap exactly when its start, in whole seconds, is no later |
| `RunHistory.HoleWhen` | backend/app/services/reconciler.py:43-48 | a good run leaves a hole exactly when it is a nightly pass too long after the last good run, or an ordinary one that finds no good row any more and looks back too little |
| `RunHistory.SomeRunAsks` | backend/app/services/reconciler.py:81-105 | when no good run leaves a hole, some good run asks for the session's end at a time when it is already visible, whatever run rows were deleted |
| `RunHistory.CloseRunsLeaveNoHole` | backend/app/services/retention.py:46-47 | good runs no further apart than 30 days less the overlap leave none, since run rows are kept 90 days |
| `RunHistory.FrontierSince` | backend/app/services/retention.py:68-78 | after a good run the stored frontier is at or after its start, or its row is gone with all before it |
| `RunHistory.OutageMisses` | backend/app/services/reconciler.py:81-105 | when one does, and deletions take all they find old, a session that ends at the hole's first instant and is listed the overlap later is asked for by no good run while it is listed |
| `RunHistory.HoleIsPassed` | backend/app/services/reconciler.py:81-105 | although the good runs pass it |
| `RunHistory.AMonthIsAnOutage` | backend/app/services/reconciler.py:83 | two runs 31 days apart, the second nightly, are such a case |
| `RunHistory.AQuarterIsAnOutage` | backend/app/services/retention.py:46-47 | so are a good run, the deletion of its row on the 91st day and an ordinary run on the 92nd |
| `Reconciliation.AppliedIsSettled` | backend/app/services/session_sync.py:64-118 | a session applied by a pull stays settled in the rows: reconciled, or billed already, or none of the ERP's, through any later deliveries, billings and acknowledgements |
| `Reconciliation.EverySessionApplied` | backend/app/services/reconciler.py:81-105 | coverage: when no good run leaves a hole, every session ended since the first window began and listed within the overlap of its end has been applied by a good run and is settled in the session rows once a good run is the overlap past its end, through failed and by-user runs, deletions of run rows, webhooks and billings |
| `Reconciliation.CloseRunsCover` | backend/app/services/reconciler.py:81-105 | so it is whenever good runs are no further apart than 30 days less the overlap |
| `Reconciliation.ApplyPage` | backend/app/services/reconciler.py:95-97 | one page, one transaction: all its sessions in order, or none exactly when the table refuses one |
| `Reconciliation.ReadWindow` | backend/app/services/reconciler.py:85-102 | the offset loop ends, and stops early only at a missing route, a refused read or a page the table does not take; otherwise every session in the window at the first read has been applied, for any page sizes and any insertions |
| `Reconciliation.Reconciler.Pull` | backend/app/services/reconciler.py:81-105 | the run proper: it is good exactly when the read came to its end and the table took the open sessions too; the rows are those of applying what it reports, then of more deliveries and acknowledgements |
| `Reconciliation.Reconciler.Reconcile` | backend/app/services/reconciler.py:59-78 | one run adds one row, keeps what coverage asks of runs and rows, and moves the frontier exactly when it is good |
| `Reconciliation.Reconciler.Webhook` | backend/app/services/session_sync.py:64-118 | a webhook between runs keeps it too |
| `Reconciliation.Reconciler.DeleteOld` | backend/app/services/retention.py:68-78 | so does the deletion of old run rows, which leaves exactly the rows not older than 90 days |
| `Reconciliation.Reconciler.DeleteChunk` | backend/app/services/retention.py:73-77 | each chunk of it is a deletion step over some ids, of at most a chunk of old rows |
| `Agent.FindCases` | backend/app/agent/rules.py:162-186 | the loops return a case exactly when the window's rows with its address, inside its bucket, carry enough distinct e-mails, each case once |
| `Agent.CaseOfMeans` | backend/app/agent/rules.py:168-172 | a row is put into the one case whose address it has and whose bucket its time lies in |
| `Agent.TagsAre` | backend/app/agent/rules.py:168-175 | the e-mails counted for a case are those of the rows with its address inside both its bucket and the window |
| `Agent.FoundMeans` | backend/app/agent/rules.py:174-177 | a case is found exactly when there are enough of them |
| `Agent.AlarmTable.Insert` | backend/app/agent/run.py:50-58 | insert or nothing |
| `Agent.AlarmTable.InsertAll` | backend/app/agent/run.py:71-77 | the counter is the number of new alarms |
| `Agent.AlarmTable.RunOnce` | backend/app/agent/run.py:61-83 | an active rule opens an alarm for every case it finds that has none, a shadow rule none |
| `Agent.PassKeeps` | backend/app/agent/run.py:61-83 | a pass never opens again a case whose alarm retention deleted |
| `Agent.SeenWhole` | backend/app/agent/rules.py:162-177 | a pass between the bucket's end and the window's length after its start sees the whole case |
| `Agent.SomePassFalls` | backend/app/agent/run.py:61-83 | passes no further apart than a stretch have one in it |
| `Agent.ExactlyOnce` | backend/app/agent/run.py:61-83 | over a run of passes and retention, a spanned bucket opens one alarm if it is a case and none if not, and no bucket ever two |
| `Agent.OneRowIsEnough` | backend/app/agent/rules.py:135-154 | for a rule that one row satisfies, passes no further apart than the window find every row's case, once |
| `Agent.RetentionKeepsRecent` | backend/app/services/retention.py:56-57 | after a retention run the alarms are exactly those inserted within the time kept |
| `Agent.DefaultsAreSound` | backend/app/config.py:59 | the window and retention in use meet the condition for both rules |
| `Agent.DecoyKeyIsOneCase` | backend/app/agent/rules.py:145 | the decoy rule's joined key determines its four parts |
| `Totp.CodeShape` | backend/app/utils/totp.py:35-39 | every code is exactly six digits and stands for the truncated MAC modulo a million, the offset inside 20 bytes (section 5.3 of RFC 4226) |
| `Totp.TruncateExample` | backend/app/utils/totp.py:37-38 | the example of section 5.4 of RFC 4226: 50 ef 7f 19, code 872921 |
| `Totp.TruncateMeans` | backend/app/utils/totp.py:37-38 | four bytes, big-endian, from the offset in the last byte's low half, the first without its top bit |
| `Totp.AcceptsMeans` | backend/app/utils/totp.py:57-69 | a code stands for a step exactly when it is six digits and that step's code, the step is the earliest such within 30 seconds either side, and later than the last accepted |
| `Totp.Verify` | backend/app/utils/totp.py:50-69 | the loop over the window accepts a code exactly when the earliest step it matches is later than the last accepted one |
| `SignIn.Account.RegisterFailure` | backend/app/services/accounts.py:70-77 | the counter, and the lock at the threshold |
| `SignIn.DeployedCodes` | backend/app/utils/totp.py:35-39 | a step's code is six digits that stand for the truncated MAC of that step under the account's own secret |
| `SignIn.AnswersMean` | backend/app/routers/auth.py:121-234 | for every request, exactly when a password passes, a one-time or backup code is accepted, a failure is counted, or something else is done |
| `SignIn.ChangesMean` | backend/app/services/accounts.py:70-83 | what each answer changes of the account: nothing, one more failure or the lock for 15 minutes at the fifth, or just the fields of its route |
| `SignIn.Account.VerifyTotp` | backend/app/services/accounts.py:151-158 | an accepted step is stored, a refused code changes nothing |
| `SignIn.Account.Login` | backend/app/routers/auth.py:121-150 | the password step: no password and lock first, then the password, then whether the account is active |
| `SignIn.Account.MfaVerify` | backend/app/routers/auth.py:162-183 | the code step: one-time code, else backup code, else a counted failure |
| `SignIn.Account.EnrollStart` | backend/app/routers/auth.py:186-197 | a new secret, unconfirmed, with no last step |
| `SignIn.Account.EnrollConfirm` | backend/app/routers/auth.py:200-219 | confirmation by a code, which counts as used |
| `SignIn.Account.RegenerateCodes` | backend/app/routers/auth.py:222-234 | new backup codes for a code, which counts as used; a wrong one counts as a failure, locked or not |
| `SignIn.CountStaysBelow` | backend/app/services/accounts.py:70-77 | the failed count stays below the threshold after every run |
| `SignIn.LockedMeansLocked` | backend/app/services/accounts.py:66-67 | while locked nothing signs in, passes or counts, and only an admin changes the lock; the request for new backup codes, which does not ask the lock, is excepted |
| `SignIn.LockoutRate` | backend/app/services/accounts.py:66-83 | with no success and no unlock, the failures of the password, verify and enrol-confirm steps counted over a span T are at most threshold times (T div lockout + 1), whatever requests for new backup codes come in between |
| `SignIn.RegenerateIsUnbounded` | backend/app/routers/auth.py:222-234 | the failures of those requests themselves have no bound: n wrong codes count n failures within one instant |
| `SignIn.OneTimeUse` | backend/app/services/accounts.py:151-158 | within one enrolment accepted steps strictly increase across all three routes that verify a code (section 5.2 of RFC 6238) |
| `SignIn.AcceptedNear` | backend/app/utils/totp.py:60-68 | each accepted step is within one of its request's |
| `SignIn.AcceptanceRate` | backend/app/utils/totp.py:50-69 | over n elapsed steps at most n + 3 codes are accepted |
| `SignIn.BackupCodesRunDown` | backend/app/services/accounts.py:176-185 | until codes are given out again, every sign-in by a backup code takes one code out for good |
| `CabinetClient.Client.Call` | backend/app/cabinet/client.py:134-255 | the call follows the world's answers turn by turn, ends exactly as the last of them says, with at most 4 command requests and 3 s of waiting; "not enabled" silences its key, a successful JSON read is stored, nothing else changes either table |
| `CabinetClient.Client.Ask` | backend/app/cabinet/client.py:165-243 | the retry loop: fewer than three failed tries and one repeated login before the turn that ends it |
| `CabinetClient.Client.Turn` | backend/app/cabinet/client.py:98-118 | one turn, with the token asked for exactly when none holds |
| `CabinetClient.Client.Conclude` | backend/app/cabinet/client.py:186-240 | the answers that end a call |
| `CabinetClient.OutcomeTable` | backend/app/cabinet/client.py:186-255 | how a call ends, code by code: each exactly for its statuses, with the data of a success or of the cache only |
| `CabinetClient.LeftBehind` | backend/app/cabinet/client.py:186-221 | "not enabled" silences the key for an hour, a successful JSON read is stored in its slot, nothing else changes either table |
| `CabinetClient.TriedAgain` | backend/app/cabinet/client.py:165-240 | no answer and a 5xx other than 503 are tried three times in all, a 401 once more, and the call ends with anything else |
| `CabinetClient.TurnMeans` | backend/app/cabinet/client.py:98-126 | a token that still holds is used, otherwise one is asked for; the first 401 drops it, so that the next turn asks again |
| `CabinetClient.CacheHoldsLast` | backend/app/services/pedestal_api.py:21-54 | a slot holds what the last successful JSON read of it brought, unless retention has deleted that row since |
| `CabinetClient.RecentIsKept` | backend/app/services/retention.py:48 | which it has not as long as no deletion comes more than 30 days after the read |
| `CabinetClient.Client.DropOld` | backend/app/services/retention.py:68-78 | a chunk of that deletion takes exactly the old rows among its slots |
| `CabinetClient.StaleIsLatest` | backend/app/cabinet/client.py:244-254 | a stale answer is exactly the latest successful JSON read of its own slot, and a command never gets one |
| `CabinetClient.StaleWhenever` | backend/app/cabinet/client.py:242-255 | a call that ends without a usable answer gives it exactly when it is a read whose slot's last read was of something and is still kept |
| `CabinetClient.SilenceHolds` | backend/app/cabinet/client.py:128-130 | after "not enabled" the key's silence lasts at least an hour from then, whatever follows |
| `CabinetClient.SilenceIsTold` | backend/app/cabinet/client.py:128-130 | a silence is an hour from some earlier "not enabled" for that key |
| `CabinetClient.HourOfSilence` | backend/app/cabinet/client.py:152-154 | a call with a proper path sends nothing exactly within an hour of "not enabled" for its key, whatever is called in between |
| `Contract.EndpointFor` | backend/app/cabinet/contract.py:191-197 | reverse lookup returns an endpoint that matches, and none only when none does |
| `Contract.EndpointTellsApart` | backend/app/cabinet/contract.py:46-126 | every external path starts /api/ext with no second ext, and each endpoint is told by its path's length and three words |
| `Contract.SegmentsOfPath` | backend/app/cabinet/contract.py:188 | reading a path back gives at least the segments put in, and just those exactly when none holds a slash |
| `Contract.OwnPattern` | backend/app/cabinet/contract.py:194-195 | a template's pattern matches its own path exactly when every value is non-empty and slash-free |
| `Contract.ReverseLookup` | backend/app/cabinet/contract.py:162-197 | a built path is found under its own endpoint and method exactly when every value is non-empty and slash-free, and then under no other |
| `Contract.RefusedWhen` | backend/app/cabinet/contract.py:162-180 | building refuses exactly a missing or surplus parameter, a pedestal that is no number where one is asked for, and a socket or valve that is not Q1-Q4 or V1-V2, with at most a line feed after it |
| `Contract.LineFeedMatches` | backend/app/cabinet/contract.py:194-195 | a line feed after the path still matches |
| `Contract.SlashIsLost` | backend/app/cabinet/contract.py:162-197 | a display id with a slash: the path is built and its own endpoint does not match it |
| `Contract.ReadParams` | backend/simulator/cabinet_sim.py:258-268 | the template match on the stripped and split path: same length and words, the parameters read from their places |
| `Contract.ReadBack` | backend/simulator/cabinet_sim.py:258-268 | the parameters put in are read off again |
| `Contract.Serve` | backend/app/cabinet/contract.py:162-197 | the round trip: endpoint and parameters come back |
| `Contract.NoDoubledExt` | backend/app/cabinet/contract.py:168-169 | whatever the values, no built path has a doubled ext at the root |
| `NfcUid.NormaliseIsIdempotent` | backend/app/cabinet/nfc_uid.py:24-34 | normalising a normal form changes nothing |
| `NfcUid.ReversalIsAnInvolution` | backend/app/cabinet/nfc_uid.py:37-38 | the byte-reverse of a normal form is one, and reversing twice gives it back |
| `NfcUid.SeparatorsIgnored` | backend/app/cabinet/nfc_uid.py:28 | separators do not matter, wherever they stand |
| `NfcUid.CaseIgnored` | backend/app/cabinet/nfc_uid.py:28 | nor does the case of a letter |
| `NfcUid.PlainUid` | backend/app/cabinet/nfc_uid.py:28-34 | without either, a UID is exactly an even number of hex digits, at least two, and its form has a colon between every two of them |
| `NfcUid.ReversedBytes` | backend/app/cabinet/nfc_uid.py:37-38 | the byte-reverse has the same bytes from the other end |
| `NfcUid.SplitJoin` | backend/app/cabinet/nfc_uid.py:34-38 | joined byte pairs split into the same pairs |
| `NfcTags.Lookup` | backend/app/services/nfc_tags.py:126-138 | the answer is an active row with the scanned form, and none only when there is none |
| `NfcTags.OneOutletPerUid` | backend/app/services/nfc_tags.py:48-122 | all rows that hold a UID in either byte order sit on one outlet |
| `NfcTags.BothOrdersResolveAlike` | backend/app/services/nfc_tags.py:126-138 | a UID and its byte-reverse resolve to the same outlet, or both to none, whichever matching row each query returns |
| `NfcTags.PendingClashes` | backend/app/models/berth.py:113-114 | the rows to add break a UNIQUE column exactly when the file repeats a new UID in one byte order |
| `NfcTags.ImportKeepsCoherent` | backend/app/services/nfc_tags.py:48-122 | adding a clean file's new tags keeps all tags that share a byte order on one outlet |
| `NfcTags.TagStore.CheckLine` | backend/app/services/nfc_tags.py:92-114 | one line's checks against the file so far and the store |
| `NfcTags.TagStore.ImportCsv` | backend/app/services/nfc_tags.py:56-122 | all or nothing: errors exactly when the file is not clean, a broken constraint exactly when it is clean but repeats a new UID or brings one its checked columns do not hold, otherwise exactly the new tags added |
| `NfcTags.CleanMeans` | backend/app/services/nfc_tags.py:74-114 | a file is free of errors exactly when every line names an outlet and a UID, with the right reverse if any, and no UID, in either byte order, stands for two outlets in the file or is stored for another |
| `NfcTags.ImportedResolves` | backend/app/services/nfc_tags.py:56-138 | after an import each line's UID, scanned in either byte order and any spelling, resolves to the line's outlet, unless it was stored before and no row with it is active |
| `NfcTags.WideIsLong` | backend/app/models/berth.py:122-123 | the columns hold 21 bytes in either order and no more |
| `NfcTags.LongUidFails` | backend/app/models/berth.py:122-123 | a clean one-line file with any longer UID, which a database that checks widths refuses |
| `NfcTags.RepeatedLineFails` | backend/app/services/nfc_tags.py:92-122 | a concrete clean file that fails on the constraint |

## Left out

- HTTP, TLS, SQLAlchemy, tokens (JWT), Fernet and bcrypt: an answer is a parameter, a table a sequence or map, a password check a boolean.
- Concurrency of requests on one row: each handler and each committed chunk is one step.
- Float rounding inside the pro-rata query, the recompute check and the demo register: exact reals there; the final rounding to stored units is modelled.
- Time zones and the calendar: the month of an instant is a parameter.
- Reading a register out of telemetry, scheduling, leader election and threads of the collector.
- Interval rows without an energy figure: the collector never writes one; roll-up and query handle them here as the code does.
- Numeric ranges of the interval and monthly columns; those of the session columns are modelled.
- Row ids given out again after deletion: ids only grow, as a PostgreSQL sequence gives them; SQLite may reuse the highest.
- DemoWorld.RegisterIsTheIntegral: which berth is occupied and plugged in on a demo day, and each draw, are parameters; the ranking behind them is not modelled.
- DemoSeed.History: one outlet with no meter state yet; the walk over cabinets and sockets around it is not modelled.
- Chain.EnergyIsBooked: over readings alone; a roll-up keeps the standalone flag but not the session, so a session's energy is there as long as its rows, and what the flag keeps is `Retention.Conservation`.
- Sessions.ParseSession: payload keys are an enumeration; a session id that is no integer, a malformed time, and a payload that is no object are not modelled.
- SessionRuns.StepEvolves: billing itself is not in the repository yet; its step is whatever the table's CHECK constraints allow.
- SessionRuns.QuantizedAgree: the bound is in whole stored units, so 0.0011 kWh and 0.002 L, where exact arithmetic on the unrounded sum would give 0.00115 and 0.0025.
- RangeRoute.ListingIs: the cabinet's sessions at each read are a parameter with distinct ids that only grows; an unreadable duration or start lists nothing.
- Reconciliation.Reconciler.Reconcile: which open sessions are refreshed and which customers are asked for by user are given as the answers that come back; the run's counters and error text are not kept; whether a run was nightly, the rows it started from and what it applied are kept for the proofs although the table does not store them.
- Agent: the other rules, the evidence and texts of a finding, and the hash of its key, taken as injective.
- Agent.ExactlyOnce: every pass reads one log; a sign-in row committed after a pass whose window already covers its time, the deletion of source rows long out of every window, and a rule switched on or off between passes are not modelled.
- Totp.Verify: stripping blanks from a typed code, non-ASCII digits, and constant-time comparison.
- SignIn.LockoutRate: setup links and password changes are not modelled.
- CabinetClient.Client.Call: classification of 409 and 400 texts, the log of calls, and channel B (NFC) with its own key; whether the cache could be written is one parameter of a call.
- CabinetClient.HourOfSilence: one client's lifetime; a restarted process has forgotten its silences and its token, and no other client writes the slots.
- Contract.ReverseLookup: a key outside the table, which building refuses, does not exist in the enumeration; the enabling modes are not modelled.
- MeterTables.MeterDb.DeleteChunk: takes the first of the rows to go; the query gives no order, and the theorems over runs allow any.
- NfcUid.NormaliseIsIdempotent: white space and upper-casing beyond ASCII.
- NfcTags.TagStore.ImportCsv: reading the CSV text, its header and the name of the person provisioning.
- The frontend, migrations, berth status tables, prepaid credit, photo handling and decoy recording.
