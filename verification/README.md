# Market Brain: verified model of the ledger, the intraday structure and the replay

Market Brain keeps a capital ledger without a broker connection: a wallet, trade plans, cash reservations and
positions, each changed by a service step that also appends an event. It watches the opening range of the day for a
breakout and a retest, replays past sessions with the same rules, rations provider calls, and decides which quote to
trust when several feeds disagree. This project models those parts over exact reals and integer seconds and proves
what they are for.

## What is modelled

**The capital ledger.** `Domain` holds the records, `Tables` sums over keyed rows, `Sizing`, `Planning` and
`Activation` the sizing, the plan geometry and the entry gate. `Ledger` gives every service step as a function of the
rows and the event log, `Service` the same steps as methods of a class that reads, changes and writes rows one at a
time; each method is proved to make exactly the transition of its function. `Rebuilding` is replay from the log, `LogRules`
what it leaves of any log, `Records` and `StoredLog` the stored form of rows and events. `Runs` puts the steps together: a run is any sequence of
commands, raising ones included, and `activate` is two commands because its market reads happen between two
transactions. Over every run: `ReplayAgreement` (the log rebuilds the rows), `RowSoundness`, `Lifecycle` and
`TriggerLog` (plans, reservations, triggers), `Accounting`, `FillAccounting` and `MoneyRuns` (the money laws),
`LossRuns` (the daily loss), `GuardRuns` (when a clamp or an accounting guard can act), `Limits`, `FillOffers` and
`LimitRuns` (risk limits and what a refusal advertises). When each step goes through and what it writes is said on the
rows and the call alone, without the functions that compute it: `PlanRules`, `PlanLife` and `SweepRules` for plans,
`EntryRuns` for reservations, `FillRules` for fills, `RowRules` for the rest. `Witnesses` holds three concrete runs on
which a money law or a guard fails.

**The intraday structure.** `Bars` merges minute bars of several feeds, `Intraday` is the opening-range machine twice,
batch and online, as functions and as the loops and the in-place object of the source. `IntradayRefinement`,
`IntradayStability` and `IntradaySoundness` compare the two, append bars, and say what a validated retest means;
`IntradayRows` carries these results to raw rows of any feeds in any order, and `StructureMeaning` says by the bars
alone which state either machine is in and why it invalidates.

**The historical replay.** `VirtualTrades` is the virtual trade with its ticks, legs and the
stop-first rule, `ReplayEngine` the plan search, the entry search and the managed trade of one symbol; `TradeLegs` and
`ReplayRules` say when each leg, entry and plan occurs, by prices and times.
`ReplaySafety` bounds every trade, `ReplayCausality` shows that nothing later is looked at, `ReplayRetest` where the
plan search stops; `ReplayWitness` is a session that sells above its target.

**Two small pieces.** `TokenBucket`, and `Consensus` with `Verdicts`, which says what a verdict means for its feeds.

Three conventions run through all of it. Rows are values: reading a row copies it and writing stores the copy, as the
SQL store does; a step that raises leaves the ledger as it was, which is what a database transaction means. The slack
the service writes as `1e-9` is the setting `tolerance`, between zero and that value; zero gives the exact laws. An
operation that may raise returns `Ok` or `Raised`.

## Model

| member | source | states |
|---|---|---|
| Sizing.SizedIsLargest | src/market_brain/engines/wallet.py:45-68 | a positive quantity meets the risk, cash and notional limits exactly when it is at most the sized quantity |
| Sizing.SizingRefusal | src/market_brain/engines/wallet.py:19-68 | sizing allows a trade exactly when every guard passes and one share fits all limits |
| Sizing.SizedReport | src/market_brain/engines/wallet.py:45-68 | a sizing reports risk and cash of its shares to the cent, or the first guard that failed |
| Planning.IssuedPlanGeometry | src/market_brain/engines/plan.py:33-128 | after rounding, an issued plan keeps stop <= trigger <= zone high < first target <= second target, all on the four-decimal grid |
| Planning.IssuedPlanMultiplier | src/market_brain/engines/quality.py:21-36 | in every lane the multiplier of an issued plan is positive and never scales the risk budget up |
| PlanRules.PlanIssuedIff | src/market_brain/engines/plan.py:33-128 | a plan is issued exactly for a candidate that is not halted, scores 65, moves enough with range left, has a wide enough range and retest, a positive lane multiplier and a reachable first target |
| PlanRules.IssuedPlanLevels | src/market_brain/engines/plan.py:64-128 | entry at the range high, stop at the retest low, targets at 1.5 and 2 times the risk, zone of a quarter of the risk but at most 0.3 percent, each to the nearest grid point; times and limits as configured |
| PlanRules.PlanRefusalNames | src/market_brain/engines/plan.py:48-107 | the first condition a candidate fails names its refusal |
| PlanRules.TierMeaning | src/market_brain/engines/quality.py:8-18 | the four quality tiers by score |
| PlanRules.LaneMeaning | src/market_brain/engines/quality.py:21-36 | what each lane makes of a profile and a catalyst |
| Activation.BuyNowIff | src/market_brain/engines/activation.py:18-94 | a buy is signalled exactly for an unexpired plan with an open gate and room for one share, then for the largest feasible quantity |
| Activation.ActivatePlan | src/market_brain/engines/activation.py:18-94 | the gate-by-gate reason list holds exactly the gates that fail, gives the specified state and quantity, and is empty exactly on a buy |
| EntryRuns.ReservesIff | src/market_brain/orchestration/service.py:1131-1326 | an activation reserves exactly when no early exit is taken, the retest is valid, the price is at or above the VWAP and in the zone, the feed is authoritative, fresh enough for its kind and tight enough, and one share fits cash, risk of the trade and of the day, and notional, all written on context, settings and rows |
| EntryRuns.ReservationMeaning | src/market_brain/orchestration/service.py:1297-1337 | it then reserves the largest quantity that fits, to the cent, for the configured time, and changes nothing but that plan and the wallet totals |
| EntryRuns.EarlyExits | src/market_brain/orchestration/service.py:1131-1169 | what the early exits of an activation do: nothing, an expired plan, or a reservation given back |
| EntryRuns.BeginMeaning | src/market_brain/orchestration/service.py:1089-1129 | the first half puts an activation in flight exactly if after its sweep the wallet is seeded and the plan there, on time, and neither expired nor filled |
| EntryRuns.DecisionMeaning | src/market_brain/engines/activation.py:18-94 | what an evaluation decides when it does not buy |
| EntryRuns.AnnouncementMeaning | src/market_brain/orchestration/service.py:1170-1259 | a live reservation is announced again exactly while the retest is valid and the quote is not an unauthoritative one |
| EntryRuns.RunReservations | src/market_brain/orchestration/service.py:1131-1337 | over every run a CAPACITY_RESERVED event is logged exactly by an activation in flight whose rows and context allow it, and then once |
| Rebuilding.RebuildState | src/market_brain/ledger/replay.py:39-78 | one pass over the log computes the rows the events stand for, or the first error |
| Rebuilding.CompareTable | src/market_brain/ledger/replay.py:81-107 | the reported keys are exactly those on which the rebuilt and the stored table differ, each once, in order |
| Rebuilding.ReplayCheck | src/market_brain/ledger/replay.py:87-109 | nothing is reported exactly when the log rebuilds the stored wallet, plans, reservations and positions |
| LogRules.LastWriterWins | src/market_brain/ledger/replay.py:39-78 | for any log that replays: the wallet is that of the last event that carries one, and each plan, reservation and position is what the last event that touches it left |
| LogRules.ReplaysIff | src/market_brain/ledger/replay.py:27-78 | a log replays exactly when no event of it should carry a wallet or a position and does not |
| LogRules.StepsLog | src/market_brain/orchestration/service.py:105-1087 | each step that goes through logs its own event about its own aggregate |
| LogRules.PositionStepsLog | src/market_brain/orchestration/service.py:1707-1815 | so do stop orders and exits |
| LogRules.ImportLogs | src/market_brain/orchestration/service.py:206-224 | an import also logs an unprotected row |
| LogRules.FillLogs | src/market_brain/orchestration/service.py:1622-1654 | and so does a fill |
| ReplayAgreement.ActivationAgreesIff | src/market_brain/orchestration/service.py:1131-1372 | activation keeps log and rows in agreement exactly when it does not take its unlogged expiry branch on a plan that was still live |
| ReplayAgreement.BookFillAgrees | src/market_brain/orchestration/service.py:1534-1657 | an accepted fill leaves log and rows in agreement |
| ReplayAgreement.ReleaseAgrees | src/market_brain/orchestration/service.py:1374-1418 | a release leaves log and rows in agreement |
| ReplayAgreement.ReconcileHoldingsAgrees | src/market_brain/orchestration/service.py:226-306 | a holdings reconciliation leaves log and rows in agreement, in whatever order the rows are listed |
| Runs.RunAgrees | src/market_brain/ledger/replay.py:39-78 | over every run, raising commands included, the event log alone rebuilds the stored rows |
| Runs.ActivationNeverWritesUnlogged | src/market_brain/orchestration/service.py:1089-1156 | whatever commands ran between the two halves of an activation, the unlogged expiry write is unreachable |
| Runs.RunSound | src/market_brain/orchestration/service.py:920-1657 | in every reachable world a plan is RESERVED exactly while it has a reservation and has at most one open position |
| Runs.RunAges | src/market_brain/orchestration/service.py:1016-1085 | from one world to the next levels never move, expiry never moves earlier, FILLED and EXPIRED are never left |
| Runs.RunTriggers | src/market_brain/orchestration/service.py:1006-1087 | over every run a plan has logged one TRIGGER_HIT if it was triggered and none otherwise |
| PlanLife.RunTimed | src/market_brain/orchestration/service.py:1006-1025 | over every run a plan expires its configured time after its issue, or, once triggered, when the retest window and five more minutes have passed, whichever is later |
| PlanLife.RunFilled | src/market_brain/orchestration/service.py:1394-1408 | over every run a FILLED plan has bought shares |
| PlanLife.ReleaseMeaning | src/market_brain/orchestration/service.py:1374-1418 | a release removes that reservation and sets its plan FILLED if the reservation ran out on a plan that bought shares, and ACTIVE otherwise |
| Lifecycle.SweepIsThorough | src/market_brain/orchestration/service.py:920-973 | after a sweep no live plan and no reservation is late |
| SweepRules.SweepMeaning | src/market_brain/orchestration/service.py:920-973 | what a sweep leaves of every row: late plans EXPIRED without reservation, plans of late reservations FILLED or ACTIVE by whether they bought shares, all else untouched |
| Records.PositionRoundTrip | src/market_brain/ledger/store.py:590-625 | a position reads back as it was; stored by an older writer, each missing field takes its default and the protected share count follows the protection |
| Records.PlanRoundTrip | src/market_brain/ledger/store.py:543-566 | a plan reads back as it was; without its later fields it is active and untriggered |
| Records.WalletRoundTrip | src/market_brain/ledger/store.py:568-578 | a wallet reads back as it was, missing fields at their defaults |
| Records.ReservationRoundTrip | src/market_brain/ledger/store.py:580-588 | a reservation reads back as it was |
| StoredLog.RebuildStored | src/market_brain/ledger/replay.py:27-78 | replay on stored payloads, with the snapshot check and the decoders, computes the specified rows |
| StoredLog.StoredAgrees | src/market_brain/ledger/replay.py:27-78 | storing an event loses nothing replay looks at, errors included |
| StoredLog.RunRebuildsFromStore | src/market_brain/ledger/replay.py:39-78 | over every run the log as stored rebuilds the stored rows |
| Accounting.ReleaseBalanced | src/market_brain/orchestration/service.py:1387-1392 | a release returns exactly what was reserved, so its clamps are never reached in exact arithmetic |
| Accounting.ActivationBalanced | src/market_brain/orchestration/service.py:1311-1326 | activation keeps the books on every branch |
| Accounting.ImportBalanced | src/market_brain/orchestration/service.py:200-224 | an import moves cash into cost basis and books its risk, with or without a stop |
| FillAccounting.BookFillBalanced | src/market_brain/orchestration/service.py:1534-1618 | an accepted fill keeps reserved cash equal to the sum over reservations, and if it joins no partly exited position it keeps each of the four laws, averaged or not |
| FillAccounting.BookFillBalancedIff | src/market_brain/orchestration/service.py:1561-1567 | in exact arithmetic a fill keeps the books exactly when the position it joins was never partly exited, or it pays that position's average at an unchanged unit risk |
| FillAccounting.FillGuardIdle | src/market_brain/orchestration/service.py:1575-1586 | the fill's accounting guard cannot fire while the snaps have lost at most one tolerance |
| FillRules.FillIff | src/market_brain/orchestration/service.py:1420-1657 | in exact arithmetic, over every run whose fills join no partly exited position, a fill is booked exactly when the rows before the call allow it: live plan and reservation, price, stop, cash, limits and concurrency, written out |
| FillRules.RequestNames | src/market_brain/orchestration/service.py:1447-1467 | the first gate of plan, reservation and call that fails names the refusal |
| FillRules.PositionNames | src/market_brain/orchestration/service.py:1472-1531 | so does the first gate on the position the fill would join |
| FillRules.MissingNames | src/market_brain/orchestration/service.py:1433-1446 | and before both the first row that is missing or late |
| FillRules.FilledRow | src/market_brain/orchestration/service.py:1534-1586 | a first fill opens a row and a later one averages into it; a placed stop order covers all shares, without one the covered count stays; targets follow the average |
| FillRules.FillWrites | src/market_brain/orchestration/service.py:1588-1618 | the reservation left is priced to the cent and the plan FILLED once nothing is left |
| FillRules.FillPays | src/market_brain/orchestration/service.py:1595-1618 | the price paid leaves the cash and the wallet version moves on |
| FillAccounting.ProtectBalanced | src/market_brain/orchestration/service.py:1685-1706 | a stop change keeps the books |
| RowRules.ProtectIff | src/market_brain/orchestration/service.py:1659-1693 | over every run with open risk short by at most one tolerance, a stop order is taken exactly when it is not under the stop it is held against nor too far under the plan stop |
| RowRules.ProtectedRow | src/market_brain/orchestration/service.py:1694-1724 | it covers the remaining shares at the new stop, with new targets |
| RowRules.ExitMeaning | src/market_brain/orchestration/service.py:1772-1815 | an exit goes through for some of the remaining shares, pays its proceeds, books its result to the row and closes it with the last share |
| FillAccounting.ExitBalanced | src/market_brain/orchestration/service.py:1782-1802 | an exit, partial or full, keeps reserved cash, capital and the cover of the risk, and unless the stop is zero it never lets open risk run above the rows |
| FillAccounting.ExitBalancedIff | src/market_brain/orchestration/service.py:1782-1802 | in exact arithmetic three laws survive every exit, and open risk ends above the rows exactly when the stop is zero and the average positive |
| Witnesses.ZeroStopBreaksBooks | src/market_brain/orchestration/service.py:1782-1802 | seed, a plan with a retest low of zero, activation, fill, partial exit: the books balance before the exit, and after it open risk alone is wrong, above the rows |
| Witnesses.JoinedFillBreaksBooks | src/market_brain/orchestration/service.py:1561-1567 | partial fill, partial exit, next fill of one plan: the books balance before the last fill and not after it |
| MoneyRuns.RunReserved | src/market_brain/orchestration/service.py:1311-1590 | over every run that resets the wallet only while nothing is reserved, reserved cash is exactly the sum over the reservations |
| MoneyRuns.RunBooks | src/market_brain/orchestration/service.py:1311-1802 | over every run with one seed reserved cash is exactly the sum over reservations; if no fill joins a partly exited position, cash plus cost basis minus realized profit stays at the seeded cash and open risk covers the sum over reservations and positions, up to one tolerance per wallet version; if no exit is from a zero stop either, open risk never exceeds that sum |
| MoneyRuns.ExactBooks | src/market_brain/orchestration/service.py:1311-1802 | with a zero tolerance the totals are exact in every reachable world, each under the same conditions |
| LossRuns.RunDailyLoss | src/market_brain/orchestration/service.py:1798-1799 | over every run, re-seeds and reconciliations included, the daily loss is its value at the last reset plus what the exits since then lost, each read from the command and the row before it |
| LossRuns.ReservesWithinLossCap | src/market_brain/orchestration/service.py:1131-1326 | an activation that reserves leaves open risk and the losses actually taken together within the daily cap, up to half a cent |
| GuardRuns.ClampsIdle | src/market_brain/orchestration/service.py:1387-1392 | in every reachable world, also in the middle of a sweep, the clamp on reserved cash never acts in a release; if no fill joined a partly exited position, the clamps on open risk in a release or an exit act by at most one tolerance per wallet version, so never in exact arithmetic |
| GuardRuns.ProtectRefusedIff | src/market_brain/orchestration/service.py:1659-1706 | in every world of every run whose open risk is short of the rows by at most one tolerance, a stop order is refused exactly for a missing row, an undefined reference stop or a stop below the floor: its accounting error is never raised |
| MoneyRuns.ExactlyCovered | src/market_brain/orchestration/service.py:1311-1802 | in exact arithmetic open risk is never short, in a world or after a sweep of it, if no fill joined a partly exited position |
| Witnesses.SnapsTripTheGuard | src/market_brain/orchestration/service.py:1697-1706 | with the 1e-9 tolerance, two valid stop orders whose remainders of risk are snapped to zero make a third one, tightening the stop to the average, raise the accounting error |
| Limits.BookFillLimited | src/market_brain/orchestration/service.py:1472-1512 | a fill keeps every fill-created position inside its plan's risk and notional limits |
| Limits.BookFillStops | src/market_brain/orchestration/service.py:1472-1512 | a fill loosens no stop by more than the tolerance |
| Limits.ProtectLimited | src/market_brain/orchestration/service.py:1675-1693 | a stop change keeps every fill-created position inside its plan's limits |
| Limits.ProtectStops | src/market_brain/orchestration/service.py:1675-1693 | a stop change loosens no stop by more than the tolerance |
| LimitRuns.RunLimited | src/market_brain/orchestration/service.py:1472-1693 | in every reachable world each fill-created position obeys its limits, up to the tolerances of the gates |
| LimitRuns.ExactLimits | src/market_brain/orchestration/service.py:1472-1512 | with a zero tolerance risk <= capital x trade percent x multiplier x (1 + fill tolerance) and notional <= capital x notional percent, always |
| LimitRuns.RunStopsHold | src/market_brain/orchestration/service.py:1675-1693 | from one world of any run to the next, re-seeds and reconciliations included, no stop falls by more than the tolerance |
| LimitRuns.RunOpens | src/market_brain/orchestration/service.py:1472-1478 | without imports the open positions never exceed the configured maximum |
| LimitRuns.GatedFillIsBooked | src/market_brain/orchestration/service.py:1420-1618 | in every reachable world whose open risk is short by at most one tolerance, so in all of a run in exact arithmetic whose fills join no partly exited position, such a fill that passes the gates is booked: the accounting error is never raised |
| LimitRuns.RejectedFillIsAnOffer | src/market_brain/orchestration/service.py:1513-1531 | in exact arithmetic, in every reachable world, a risk rejection has a positive risk per share and advertises fewer shares than requested, and if fills join no partly exited position a positive offer is then accepted |
| FillOffers.OfferedIsLargest | src/market_brain/orchestration/service.py:1513-1531 | for a first fill the advertised quantity is the largest that passes the risk gate |
| FillOffers.OfferPassesGates | src/market_brain/orchestration/service.py:1440-1531 | the advertised quantity passes every gate the rejected one passed, and the risk gate |
| FillOffers.ReserveWithinCaps | src/market_brain/orchestration/service.py:1311-1326 | a BUY_NOW for a plan that does not scale its budget up claims no more than the free cash, nor more risk than the day has left, by more than half a cent |
| LimitRuns.RunReservesWithinCaps | src/market_brain/orchestration/service.py:1131-1372 | in every reachable world, if quality profiles never scale a budget up, an activation that reserves ends with reserved cash within the cash and open risk within the daily cap, up to half a cent |
| Service.DecisionService.SeedWallet | src/market_brain/orchestration/service.py:90-114 | the method makes exactly the specified transition or raises and changes nothing |
| Service.DecisionService.ReconcileWallet | src/market_brain/orchestration/service.py:116-144 | open risk is recomputed from the open positions by one loop, raising on one without a stop |
| RowRules.SeedMeaning | src/market_brain/orchestration/service.py:90-114 | a seed needs positive capital and cash of at most twice that, and starts the wallet clean |
| RowRules.ReconcileWalletMeaning | src/market_brain/orchestration/service.py:116-144 | open risk becomes, to the cent, what the open rows can lose to their stops; every open row needs one |
| Service.DecisionService.ImportPosition | src/market_brain/orchestration/service.py:146-224 | the method makes exactly the specified transition, comparing and storing symbols in upper case |
| RowRules.ImportIff | src/market_brain/orchestration/service.py:146-166 | an import goes through exactly for a priced lot of a symbol not held |
| RowRules.ImportWrites | src/market_brain/orchestration/service.py:167-224 | its row, targets, protection, cost and risk |
| Service.DecisionService.ReconcileHoldings | src/market_brain/orchestration/service.py:226-306 | declaring, grouping and marking by normalised symbol gives the specified reconciliation of every row at once |
| RowRules.HoldingsMeaning | src/market_brain/orchestration/service.py:226-306 | exactly lists of distinct symbols with positive quantities are taken; each open row is RECONCILED, MISSING or UNRECONCILED by whether the broker holds what the rows of its symbol hold together |
| Service.DecisionService.IssuePlan | src/market_brain/orchestration/service.py:873-918 | the method issues the specified plan or raises |
| Service.DecisionService.SweepExpired | src/market_brain/orchestration/service.py:920-973 | the two loops release and expire everything late, count what they released and leave nothing late |
| Service.DecisionService.RecordTriggerHit | src/market_brain/orchestration/service.py:1006-1087 | a hit is recorded exactly when the plan is active, untriggered and not late |
| Service.DecisionService.Activate | src/market_brain/orchestration/service.py:1089-1129 | sweep, early exits and the evaluating transaction make the specified transition and keep log and rows in agreement |
| Service.DecisionService.ReleaseReservation | src/market_brain/orchestration/service.py:1374-1418 | the method makes exactly the specified transition and says whether anything was released |
| Service.DecisionService.ConfirmFill | src/market_brain/orchestration/service.py:1420-1657 | context, gates, averaging and wallet update make the specified transition; a rejection also rolls back the sweep |
| Service.DecisionService.ProtectPosition | src/market_brain/orchestration/service.py:1659-1724 | the method makes exactly the specified transition |
| Service.DecisionService.ConfirmExit | src/market_brain/orchestration/service.py:1772-1815 | the method makes exactly the specified transition |
| Bars.MergeKeepsBest | src/market_brain/engines/intraday.py:339-355 | the bar kept for a minute is one of the rows and no row of its minute is better |
| Bars.MergeDependsOnSet | src/market_brain/engines/intraday.py:339-355 | merging depends on which bars there are, not on their order or repetition |
| Bars.MergedBars | src/market_brain/engines/intraday.py:339-355 | one pass and a sort give the best bar of each minute in minute order |
| IntradayRows.KeptFeed | src/market_brain/engines/intraday.py:339-355 | the bar kept for a minute is of the consolidated feed if there is one, else of the single exchange |
| Intraday.WalkBars | src/market_brain/engines/intraday.py:98-165 | the main loop, with its early return, computes the specified structure |
| Intraday.ComputeStructure | src/market_brain/engines/intraday.py:45-165 | merging, the session filter, the range and the loop together compute the specified structure |
| Intraday.OnlineStructure.Accept | src/market_brain/engines/intraday.py:185-312 | the in-place update changes the object to the specified structure or reports the bar |
| IntradayStability.StructureDependsOnSet | src/market_brain/engines/intraday.py:45-165 | the batch structure is unchanged by permuting or repeating its input |
| IntradayStability.OutrankedRowsAreIgnored | src/market_brain/engines/intraday.py:339-355 | where a better-ranked feed has the minute, adding bars of lower-ranked feeds changes nothing |
| IntradayStability.LaterRowsKeepDecision | src/market_brain/engines/intraday.py:112-165 | once the opening range is complete, rows of later minutes leave an INVALID structure unchanged and take RETEST_VALID only to itself or INVALID, times fixed |
| IntradayStability.FirstRetestIsLastBar | src/market_brain/engines/intraday.py:144-158 | the first prefix that is RETEST_VALID ends at its recorded retest bar |
| IntradayRefinement.BatchRefinesOnline | src/market_brain/engines/intraday.py:185-312 | on a regular session folding the online update gives the batch state, range, times and reasons, and the whole structure up to and including the first invalidation |
| IntradayRows.BatchFromRowsRefinesOnline | src/market_brain/engines/intraday.py:45-312 | the same for the batch over raw rows: the bars of the session handed over in any order and with any repetition |
| IntradaySoundness.RetestValidMeaning | src/market_brain/engines/intraday.py:112-165 | a live session is RETEST_VALID exactly when some breakout was retested inside its window while every close held; the recorded times are such a pair and no low went under the floors |
| IntradayRows.RetestValidFromRows | src/market_brain/engines/intraday.py:45-165 | the same for raw rows of any feeds in any order |
| StructureMeaning.InvalidMeaning | src/market_brain/engines/intraday.py:315-336 | the structure is INVALID exactly when some trading bar went under its floor, a buffer under the range high once a breakout is held or retested and under the range low before; the first such bar gives the reason |
| StructureMeaning.StateMeaning | src/market_brain/engines/intraday.py:98-165 | the state of a session by its bars alone: INVALID, else RETEST_VALID, else BREAKOUT_SEEN, else ARMED |
| StructureMeaning.LiveRecord | src/market_brain/engines/intraday.py:98-165 | what a live structure has recorded: its breakout or retest, and the volume-weighted price |
| StructureMeaning.GivenUpMeaning | src/market_brain/engines/intraday.py:131-158 | a breakout is given up when its window ran out or a close fell back, with that reason |
| StructureMeaning.TapeFromRows | src/market_brain/engines/intraday.py:54-70 | the bars of the session and the extremes of its opening minutes, from raw rows |
| StructureMeaning.StateFromRows | src/market_brain/engines/intraday.py:45-165 | the same state for raw rows of any feeds in any order |
| StructureMeaning.WaitingFromRows | src/market_brain/engines/intraday.py:72-86 | before the range is complete: INVALID exactly when a confirmed minute carries no bar |
| StructureMeaning.OnlineState | src/market_brain/engines/intraday.py:185-312 | the online fold is in the state its bars say, breaches and reasons included |
| StructureMeaning.UpdateMeaning | src/market_brain/engines/intraday.py:185-231 | which bars the online update refuses and which it passes over |
| StructureMeaning.OnlineGap | src/market_brain/engines/intraday.py:232-256 | a gap in the opening minutes invalidates the online structure for good |
| VirtualTrades.TicksExist | src/market_brain/replay/engine.py:81-95 | ticks exist exactly for a bar with four positive prices whose high and low enclose open and close |
| VirtualTrades.TicksSpanTheBar | src/market_brain/replay/engine.py:81-95 | the ticks run from open to close inside the minute and span exactly low and high |
| VirtualTrades.AdvanceAccounted | src/market_brain/replay/engine.py:420-458 | every advance keeps the books of the trade: remainder 1, one half or 0, at most two legs, first target at most once and first, every exit within the limits |
| VirtualTrades.ClosedTradeBounds | src/market_brain/replay/engine.py:494-510 | a closed trade lost at most its risk and gained at most its ceiling, after rounding |
| VirtualTrades.StopFirstIsWorst | src/market_brain/replay/engine.py:428-433 | for a bar that touches stop and next target no ordering of its ticks reports less than the stop-first result |
| VirtualTrades.StopFirstIsAttained | src/market_brain/replay/engine.py:428-433 | the ordering that visits the low first reports exactly the stop-first result |
| VirtualTrades.OpenAfterTick | src/market_brain/engines/position.py:13-51 | a trade that a tick leaves open was marked strictly between its stop and its second target |
| VirtualTrades.ExitsBelowTargetIff | src/market_brain/replay/engine.py:435-447 | all exits stay at or below the second target, for all ticks, exactly when the fill does |
| TradeLegs.LegsMeaning | src/market_brain/replay/engine.py:435-458 | the legs of a trade after any ticks: none exactly while no tick is at or under the stop, at or over the first target, or late and under the fill; the first that is closes all or takes half at the first target; the other half goes to the first later tick that closes |
| TradeLegs.FirstTargetIff | src/market_brain/replay/engine.py:452-457 | for a fill under the first target the first leg is the first target exactly when the first marking tick lies between the targets |
| TradeLegs.UntouchedMeaning | src/market_brain/replay/engine.py:435-458 | a trade left without a leg was marked strictly between stop and first target |
| ReplayRules.TicksInOrder | src/market_brain/replay/engine.py:81-95 | a rising bar visits its low before its high, a falling one the reverse, at fixed seconds |
| ReplayRules.AdvanceMeaning | src/market_brain/replay/engine.py:428-433 | a bar that touches stop and next target is sold out at the stop, any other is taken tick by tick |
| ReplayRules.ResultMeaning | src/market_brain/replay/engine.py:494-510 | the reported result is what was won in units of the risk at the fill, to six places |
| ReplayRules.ManagedAction | src/market_brain/engines/position.py:13-51 | what a managed, reconciled position is told to do, by price and time |
| ReplayRules.GuardedAction | src/market_brain/engines/position.py:13-40 | what comes before: no open row, stop or failed breakout, missing stop order, missing reconciliation |
| VirtualTrades.VirtualTradeState.OnTicks | src/market_brain/replay/engine.py:420-458 | the loop over ticks changes the object to the specified trade and reports one snapshot for each new leg |
| VirtualTrades.VirtualTradeState.OnBar | src/market_brain/replay/engine.py:412-417 | a bar advances the trade as specified; an invalid bar changes nothing |
| VirtualTrades.VirtualTradeState.Close | src/market_brain/replay/engine.py:461-469 | finalizing sells what remains, or nothing |
| ReplayEngine.CollectSession | src/market_brain/replay/engine.py:652-663 | filter, sort and duplicate check give the session's bars in strict order or raise |
| ReplayEngine.SearchPlan | src/market_brain/replay/engine.py:197-224 | the loop over growing prefixes finds the first that yields a plan, skipping refusals and ending at other errors |
| ReplayEngine.SearchEntry | src/market_brain/replay/engine.py:226-262 | the loops over bars and ticks find the first tick that buys |
| ReplayEngine.RunTrade | src/market_brain/replay/engine.py:362-409 | rest of the entry bar, later bars and end of day give the specified trade |
| ReplayEngine.Run | src/market_brain/replay/engine.py:181-262 | one symbol's replay as a whole computes the specified record |
| ReplayRules.SessionMeaning | src/market_brain/replay/engine.py:652-663 | the bars of a session are its stamped rows in strict order |
| ReplayRules.PlanMeaning | src/market_brain/replay/engine.py:197-224 | the search ends at the first prefix that yields a plan, every shorter one refused |
| ReplayRules.PlannedIff | src/market_brain/replay/engine.py:264-360 | a prefix yields a plan exactly when its structure is RETEST_VALID, ranking succeeds, its prices are complete and the candidate can be planned; it is refused or breaks otherwise |
| ReplayRules.PlannedMeaning | src/market_brain/replay/engine.py:264-360 | a planned prefix ends at a validated retest; entry at the range high, stop at the low of the last bar, a minute later |
| ReplayRules.EntryMeaning | src/market_brain/replay/engine.py:226-262 | the entry is the first buying tick after the bar of the plan, over consistent bars |
| ReplayRules.BuysIff | src/market_brain/replay/engine.py:226-249 | a tick buys exactly while the plan lives, in its zone, for a wallet of one hundred thousand in which one share fits |
| ReplayRules.OpenedMeaning | src/market_brain/replay/engine.py:250-262 | the trade opens ten basis points over the trigger and is late after half an hour |
| ReplayRules.ManageMeaning | src/market_brain/replay/engine.py:384-409 | over bars that do not span stop and first target the managed trade is the trade of all their ticks |
| ReplayRules.EndOfDayMeaning | src/market_brain/replay/engine.py:393-409 | what is still open is sold at the last close |
| ReplaySafety.FillWithinTarget | src/market_brain/replay/engine.py:250 | with a minimum risk of 0.1 percent or more the slipped fill never passes the second target |
| ReplayWitness.SlippedFillSellsAboveTarget | src/market_brain/replay/engine.py:181-262 | with a minimum risk of 0.01 percent, the replay of five bars issues a plan, buys at a slipped fill above its second target, and sells above that target at the time stop |
| ReplaySafety.EntryHasRisk | src/market_brain/replay/engine.py:65-69 | the risk check of the virtual trade never refuses an entry of the replay |
| ReplaySafety.LastMark | src/market_brain/replay/engine.py:384-393 | the close that ends the day is a mark the open trade has already survived |
| ReplaySafety.ReplayTradeBounds | src/market_brain/replay/engine.py:181-262 | every trade the replay opens exits between its stop and its second target (or its fill, where slippage put that higher), in at most two legs that make up the whole trade, with a result of at least minus one and at most that ceiling, for the largest quantity the replay wallet admits |
| ReplayCausality.PlanHasNoLookAhead | src/market_brain/replay/engine.py:264-288 | the plan is a function of the prefix that ends at its bar and of the benchmark bars before its creation |
| ReplayCausality.ClosedBeforeCut | src/market_brain/replay/engine.py:384-393 | a trade whose last exit precedes a bar was closed on the bars before it |
| ReplayCausality.NoLookAhead | src/market_brain/replay/engine.py:181-262 | two feeds that agree before a moment give the identical trade record, if the trade is closed on the bars before it |
| ReplayCausality.ClosedTradeIsFixed | src/market_brain/replay/engine.py:181-262 | a trade closed on some bars is the trade of every session that begins with them |
| ReplayCausality.ClosedByRecord | src/market_brain/replay/engine.py:384-393 | a trade record whose last exit precedes a moment the session goes beyond was closed on the bars before that moment |
| ReplayRetest.SearchStopsAtRetest | src/market_brain/replay/engine.py:197-208 | on minute bars the first prefix seen as RETEST_VALID ends exactly at the retest bar |
| TokenBucket.GrantsWithinForwardTime | src/market_brain/providers/rate_limit.py:28-42 | in every window of every trace, whatever the clock does, grants cost no more than a full bucket and what the window's forward time earns |
| TokenBucket.GrantsPerWindow | src/market_brain/providers/rate_limit.py:28-42 | with a monotone clock N grants in d seconds satisfy N(1 - 1e-9) <= capacity + rate x d, for every interleaving of callers |
| TokenBucket.NewBucketMeaning | src/market_brain/providers/rate_limit.py:8-26 | a limiter of N calls a minute exists for positive numbers only, starts full and earns exactly N calls in a minute |
| TokenBucket.GrantsPerMinute | src/market_brain/providers/rate_limit.py:8-42 | no minute grants more than the burst and the calls of one minute, up to the slack |
| TokenBucket.ClockRunningBack | src/market_brain/providers/rate_limit.py:31-37 | a clock that runs back breaks the bound in elapsed time |
| TokenBucket.RefusalIsForced | src/market_brain/providers/rate_limit.py:38-41 | a refusal happens only when one more grant would exceed the bound on some window |
| TokenBucket.SleeperIsGranted | src/market_brain/providers/rate_limit.py:38-42 | a refused caller without competition is granted on its next turn exactly when it slept the computed wait |
| TokenBucket.TokenBucketRateLimiter.Turn | src/market_brain/providers/rate_limit.py:30-41 | one pass under the lock changes the bucket as specified and grants or names the wait |
| TokenBucket.TokenBucketRateLimiter.Acquire | src/market_brain/providers/rate_limit.py:28-42 | a caller without competition sleeps the computed wait, wakes no earlier, and is granted on its first turn or on its second |
| Consensus.NeverCrossed | src/market_brain/engines/consensus.py:35-107 | an accepted snapshot has bid <= ask and a positive price |
| Consensus.QuorumAgrees | src/market_brain/engines/consensus.py:58-107 | an accepted price lies between the extremes of at least the required number of sources, which differ by at most the divergence limit |
| Verdicts.VerdictMeaning | src/market_brain/engines/consensus.py:35-107 | the verdict by the samples alone: none usable, an authoritative one, too few sources, two sources too far apart, or a quorum |
| Verdicts.QuorumSnapshot | src/market_brain/engines/consensus.py:58-107 | last, bid and ask of a quorum are each half way between the two middle values of its sources; the rest is that of a youngest source |
| Verdicts.MiddleUnique | src/market_brain/engines/consensus.py:74-89 | there is only one such middle |
| Verdicts.MiddleHalves | src/market_brain/engines/consensus.py:74-89 | at most half of the sources lie strictly below it and at most half strictly above |
| Verdicts.QuorumDivergence | src/market_brain/engines/consensus.py:74-107 | the reported divergence is the spread of the sources in basis points of the price |
| Verdicts.FullMarketSnapshot | src/market_brain/engines/consensus.py:46-55 | a full-market verdict is a usable authoritative sample, the youngest of those |
| Verdicts.RefusedVerdict | src/market_brain/engines/consensus.py:66-85 | an insufficient or conflicting quorum names its sources and carries no snapshot; a conflict reports its spread |
| Verdicts.FreshestIsFirst | src/market_brain/engines/consensus.py:46-87 | of several equally young samples the first in the list is chosen |
| Verdicts.KeptIsFirst | src/market_brain/engines/consensus.py:58-64 | and so for the sample kept for a group |
| Verdicts.AgeMeaning | src/market_brain/engines/consensus.py:52-87 | a missing age and an age of zero count as a billion seconds |
| Consensus.ResolveIgnoresOrder | src/market_brain/engines/consensus.py:35-107 | without ties in age among the valid samples the verdict and the accepted snapshot depend on the set of samples only |
| Consensus.ResolveIgnoresOrderOfDistinctAges | src/market_brain/engines/consensus.py:35-107 | the same when the valid samples have distinct true ages |
| Consensus.FreshestIsYoungestIff | src/market_brain/engines/consensus.py:52 | the sample chosen from several is really the youngest exactly when no sample of age zero stands beside another |
| Consensus.AuthorityIsYoungestIff | src/market_brain/engines/consensus.py:46-55 | so the authoritative sample behind a full-market verdict is the youngest exactly under that condition |
| Consensus.KeptIsYoungestIff | src/market_brain/engines/consensus.py:58-64 | the row kept for a group is its youngest exactly when no row of age zero shares the group with another |
| Consensus.AgeZeroLoses | src/market_brain/engines/consensus.py:62 | a sample of age zero loses to one five seconds old |
| Consensus.ResolveMarketAuthority | src/market_brain/engines/consensus.py:35-107 | filling the dictionary row by row computes the specified verdict |

## Left out

What the code does and a reader might expect otherwise:

- A fill that joins a partly exited position breaks the books, because the old risk is taken with the whole quantity while exits work per sold share; the exact condition is FillAccounting.BookFillBalancedIff, a run that does it Witnesses.JoinedFillBreaksBooks.
- An exit from a position whose stop is exactly zero gives no risk back, because `position.stop or position.average_fill` takes zero for no stop, and a retest low of zero does issue such a plan. Open risk then stays above what the rows carry, while cash and reserved cash stay right; the exact condition is FillAccounting.ExitBalancedIff, a run that does it Witnesses.ZeroStopBreaksBooks.
- A stopless import keeps its whole notional as open risk for ever, since exits give nothing back; the risk law counts it so and needs no exception.
- Slippage can put the fill above the second target when the minimum risk is below 0.1 percent; a time stop may then sell above that target (VirtualTrades.ExitsBelowTargetIff, a session that does it ReplayWitness.SlippedFillSellsAboveTarget).
- Snapping remainders of open risk under 1e-9 to zero adds up: after two such snaps a stop order that tightens the stop raises `WALLET_ACCOUNTING_INVARIANT_BROKEN` (Witnesses.SnapsTripTheGuard); while the shortfall is at most one tolerance it cannot (GuardRuns.ProtectRefusedIff).
- An age of exactly zero counts as the oldest sample (Consensus.KeptIsYoungestIff, Consensus.FreshestIsYoungestIff).

Statements that are deliberately weaker, or carry a condition:

- MoneyRuns.RunBooks: assumes one seed and no wallet reconciliation, because both reset the totals without touching the rows; capital and open risk also no fill on a partly exited open position, and the upper bound on open risk no exit from a zero stop. A snap to zero can lose up to one tolerance of a true total, hence the slack.
- Runs.RunAgrees: identifiers drawn by a step are fresh, the listing of a holdings reconciliation is complete, and events of other kinds carry no rows.
- LimitRuns.GatedFillIsBooked: with the 1e-9 tolerance, open risk may be short by at most one tolerance, and the fill joins no partly exited position.
- LimitRuns.RunReservesWithinCaps: quality profiles carry a multiplier of at most one, as every profile the repository makes does.
- LimitRuns.RejectedFillIsAnOffer: exact arithmetic only; with the tolerance a position may already carry up to one tolerance more risk than its gate allows, and the advertised quantity then can reach the requested one.
- Records.PlanRoundTrip: plans in the model always carry their three levels, so a stored plan with a missing level is refused where the source reads it as absent; lane, reasons, evidence hash and source list are not part of the record.
- Records.WalletRoundTrip: a negative count in a stored row is refused where the source would pass it on.
- ReplayCausality.NoLookAhead: the rows of both feeds must be readable, because one unreadable row anywhere makes the whole replay raise; a trade sold only because the data ended is not closed.
- ReplayEngine.SearchPlan: what ranking computes from prefix and benchmark is a parameter; the first error among several raising reads may differ in name.
- Consensus.ResolveIgnoresOrder: the list of source names keeps the order of the input, and the joined source text of the accepted snapshot is a constant here.
- IntradayRefinement.BatchRefinesOnline: bars are well formed, on the minute, strictly increasing and inside the session, with a complete opening range of positive width; after the first invalidation only the online tape goes on.

Not modelled:

- Updates in place through shared row objects: the in-memory store hands out its own objects and rolls nothing back, the model follows the SQL store.
- Text of reasons inside events, alerts, order tickets, evidence hashes, notification hooks and liquidity reasons of an activation.
- Upper-casing outside the letters a to z, and white space other than blanks, tabs and line ends.
- Parsing of JSON, timestamps and time zones; identifiers are integers whose order stands for the order of the texts.
- Float rounding noise; the decimal rounding to 2, 4 and 6 places is modelled.
- The SQL of the Postgres store, the runtime status table and intraday bar storage.
- Feature scoring, catalyst rules, volatility preparation, and the report and summary of a replay: single-branch arithmetic without state.
- HTTP providers, streaming, routes, state publishing, lease, session, radar and premarket scheduling.
- Waiting itself: the token bucket is a trace of polls, the order in which sleeping callers wake is any order.
