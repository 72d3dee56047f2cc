# AST Model 1 lifecycle, in Dafny

This project models the process lifecycle of AST Model 1 as the NestJS services implement it, and proves
what the system promises over every sequence of calls. `dafny verify dfyconfig.toml` checks all of it.

## What is modelled

The services share one append-only, hash-linked log (NodeChain) and one deterministic clock. A request is
recorded, assigned to nodes, executed, judged from the recorded evidence (PoT), and, behind a positive
verdict only, minted, charged a fee and burned. Fees collect in epoch pools; finalizing an epoch pays three
quarters of the pool to the nodes by confirmed work and keeps a quarter for the reserve. A second,
hash-linked oversight ledger (the All-Seeing Eye) watches. A release gate opens once, when the economy is
mature. The same facts live in several places at once: the ledger row, the verdict table, the epoch rows,
in-memory indexes and the log. Most theorems say that these never disagree.

Three layers:

1. **Services.** One module per service. The objects that change their fields are classes (`NodeChainService`,
   `StateRecordingService`, `PotService`, `ArosCoinService`, `EmissionService`, `NodesService`, `ReserveService`,
   `CommissionService`, `ReleaseService`, `AllSeeingEyeService`, `OrchestratorService`); their loops carry
   invariants, and every method is proved against a function of the old state.
2. **The system as a state machine.** `Lifecycle` holds the whole state (`World`), one function per public call
   and the answer it gives; `Calls` makes each of the ten calls on the wired services and proves that state and
   answer are exactly these. A run of the system (`IsRun`) is any
   finite list of calls on a fresh stack, each carried to completion, with the states they lead through; the
   theorems are about every state of every run. A process may be rejected, cut short by an unregistered node,
   or repeated. *Orchestrated* calls are process runs, finalizations, registrations, activations and the Eye's
   audit; the other calls reach into a single service (capture, verify, emit, accrue, failed work).
3. **Whole-run theorems.** `Soundness`/`CallInvariants` (stored rows are the replay of an intact log),
   `RecordedEvidence` (the in-memory index and every verdict against the log), `VerdictLinks` (every verdict against
   its own record), `Progress` (when a call gets through), `Authorization` and `Repetition` (what mints, and what
   mints again), `Conservation` (fees in total), `FeeFlow` (fees epoch by epoch), `WorkCounts` (who is assigned, and
   how work is counted), `ReleaseGate` (exactly when the economy is released), `History` and `Progression` (what the
   log says and what nothing takes back), `Finalization`, `Trace`, `Transcripts` / `CallTranscripts` / `Timeline` /
   `Answers` (every record, note, stamp and answer of every call, written out), `Erasure` and `OversightAudit` (the
   Eye), `ChainAudit` and `OversightBinding` (what the two audits detect), `SupplyArithmetic` (any rounding),
   `LedgerInit` (interleaved access to the ledger row), and `RosterRuns` / `ReferenceSimulation` (agreement with the
   reference implementation, itself modelled in `ReferenceChain`, `ReferenceSettlement` and `Reference`).

SHA-256, `JSON.stringify`, number printing, the text of an observation and `log10` are parameters (`Env`).
Nothing is assumed of them except where a theorem says so (`SoundEnv`, `HashesAreDigests`, `Readable`,
`Monotone`), and security statements have the form "equal, or here are two strings that collide". Amounts, fees
and weights are reals; the supply laws are proved once more for an arbitrary, rounding arithmetic.

## Where the code and its documentation part ways

The model follows the code. Each of these is a theorem here.

- `sortKeys` promises alphabetical keys. JavaScript enumerates integer-like keys first and numerically, and an
  own property named `__proto__` is lost; the copy is alphabetical exactly when the alphabetical order is one
  the engine can enumerate (`JsObject.SortKeysAlphabeticalIff`, `JsObject.SortKeysNotAlphabetical`). What the
  hash needs, one canonical form per mapping, does hold (`JsObject.SortKeysCanonical`).
- The result field `events` promises the events recorded during the run. A repeated run reports `pot.verified`
  although nothing is recorded; the list is right exactly when the request was turned away or the process had
  no verdict yet (`Trace.ReportedEvents`; a run that gets it wrong is in `Repetition.RepeatedRunMintsAgain`).
- PoT promises that emission cannot be authorized twice off one process. There is one verdict per process, but two
  kinds of call mint behind it, each time they are made: an admitted run of the process and a direct emission of a
  confirmed one. A process is minted more than once exactly when two such calls are made
  (`Authorization.MintsAgainIff`; `Repetition.RepeatedRunMintsAgain` is a run that does it).
- A run cut short by an unregistered node yields nothing, yet it has recorded all the evidence a verdict asks for:
  verified directly afterwards, the process is confirmed unless a negative verdict stood before
  (`RecordedEvidence.CutShortLeavesEvidence`).
- The ledger's record methods read the row, add, and save. The tallies add up all along exactly when no save is raced
  (`LedgerInit.AlwaysAddsUpIff`, `LedgerInit.RacedUpdateLost`), and positive amounts, once lost, stay lost
  (`LedgerInit.AddsUpIffRaceFree`).
- `accrue` speaks of the open epoch, yet never looks at the status: fees can land in a finalized row. What a call
  brings into an epoch can be told before it is made (`FeeFlow.FeeInto`). A closed row paid out and kept the sum of
  that over the calls before the closing one and holds, on top, the sum over the calls since
  (`Finalization.ClosedEpochBalance`); a finalized epoch reads back unchanged exactly when none of the calls in
  between brings a fee (`Finalization.FinalizedOnce`).
- The NodeChain hash covers payload, link and sequence number only. Rewriting a record that is not the last goes
  unnoticed exactly when all of these, and the stored hash, stay what they were (or collide): event type and
  timestamp are free (`ChainAudit.RewriteUnnoticedIff`, `ChainAudit.UnhashedEditUndetected`). The last record can be
  rewritten wholly, with its hash recomputed (`ChainAudit.LastRewriteUnnoticedIff`), and the tail can be dropped
  (`ChainAudit.TruncationUndetected`).
- The oversight ledger hashes event type, layer, description, link and timestamp run together: a rewrite of what an
  entry reports is detected when their concatenation changes (`OversightBinding.ReportEditDetected`), while moving
  text from one field to the next, or changing the id, is not (`OversightBinding.EyeRewriteUnnoticedIff`).
- The comments of Reserve and Commission disagree on whether the reserve share enters the volume. The code
  counts the margin of a closing record once and ignores the accrual record (`EventSourcing.ReplayIsSums`,
  `History.EventSourced`).
- Production is said to mirror the reference step for step; the weight formulas differ (per participation
  against growing with the number of units), so do the reserve volumes, by the margins, and so does finalizing
  without any work. The payments agree all the same, epoch after epoch (`ReferenceSimulation.SettlementsAgree`,
  `ReferenceSimulation.LedgersAgree`, `ReferenceSimulation.EmptySettlementsDiffer`).

## Model

| member | source | states |
|---|---|---|
| `Conservation.FeeConservation` | src/orchestrator/orchestrator.service.ts:162-175 | After any orchestrated calls, repeats, rejections and aborts included: retained by nodes + reserve total + pending fees is exactly minted / 200 |
| `Conservation.CanonicalSplit` | src/commission/commission.service.ts:130-160 | After any orchestrated calls nodes hold exactly three times the reserve, total supply is what they hold, and it is at most 3/800 of everything minted |
| `Conservation.SplitBound` | src/commission/commission.service.ts:101-180 | With direct service calls mixed in (bare fees, failed work, negative verdicts) nodes hold at most three times the reserve, supply still equals the retained value, and no fee is lost |
| `Conservation.FeesAccountedFor` | src/reserve/reserve.service.ts:70-80 | In any sound state every fee ever accrued is retained, in the reserve, or pending, and pending is never negative |
| `Conservation.GateProgress` | src/orchestrator/orchestrator.service.ts:117-157 | After any orchestrated calls a request is verified, mints its amount and pays half a percent if and only if it is admissible and every node it names is registered: no negative verdict can be in the way |
| `Conservation.FinalizeProgress` | src/commission/commission.service.ts:203-214 | After any orchestrated calls finalizing succeeds if and only if the epoch exists: no participant is ever unknown |
| `Progress.GateOpens` | src/orchestrator/orchestrator.service.ts:111-175 | In every sound state, direct calls included: a run is verified, mints its amount and pays half a percent if and only if it is admissible, every node it names is registered and no negative verdict is on record; it yields value in no other case |
| `Progress.SettlesIff` | src/commission/commission.service.ts:124-130 | In every state finalizing succeeds if and only if the epoch exists and, while it is open, every participant of a confirmed process is registered |
| `Progress.MintNeverRefuses` | src/emission/emission.service.ts:71-75 | From any state whatever, a run never ends in the mint's refusal, although the mint reads the verdict again: the orchestrator's own reading agrees with it |
| `Authorization.CallMints` | src/emission/emission.service.ts:55-79 | In every sound state each of the ten calls adds exactly one mint record for a process if it is an admitted run of it or a direct emission behind its positive verdict, and none otherwise |
| `Authorization.OneMintPerAuthorization` | src/emission/emission.service.ts:55-79 | At every position of every run, direct calls included, a process has exactly as many mint records as calls that authorized it |
| `Authorization.MintsAgainIff` | src/pot/pot.service.ts:53-57 | In every run of all ten calls a process is minted more than once if and only if two calls authorize it, each told from the state before it; a call mints a process minted before if and only if it authorizes that |
| `Conservation.EarnedRun` | src/orchestrator/orchestrator.service.ts:139-157 | An orchestrated run keeps the fee invariant, and its post-admission "unverified" branch is unreachable |
| `CallInvariants.Reachable` | src/orchestrator/orchestrator.service.ts:61-78 | In every reachable state the log audits as intact and ledger, verdicts, epochs, phase and reserve are what its replay yields; between calls no mint awaits its burn |
| `CallInvariants.SoundExec` | src/orchestrator/orchestrator.service.ts:99-216 | Every public call, orchestrated or direct, keeps that invariant |
| `CallInvariants.SoundRun` | src/orchestrator/orchestrator.service.ts:99-201 | A run ends sound and at rest whether it is rejected, cut short, refused or completed |
| `CallInvariants.SoundSettle` | src/commission/commission.service.ts:124-180 | A settlement keeps ledger, rows and log in agreement, late fees included |
| `History.EventSourced` | src/aroscoin/aroscoin.service.ts:80-107 | After any calls the tallies are the log sums of mints, burns and payments, the verdict table is the map read from the verdict records, one per process, the reserve total is the sum of logged margins and volume is minted plus margins |
| `History.EmissionDiscipline` | src/emission/emission.service.ts:55-89 | After any calls the emission records of the whole log pair off as mint then burn of one process and amount, and every mint stands behind an earlier positive verdict of its process |
| `History.RecordsAreFinal` | src/nodechain/nodechain.service.ts:24-26 | The log is append-only, and a verdict once issued is never changed by any later call |
| `History.ReserveNeverFalls` | src/reserve/reserve.service.ts:49-101 | Confirmed volume never falls, nor does the reserve index of a monotone logarithm |
| `History.ReleaseJustified` | src/release/release.service.ts:101-127 | After any calls the phase is active if and only if the log holds exactly one activation; its recorded figures exceed its recorded bounds and equal those of the phase row |
| `History.ReleaseIsForever` | src/release/release.service.ts:105-107 | An active phase and its record are never changed by any later call |
| `History.NoReleaseWithoutEarnings` | src/release/release.service.ts:76-80 | As long as no node has been paid, no activation can happen for a non-negative velocity target |
| `History.VerdictsMeaning` | src/pot/pot.service.ts:87-100 | When the log holds no more verdict records than processes judged, its records are exactly the verdict table |
| `EventSourcing.ReplayIsSums` | src/reserve/reserve.service.ts:49-80 | The replayed tallies are plain sums over the log, and the two figures Reserve computes are among them |
| `EventSourcing.GateMeaning` | src/emission/emission.service.ts:71-79 | A replay without gate violation means: before each mint record there is a positive verdict record of its process |
| `EventSourcing.PairingMeaning` | src/emission/emission.service.ts:81-89 | A settled pairing state means: the emission records are mint, burn, mint, burn with equal process and amount |
| `Finalization.FinalizedOnce` | src/commission/commission.service.ts:124-128 | However many calls follow a finalization, finalizing again changes no commission, coin, node or chain state and reports the same distribution, margin and payments; total fees have grown by the sum of what the calls in between brought into the epoch; the result is the same as a whole if and only if none of them brought a fee |
| `Finalization.ReadBack` | src/commission/commission.service.ts:244-257 | The result read back from the stored row is exactly the one just returned |
| `Finalization.ClosedEpochBalance` | src/commission/commission.service.ts:162-180 | An epoch is finalized if and only if exactly one earlier call closed it; its row paid out and kept exactly the fees of the calls before that one, holds on top exactly the fees of the calls since, and reads as reconciled if and only if those stay below 1e-9 |
| `Finalization.OneClosingRecord` | src/commission/commission.service.ts:169-176 | After any calls an epoch is finalized if and only if the log holds a closing record of it; that is the only one, and the row still shows its distribution, margin and payments |
| `Finalization.LateFee` | src/commission/commission.service.ts:106-108 | A request admitted into a closed epoch adds exactly half a percent of its amount to the stored row, changes nothing else in it and pays nobody |
| `Progression.AdvancesExec` | src/commission/commission.service.ts:219-234 | No call, direct ones included, takes back a log record, a verdict, a closed row, the release or reserve volume |
| `FeeFlow.FeeArrives` | src/commission/commission.service.ts:101-107 | Every one of the ten calls adds to an epoch's total exactly what can be told beforehand (half a percent of an admitted request into it, a bare fee, nothing else), and closes it if and only if it finalizes that very epoch while it is open with all confirmed participants registered |
| `FeeFlow.FeesArrive` | src/commission/commission.service.ts:101-107 | Between any two positions of any run an epoch's total, open or closed, rises by exactly the sum of what the calls in between bring |
| `FeeFlow.ClosedByOneCall` | src/commission/commission.service.ts:124-128 | At every position of every run an epoch is finalized if and only if one earlier call closed it, and no two calls close the same epoch |
| `Repetition.OneMintPerYieldingRun` | src/pot/pot.service.ts:53-57 | After any orchestrated calls a process has at most one verdict record and exactly as many mint records, in the log and in its trace, as there were admissible requests to run it on registered nodes |
| `Repetition.RunsAgainIff` | src/pot/pot.service.ts:53-57 | At every position of every orchestrated run the next call mints a process minted before if and only if it is an admissible request to run it, on registered nodes, and the process has its verdict |
| `Repetition.RepeatedRunMintsAgain` | src/pot/pot.service.ts:62-70 | The same admissible request run twice in a row is verified twice and mints twice under one verdict; the second run reports an event it has not recorded |
| `Trace.EveryTraceAccepted` | src/orchestrator/orchestrator.service.ts:104-188 | After any orchestrated calls the log records of every process are accepted by one fixed automaton, between runs, and judged if and only if the verdict table has the process |
| `Trace.AcceptedMeaning` | src/pot/pot.service.ts:62-103 | A trace the automaton does not reject has one verdict or none, burns what it mints, and mints only after the verdict |
| `Trace.AddsRun` | src/orchestrator/orchestrator.service.ts:99-201 | A run records its own events, in order, for its own process and nothing for any other |
| `Trace.ReportedEvents` | src/orchestrator/orchestrator.service.ts:45-46 | The reported events are the recorded ones if and only if the request was turned away or the process had no verdict before |
| `Erasure.EyeErasure` | src/orchestrator/orchestrator.service.ts:107-188 | Any calls on a stack with the Eye and on one without it get the same answers one by one and leave the same ledger, pools, nodes, verdicts and log, hashes included; only clock readings differ |
| `Erasure.SameExec` | src/common/clock.service.ts:13-19 | From states that differ in timestamps only, a call gives the same answer and states that differ in timestamps only |
| `OversightAudit.EyeReport` | src/all-seeing-eye/all-seeing-eye.service.ts:44-108 | After any calls the oversight ledger audits as intact and its alarms are the requests turned away, one each: no supply drift and no chain break is ever reported |
| `OversightAudit.NothingToReport` | src/all-seeing-eye/all-seeing-eye.service.ts:80-108 | In a sound state at rest both comparisons of the Eye are silent |
| `ChainAudit.FramingUnique` | src/nodechain/nodechain.service.ts:50-53 | The hashed string determines payload text, previous hash and sequence number although no separator stands between them |
| `ChainAudit.HeadBindsHistory` | src/nodechain/nodechain.service.ts:97-109 | Two audited chains with the same head hash have the same length and hashed content, entry by entry, or exhibit a collision at positions equally far from their ends |
| `ChainAudit.PayloadEditDetected` | src/nodechain/nodechain.service.ts:100-105 | Rewriting one payload of an intact chain is reported at that record, or yields a collision there |
| `ChainAudit.RewriteUnnoticedIff` | src/nodechain/nodechain.service.ts:97-109 | Rewriting any fields of a record that is not the last, link and hash included, goes unnoticed if it leaves payload text, link, sequence number and hash as they were, and only then unless the two contents collide; otherwise it is reported at that record or the next |
| `ChainAudit.LastRewriteUnnoticedIff` | src/nodechain/nodechain.service.ts:97-109 | A rewrite of the last record goes unnoticed if and only if it keeps the old link and stores the hash of its new content |
| `ChainAudit.DeletionDetected` | src/nodechain/nodechain.service.ts:99-106 | Deleting a record that is not the last is reported at its successor, or yields a collision |
| `ChainAudit.UnhashedEditUndetected` | src/nodechain/nodechain.service.ts:53-63 | Rewriting an event type or a timestamp never changes the audit: they are not hashed |
| `ChainAudit.TruncationUndetected` | src/nodechain/nodechain.service.ts:97-109 | Every prefix of an intact chain audits as intact |
| `ChainAudit.DecimalPrintsIntegers` | src/nodechain/nodechain.service.ts:53 | Decimal printing is injective and short on the column's integers, which is what the framing needs |
| `NodeChain.AppendKeepsIntact` | src/nodechain/nodechain.service.ts:40-66 | Every append keeps the audit positive and the numbering dense |
| `NodeChain.NodeChainService.Append` | src/nodechain/nodechain.service.ts:40-66 | Extends the log by one linked, stamped record and changes nothing else |
| `NodeChain.NodeChainService.Reconstruct` | src/nodechain/nodechain.service.ts:97-109 | Answers ok if and only if every link and hash is right, otherwise the sequence id of the first bad record |
| `JsObject.SortKeysCanonical` | src/state-recording/state-recording.service.ts:125-136 | Equal properties in any insertion order give the identical copy, enumeration order included |
| `JsObject.SortKeysIdempotent` | src/state-recording/state-recording.service.ts:130-136 | Canonicalising twice changes nothing |
| `JsObject.SortKeysMapping` | src/state-recording/state-recording.service.ts:130-136 | The copy keeps every property but one literally named `__proto__`; it is the same mapping if and only if there is no such property |
| `JsObject.SortKeysAlphabeticalIff` | src/state-recording/state-recording.service.ts:126-128 | The copy of any object is alphabetical if and only if the alphabetical order of the keys, `__proto__` left out, is one the engine can enumerate: integer-like keys first and in numeric order |
| `JsObject.SortKeysNotAlphabetical` | src/state-recording/state-recording.service.ts:126-128 | Keys "10" and "9" come back in numeric, not alphabetical, order |
| `StateRecording.SameEventSameHash` | src/state-recording/state-recording.service.ts:108-123 | Two recordings of the same logical event get the same record, hash included, at the same chain position |
| `StateRecording.StateRecordingService.Capture` | src/state-recording/state-recording.service.ts:58-73 | Appends one record of this type with process, canonical data and validator, and remembers the event type for the process |
| `StateRecording.StateRecordingService.CheckCompleteness` | src/state-recording/state-recording.service.ts:102-106 | Complete if and only if every required event is captured; the missing ones are listed in the required order |
| `CallTranscripts.MissingInOrder` | src/state-recording/state-recording.service.ts:102-106 | The missing events are those of initiation, assignment, transition and execution that lack, in this order |
| `StateRecording.StateRecordingService.SortKeys` | src/state-recording/state-recording.service.ts:130-136 | The copying loop computes the canonical copy |
| `RecordedEvidence.IndexIsLog` | src/state-recording/state-recording.service.ts:58-73 | After any calls the in-memory index holds an event of a process if and only if the log holds its capture |
| `RecordedEvidence.VerdictsFromEvidence` | src/pot/pot.service.ts:26-34 | After any calls every verdict on the log is positive if and only if the records before it capture all four required events of its process |
| `RecordedEvidence.CutShortLeavesEvidence` | src/orchestrator/orchestrator.service.ts:124-130 | A run cut short by an unregistered node moves no ledger, pool or verdict, but the verdict asked for afterwards is positive unless a negative one stood before |
| `Pot.EvidenceIffNoReason` | src/pot/pot.service.ts:115-139 | A verdict is positive if and only if no failure reason is named |
| `Pot.PotService.Verify` | src/pot/pot.service.ts:62-103 | The first call records and stores the verdict of the evidence, with the id of its own record (`VerdictLinks.VerdictsAreLinked`); every later call changes nothing and returns it |
| `VerdictLinks.VerdictsAreLinked` | src/pot/pot.service.ts:84-102 | In every state of every run each stored verdict points at a record of the chain, and that record is a verdict of its process with its outcome and its reasons, written one tick before the row |
| `CallTranscripts.ReasonsAre` | src/pot/pot.service.ts:115-139 | The reasons of a verdict are, in order, one for each required event that lacks, and one for a broken chain if anything was captured |
| `Pot.PotService.FailureReasonList` | src/pot/pot.service.ts:121-139 | The list built is the missing events in order, then a broken chain; empty if and only if every criterion holds |
| `ArosCoin.ArosCoinService.ReadLedger` | src/aroscoin/aroscoin.service.ts:56-77 | Creates the zero row on first access only and never changes the tallies |
| `ArosCoin.ArosCoinService.SupplyView` | src/aroscoin/aroscoin.service.ts:141-147 | The view handed to the Eye is derived from the tallies and leaves them alone |
| `Emission.EmissionService.Mint` | src/emission/emission.service.ts:71-79 | Refuses, changing nothing, if and only if the process is not confirmed; otherwise tally and log both gain the amount |
| `Emission.EmissionService.Emit` | src/emission/emission.service.ts:55-64 | Authorized if and only if confirmed; mints and burns the same amount, so total supply never changes |
| `Nodes.SuccessKeepsFullWeight` | src/nodes/nodes.service.ts:77-86 | A node that has never failed keeps weight and reputation one through successful work |
| `Nodes.WorkKeepsWeightBounds` | src/nodes/nodes.service.ts:111-122 | Failures included, a node's weight stays its success rate, between zero and one |
| `Nodes.NodesService.RecordExecution` | src/nodes/nodes.service.ts:77-86 | Counts one attempt of exactly that node, as a success only if it was one, and refreshes its success rate (`WorkCounts.ExecutionCounts`); an unknown id changes nothing |
| `Nodes.NodesService.ReceivePayment` | src/nodes/nodes.service.ts:102-109 | Logs a receipt and leaves every node row untouched |
| `Settlement.WeighRight` | src/commission/commission.service.ts:198-217 | Weighing fails if and only if a confirmed participant is unregistered; otherwise exactly the nodes of confirmed processes carry weight |
| `Settlement.WeightClosedForm` | src/commission/commission.service.ts:203-215 | A node's accumulated weight is the number of its confirmed participations times its present weight |
| `Settlement.DistributionClosedForm` | src/commission/commission.service.ts:139-150 | One entry per node that took part in a confirmed process, in ascending id order, and nobody else is paid |
| `Settlement.PaymentClosedForm` | src/commission/commission.service.ts:142-149 | Each entry is count x weight x 0.75 x pool / total weight |
| `Settlement.SplitShares` | src/commission/commission.service.ts:133-154 | With confirmed weight nodes get exactly three quarters and the reserve a quarter; without, the reserve keeps the whole pool |
| `Settlement.SplitReconciles` | src/commission/commission.service.ts:152-168 | The logged entries, reserve entry included, sum exactly to the pool |
| `Settlement.SplitIgnoresArrivalOrder` | src/commission/commission.service.ts:139-142 | Any permutation of the remembered participations gives the identical distribution, or fails alike |
| `Strings.BelowComparesUnits` | src/commission/commission.service.ts:141 | The order the sorts use on strings is the lexicographic order of their UTF-16 code units, also where it differs from that of code points |
| `Commission.CommissionService.Accrue` | src/commission/commission.service.ts:101-114 | Adds the fee to the stored row whatever its status, or opens one, and appends the participations |
| `Commission.CommissionService.ConfirmedWeights` | src/commission/commission.service.ts:198-217 | The loop with its verdict cache computes the uncached weights |
| `Commission.CommissionService.PayNodes` | src/commission/commission.service.ts:142-149 | One receipt and one earned amount per listed node; paid is the sum of the entries |
| `Commission.CommissionService.FinalizeEpoch` | src/commission/commission.service.ts:124-180 | Settles an open epoch completely or changes nothing: unknown epoch, unknown participant and finalized epoch each answer without effect |
| `Reserve.ReserveService.TotalProcessVolume` | src/reserve/reserve.service.ts:49-62 | The loop computes the sum of minted amounts and positive margins over the log |
| `Reserve.ReserveService.TotalAfcReserve` | src/reserve/reserve.service.ts:70-80 | The loop computes the sum of accrual records over the log |
| `Release.VelocityExceeds` | src/release/release.service.ts:76-80 | Velocity exceeds a non-negative target if and only if there is supply and the volume exceeds target times supply |
| `Release.ReleaseService.Activate` | src/release/release.service.ts:101-127 | Activates, records and stores if and only if inactive and mature (what that means: `ReleaseGate.ActivatesIff`); otherwise phase and log stay as they are |
| `ReleaseGate.ActivatesIff` | src/release/release.service.ts:76-127 | In every reachable state an inactive phase is activated if and only if log10(1 + everything minted + margins of closed epochs) exceeds the threshold and the volume exceeds target times supply (without supply: 0 exceeds the target); phase and record then carry these two figures, the given bounds and the next two ticks, and otherwise nothing changes |
| `ReleaseGate.ReleasedIff` | src/release/release.service.ts:101-127 | At every position of every run the phase is active if and only if some call so far asked for activation while that condition held |
| `AllSeeingEye.EntryKeepsIntact` | src/all-seeing-eye/all-seeing-eye.service.ts:44-69 | Every observation keeps the oversight ledger's self-audit positive |
| `AllSeeingEye.AllSeeingEyeService.CompareSupply` | src/all-seeing-eye/all-seeing-eye.service.ts:80-90 | Logs an anomaly if and only if supply and retained value differ; nothing else changes |
| `AllSeeingEye.AllSeeingEyeService.VerifyChain` | src/all-seeing-eye/all-seeing-eye.service.ts:98-108 | Reports the chain's audit and logs an anomaly exactly when it is broken |
| `AllSeeingEye.AllSeeingEyeService.VerifyLog` | src/all-seeing-eye/all-seeing-eye.service.ts:117-130 | Answers ok if and only if every link and hash of the oversight ledger is right, otherwise the first bad entry; what the hashes cover is stated by `OversightBinding.ReportEditDetected` |
| `OversightBinding.ReportEditDetected` | src/all-seeing-eye/all-seeing-eye.service.ts:117-130 | Rewriting event type, layer or description of an entry so that their concatenation changes is reported at that entry, or the two texts, written out, differ and collide |
| `OversightBinding.EyeRewriteUnnoticedIff` | src/all-seeing-eye/all-seeing-eye.service.ts:117-130 | Rewriting any fields of an entry that is not the last goes unnoticed if it leaves link, hash and hashed text as they were, and only then unless the two texts collide; otherwise it is reported at that entry or the next |
| `OversightBinding.EyeHeadBindsHistory` | src/all-seeing-eye/all-seeing-eye.service.ts:117-130 | Two audited oversight ledgers with the same head hash have the same length and report the same at the same times, entry by entry, or exhibit a collision at entries equally far from their ends |
| `Orchestrator.OrchestratorService.Bootstrap` | src/orchestrator/orchestrator.service.ts:81-92 | The services wired together start in the model's initial state |
| `Orchestrator.OrchestratorService.RunProcess` | src/orchestrator/orchestrator.service.ts:99-201 | The imperative run computes exactly the state machine's run, result included, on every branch and on the early exit |
| `Orchestrator.OrchestratorService.ResolveAssignedNodes` | src/orchestrator/orchestrator.service.ts:279-292 | An explicit list is used as given; otherwise the active registry, filled with the default roster when empty: `WorkCounts.RunAssigns` says which ids these are |
| `Orchestrator.OrchestratorService.FinalizeEpoch` | src/orchestrator/orchestrator.service.ts:207-216 | Settlement, then one observation and one comparison, exactly as in the state machine |
| `Calls.Perform` | src/orchestrator/orchestrator.service.ts:80-92 | Any of the ten public calls, made on the wired services, leaves the state and gives the answer of the state machine |
| `Orchestrator.OrchestratorService.GetProcess` | src/orchestrator/orchestrator.service.ts:222-241 | Returns the verdict and the process's records in chain order, and changes nothing |
| `Orchestrator.OrchestratorService.Metrics` | src/orchestrator/orchestrator.service.ts:248-272 | Reads every figure off the state and leaves it as it was |
| `Orchestrator.EventsForIsTrace` | src/orchestrator/orchestrator.service.ts:228-235 | The event types a process query lists are the trace of that process |
| `Orchestrator.EventsForAreRecords` | src/orchestrator/orchestrator.service.ts:228-235 | A process query lists id, type and timestamp of records of the process, of all of them and no others, in chain order |
| `RunEffects.RunEffect` | src/orchestrator/orchestrator.service.ts:159-175 | A run that yields value mints, burns and accrues exactly once; any other run leaves ledger and pools alone |
| `RunEffects.RunWorkforce` | src/orchestrator/orchestrator.service.ts:117-130 | After a run the registry is the resolved one with each assigned node worked once per mention, which `WorkCounts.RunAssigns` counts out |
| `WorkCounts.RunAssigns` | src/orchestrator/orchestrator.service.ts:117-130 | A run reports exactly the nodes it was given (the active rows in registry order, or the three default nodes, without a list), and every node counts one more attempt and one more success per mention, up to the first unknown one; nobody else does |
| `WorkCounts.ActiveInOrder` | src/orchestrator/orchestrator.service.ts:290 | Whatever the statuses, the active rows are chosen, all of them and no others, each at the place its predecessors leave it |
| `WorkCounts.ExecutionCounts` | src/nodes/nodes.service.ts:77-86 | One attempt adds 1 to the total of the node, 1 to its successes only if it succeeded, makes successes / total its weight and reputation, and leaves every other row and everything else alone |
| `WorkCounts.RegistersFresh` | src/nodes/nodes.service.ts:40-60 | Registering stores a row without history at full weight, whatever was stored under that id, and leaves every other row alone |
| `WorkCounts.CallCounts` | src/nodes/nodes.service.ts:77-86 | Each of the ten calls adds to the counters of a node exactly the attempts that can be told beforehand |
| `WorkCounts.CountersAreAttempts` | src/nodes/nodes.service.ts:72-86 | In every state of every run total and successes of a node are the numbers of all and of successful attempts made on it since it was last registered, and its weight is the success rate, 1 before the first attempt |
| `WorkCounts.CallParts` | src/commission/commission.service.ts:101-114 | Each call adds to what an epoch remembers of a process and a node exactly the mentions that can be told beforehand; the call that closes the epoch makes it forget them all |
| `WorkCounts.PartsAreRemembered` | src/commission/commission.service.ts:110-113 | In every state of every run an epoch remembers a node in a process exactly as often as it was mentioned since the epoch was closed, if it was |
| `CallTranscripts.RunPlays` | src/orchestrator/orchestrator.service.ts:99-201 | A run completely, in every reachable state: the records it logs, in order and with their bodies, what the Eye notes in between, and its answer in closed form (fee, supply as the retained value, reserve index of minted value and margins, nodes, events) |
| `CallTranscripts.CallPlays` | src/orchestrator/orchestrator.service.ts:80-92 | Each of the ten calls logs, and has the Eye note, exactly the items told from the state before it, in order |
| `CallTranscripts.RunIsTranscript` | src/orchestrator/orchestrator.service.ts:80-92 | Log and oversight ledger of every reachable state are the items of all calls so far, played from the start |
| `Timeline.LogIsTranscript` | src/common/clock.service.ts:13-19 | In every state of every run both ledgers read, line by line, as those items: numbered from 1, each stamped with the tick it took, whether or not the Eye is there |
| `Timeline.StampsAscend` | src/common/clock.service.ts:13-19 | In every state of every run the timestamps of log and oversight ledger strictly ascend, and no two of all of them are equal |
| `Timeline.RowsAreTimely` | src/commission/commission.service.ts:219-234 | In every state of every run an epoch row carries the tick it was opened at and, exactly when it is closed, a later one it was closed at |
| `Timeline.ClosingStamped` | src/commission/commission.service.ts:162-176 | A closed row ends one tick before its closing record is written |
| `Answers.AnswersAreState` | src/orchestrator/orchestrator.service.ts:80-92 | What a call on a single service answers is what it leaves behind: the stored row, the last record, the stored verdict, the amounts the tallies moved by |
| `LedgerInit.InsertedOnce` | src/aroscoin/aroscoin.service.ts:56-71 | However callers interleave, the zero row is inserted at most once, and only into an empty table |
| `LedgerInit.EveryReaderServed` | src/aroscoin/aroscoin.service.ts:74-77 | However callers interleave, every caller that reads finds a row |
| `LedgerInit.TalliesSurviveInit` | src/aroscoin/aroscoin.service.ts:42-47 | Only a caller's own save changes an existing row: initialization never resets a recorded tally |
| `LedgerInit.StoreAddsIffUnchanged` | src/aroscoin/aroscoin.service.ts:80-98 | However callers interleaved so far, a save adds its amount to the row as it stands if and only if that is still the row it fetched |
| `LedgerInit.AlwaysAddsUpIff` | src/aroscoin/aroscoin.service.ts:80-98 | However callers interleave and whatever they record, the tallies are the starting row plus everything recorded all along if and only if no save is raced |
| `LedgerInit.AddsUpIffRaceFree` | src/aroscoin/aroscoin.service.ts:80-98 | When every call reads or records a positive amount, nothing recorded is missing in the end if and only if no save was raced: what is lost stays lost |
| `LedgerInit.RacedUpdateLost` | src/aroscoin/aroscoin.service.ts:80-84 | From a fresh service on, two callers that fetch the same row both finish and one of their two amounts is lost |
| `SupplyArithmetic.PairedSupply` | src/aroscoin/aroscoin.service.ts:100-113 | In any arithmetic, on any log whose emissions pair off, mint and burn tallies are the same number; if x - x = 0 and 0 + x = x hold of the two tallies at hand, supply equals the retained value |
| `SupplyArithmetic.ComparedLast` | src/orchestrator/orchestrator.service.ts:184-188 | Comparing supply is the last thing a call that compares does, on the branches where the source does it, and the log compared is the log the call ends with |
| `SupplyArithmetic.NoDriftInAnyArithmetic` | src/all-seeing-eye/all-seeing-eye.service.ts:80-90 | At no comparison in any run does rounding make supply and retained value differ, as long as x - x = 0 and 0 + x = x hold of the two tallies at hand; payments may have been rounded too |
| `SupplyArithmetic.SupplyInAnyArithmetic` | src/orchestrator/orchestrator.service.ts:162-188 | In any arithmetic, in every state of every run, mint and burn tallies of the log are the same number, and supply is the retained value under the same two conditions |
| `SupplyArithmetic.LedgerIsExactTallies` | src/aroscoin/aroscoin.service.ts:80-98 | In exact arithmetic these tallies are the ledger row itself |
| `RosterRuns.ActsReached` | src/orchestrator/orchestrator.service.ts:15-22 | After plain requests and finalizations, epoch after epoch, ledger, current pool, registry and verdicts are determined by the admissible requests alone |
| `RosterRuns.RosterSettlement` | src/commission/commission.service.ts:130-180 | On the default roster finalizing the current epoch, the first or a later one, pays each node a quarter of its pool and keeps a quarter; the reserve volume rises by exactly the margin; the next epoch starts empty |
| `ReferenceSimulation.RequestsAgree` | reference/ast-core/src/orchestrator.ts:34-74 | Request by request, in whatever epoch, production and reference give the same answer: turned away alike, or verified with the same minted amount and fee |
| `ReferenceSimulation.LedgersAgree` | reference/ast-core/src/aroscoin.ts:5-16 | At every position of any sequence of requests and finalizations: the same ledger, the same current pool, and the same reserve volume but for the margins of the closed epochs |
| `ReferenceSimulation.SettlementsAgree` | reference/ast-core/src/commission.ts:19-36 | Finalizing any epoch that admitted a request: equal payments per node, equal figures and ledgers; the reserve volumes come to differ by exactly the margin more |
| `ReferenceSimulation.EmptySettlementsDiffer` | reference/ast-core/src/commission.ts:22 | Without an admissible request since the last finalization production refuses, while the reference settles an empty pool at zero; neither ledger moves |
| `ReferenceSimulation.ReferenceStep` | reference/ast-core/src/pot.ts:9-23 | The reference verifies every admissible request, whatever ran before, and keeps the books of ledger, pool, volume and workers |
| `ReferenceChain.RecordKeepsUnbroken` | reference/ast-core/src/nodechain.ts:9-21 | Every record keeps the reference chain's audit positive |
| `ReferenceChain.TypeEditDetected` | reference/ast-core/src/nodechain.ts:13-14 | Unlike production, rewriting an event type is reported at that record, or yields a collision |
| `ReferenceChain.HeadBindsHistory` | reference/ast-core/src/nodechain.ts:28-36 | Two unbroken reference chains with the same head hash have the same length and the same records, event types included, or exhibit a collision at records equally far from their ends |
| `ReferenceChain.SnapshotChain.Reconstruct` | reference/ast-core/src/nodechain.ts:28-36 | Answers ok if and only if every hash is right, otherwise the first bad position |
| `ReferenceSettlement.Commission.FinalizeEpoch` | reference/ast-core/src/commission.ts:19-36 | Pays every worker by weight, adds it to worker and ledger, and empties the pool |
| `Reference.RunRecords` | reference/ast-core/src/orchestrator.ts:34-74 | From any state a reference run records, after what was recorded before and at the next positions, exactly the listed events of its process with the listed contents, by its outcome |
| `Reference.AST.RunProcess` | reference/ast-core/src/orchestrator.ts:34-74 | The imperative reference run computes exactly the modelled run |
| `Reference.AST.FinalizeEpoch` | reference/ast-core/src/orchestrator.ts:76-82 | The imperative reference finalization computes exactly the modelled one |

## Left out

- TypeORM, the database, transactions and isolation levels: `append` and the Eye's `log` are atomic steps.
- Interleaving of whole runs: calls run to completion; only access to the ledger row is interleaved.
- Failing I/O, including an initialization query that rejects and leaves its promise rejected.
- Process restart, and with it the loss of the in-memory event index, the participations and the clock.
- IEEE-754 rounding of fees and payments and the error bound behind the 1e-9 tolerance; amounts are reals.
- SHA-256, `JSON.stringify`, `Math.log10` and number printing beyond the properties named in each theorem.
- Event types are a datatype; the strings behind the constructors are not compared.
- Strings hold Unicode characters; the lone surrogates a JavaScript string may also hold are not representable.
- Values of captured data are numbers, texts and lists of texts; nested objects are not modelled (`sortKeys` is shallow anyway).
- AllSeeingEye.AllSeeingEyeService.VerifyLog: not a tamper proof field by field, because the source hashes event type, layer and description run together without a separator; what it binds is their concatenation.
- ChainAudit.RewriteUnnoticedIff: the rewritten record keeps its place; a sequence id that moves it in the listing is not covered.
- The overload rate of a fee enters `computeFee` as a parameter but no caller sets it.
- `snapshot`, `internalPrice`, `processNet`, `calculate`, `latest`, `getBySequence` and the paging of `list`: thin reads.
- The 'archived' epoch status and the node statuses other than active: nothing in the modelled services sets them.
- The reference's observation ledger, signals, clock readings and release flag: nothing in the comparison depends on them.
- Controllers, DTO validation beyond positive amounts, modules, contracts, frontend, agents and scripts.
