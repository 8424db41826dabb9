# Verified model of the Pi agent plugin's core

A parent process of the Pi agent plugin starts child agents, each in its own process, and follows them
through files and a control channel. This project models the parts of `agents-plugin-pi/src` whose
correctness rests on state, interleaving or algorithmic reasoning, and proves what they are for.
`dafny verify dfyconfig.toml` checks everything.

| file | what it models |
|---|---|
| `Prelude.dfy` | optional values, bounds, splitting text at newlines, JSON values |
| `SessionReader.dfy`, `Telemetry.dfy` | what a session file means; the incremental reader as a refinement of the whole-file reader; the usage reduction over either |
| `HomeRemoval.dfy` | removers, metadata writers, lock-free readers and crashes over one owned home, as a step machine |
| `Costs.dfy`, `RecordSignal.dfy`, `CostLedger.dfy`, `EvictionRuns.dfy` | the monotone cost merge, the record directory's change stamp, one hop's estimate, and runs of reports, evictions, revivals, rollbacks and syncs whose reads may fail |
| `RemovalPruning.dfy` | the ledger's pruning over homes read while removers run |
| `Framing.dfy`, `Channel.dfy` | line framing under any chunking and the parent's verdict on a hello; connections as lossy queues with one live at a time |
| `UsageRollup.dfy`, `Approval.dfy`, `ApprovalChannel.dfy`, `ApprovalHiding.dfy` | numbered usage reports and their durable copies, the child's approval gate, approvals from request to acknowledgement across parallel calls and reconnects, and the run in which the list's cap hides one |
| `Batches.dfy`, `AgentView.dfy` | the bounded tool-batch buffer, and its views relayed over any number of hops |
| `AgentTree.dfy`, `Layout.dfy` | the agent forest in preorder and the row budget with its folded tail |
| `EditDistance.dfy`, `Attribution.dfy`, `SummaryLog.dfy` | the banded edit-distance test, the owner-message matching, the tear-tolerant summary log and its in-memory side |

Objects the code updates in place are classes, its loops are loops with invariants, and its
cross-process protocols are total functions from a state and an event to a state, with theorems over
every event sequence. Each class method's contract ties the new state to such a function, and the
lemmas are about those functions.

## Results that correct a first reading of the code

- A change stamp replaces a directory read soundly if and only if the stamp's rounding and the duration
  of a sync together fit the settle window (`RecordSignal.SkipsAreSoundExactly`); past that there is a
  run, exhibited, in which a written record stays unseen.
- The removal predicate's reads, five or three, are right over every run of a system if and only if at most
  one of its processes is a removal attempt (`HomeRemoval.ReadersSoundExactly`); any two attempts, opt-in or
  not, have a run that fools either reader (`HomeRemoval.TwoAttemptsFoolTheReader`).
- With a crash, a removal record can outlive its removal: under a free claim a record stands beside a home at
  its path exactly after a metadata writer has taken the dead remover's claim over
  (`HomeRemoval.ProtocolSafe`, with the run in `HomeRemoval.WriterAfterCrashLeavesRecord`).
- The known total can fall. A failed read lowers it by exactly what was tracked for children no longer
  registered, each recorded on disk but unread, less what the others gained
  (`EvictionRuns.FailedSyncLowersExactly`); after an eviction that is the evicted child's whole cost, until
  the next good read (`EvictionRuns.FailedReadHidesEviction`). A removal that rolls back lowers it if and
  only if its record had been read and held more than the child's subtree costs now
  (`EvictionRuns.RollbackLosesTheFloor`). From one good read to a later one nothing else does
  (`EvictionRuns.KnownTotalNeverFalls`); identity by identity, `EvictionRuns.CountFallsExactly` says for any
  sync when what is shown falls.
- The cost merge loses exactly an observation that has dollars but no known contributor
  (`Costs.MergeLosesExactly`); every reduced cost lacks that shape.
- A summary log of blanks stays ours after an append if and only if a whole record landed or nothing but
  blanks did (`SummaryLog.FirstAppendUsable`); otherwise it is never appended to again
  (`SummaryLog.UnusableStays`). From one whole own line on, no tear costs anything but the records it cut.
- The acknowledged-id list is capped: over every run, the parent's outstanding id reads as consumed at a
  reconnect if and only if it was acknowledged and fewer than sixteen acknowledgements followed
  (`ApprovalChannel.ReconnectTellsTheTruth`). Seventeen parallel calls reach the other case: a command that
  was taken reads as lost, and the lead is asked again (`ApprovalHiding.CapHidesOutstanding`).
- The widget's fill is greedy in row order, and a source it shows may lack batch rows that would have fitted at its
  turn: its header came later, with a row below it (`Layout.OnlyWhatDidNotFit`, `Layout.LateHeader`).
- A batch view is dropped by a hop exactly when one of its counts exceeds the safe integers
  (`AgentView.OneHop`).

## Model

| member | source | states |
|---|---|---|
| `SessionFormat.CollectMeaning` | agents-plugin-pi/src/agent-telemetry.ts:102-126 | when a file's entries are accepted, every line equals the first occurrence of its id, the entries are exactly those first occurrences, and no id occurs twice |
| `SessionFormat.ReadSessionEntries` | agents-plugin-pi/src/agent-telemetry.ts:102-119 | a session exactly when every line parses, the first is a header (type session, version 3, a non-empty text id) and every other has an id and equals the first line with it; then with that id, the parent if it is a non-empty text, and the first line of each id in file order; transient exactly when only the last line fails to parse; else a contradiction |
| `SessionFormat.CollectEntries` | agents-plugin-pi/src/agent-telemetry.ts:108-118 | the entry loop keeps first occurrences in order and stops at the first invalid or conflicting line |
| `SessionFormat.VerdictByLastLine` | agents-plugin-pi/src/agent-telemetry.ts:102-119 | how the verdict of all lines follows from the verdict of all but the last and the last line alone |
| `SessionFormat.MeaningAnswers` | agents-plugin-pi/src/agent-telemetry.ts:102-126 | the meaning of a file, projected or not, is what its lines call for in the raw fields of their values |
| `SessionFormat.DistinctEntries` | agents-plugin-pi/src/agent-telemetry.ts:108-118 | with a header and every other line of an id of its own, the answer is a session of all of them, in file order |
| `SessionFormat.ProjectionExactly` | agents-plugin-pi/src/agent-telemetry.ts:134-145 | a projection keeps exactly id, type, message and usage, and of the message exactly role and usage |
| `IncrementalReader.IncrementalSessionReader.Read` | agents-plugin-pi/src/agent-telemetry.ts:210-217 | on every file state that extends the consumed bytes or trips a reset test, the same answer in the same raw terms, each entry projected; a missing file resets and is transient |
| `IncrementalReader.IncrementalSessionReader.ReadOpen` | agents-plugin-pi/src/agent-telemetry.ts:240-253 | the same for one open file, and how far the consumed bytes advance |
| `IncrementalReader.IncrementalSessionReader.BoundaryIntact` | agents-plugin-pi/src/agent-telemetry.ts:231-238 | true exactly when neither reset test trips on the bytes consumed so far |
| `IncrementalReader.IncrementalSessionReader.Consume` | agents-plugin-pi/src/agent-telemetry.ts:255-272 | one terminated line keeps offset, header hash, first-occurrence hashes, variant cache and sticky verdict a function of the consumed bytes |
| `IncrementalReader.IncrementalSessionReader.TakeLine` | agents-plugin-pi/src/agent-telemetry.ts:255-272 | precedence of the sticky verdicts, header line first |
| `IncrementalReader.IncrementalSessionReader.EvaluateLast` | agents-plugin-pi/src/agent-telemetry.ts:275-291 | the unconsumed last line decides the answer without being retained |
| `IncrementalReader.IncrementalSessionReader.AdmitLine` | agents-plugin-pi/src/agent-telemetry.ts:299-309 | hash and variant cache admit, drop or reject a line exactly as comparing it with the first occurrence would |
| `IncrementalReader.IncrementalSessionReader.EqualsFirstOccurrence` | agents-plugin-pi/src/agent-telemetry.ts:312-319 | the fallback scan of the whole file compares with the true first occurrence |
| `IncrementalReader.MeaningByLastLine` | agents-plugin-pi/src/agent-telemetry.ts:255-291 | the whole-file meaning from the consumed lines and one last line |
| `IncrementalReader.Replay` | agents-plugin-pi/src/agent-telemetry.ts:190-320 | over every covered history of appends, rewrites and disappearances each refresh agrees with the whole-file reader |
| `IncrementalReader.AppendOnlyCovered` | agents-plugin-pi/src/agent-telemetry.ts:190-230 | every append-only history is covered, missing states included |
| `IncrementalReader.HeaderRewriteCovered` | agents-plugin-pi/src/agent-telemetry.ts:231-238 | a rewrite that changes the header line is covered whatever else it does |
| `Telemetry.ReduceTelemetry` | agents-plugin-pi/src/agent-telemetry.ts:323-343 | reduces exactly a session of the origin that holds its prefix, over the entries behind it: the dollars are the sum of the non-negative prices found, present exactly with one; complete if and only if no usage lacks a price, no assistant message lacks usage and no message or summary has an unusable one, else partial; the context is that of the last assistant message or summary, none for a summary |
| `Telemetry.ReduceReports` | agents-plugin-pi/src/agent-telemetry.ts:323-343 | the same of the specification function, in the raw fields of the entries |
| `Telemetry.ProjectionKeepsParts` | agents-plugin-pi/src/agent-telemetry.ts:134-145 | an entry's projection keeps every field the reduction reads |
| `Telemetry.FoldReadsProjection` | agents-plugin-pi/src/agent-telemetry.ts:134-145 | folding projected entries gives what folding the entries gives |
| `Telemetry.ReductionAgrees` | agents-plugin-pi/src/agent-telemetry.ts:323-343 | telemetry from the incremental reader's answer equals telemetry from the whole-file reader's |
| `Telemetry.KnownUsdNeverFalls` | agents-plugin-pi/src/agent-telemetry.ts:323-343 | a session that grew still attributes, and its known cost is at least what it was |
| `HomeRemoval.ProtocolSafe` | agents-plugin-pi/src/agent-storage.ts:352-389 | over every run of removers, writers and crashes: at most one live process is inside the claim; under a free claim a record stands beside a home at its path exactly after a writer took over a dead remover's claim; an opt-in detach has left its record |
| `HomeRemoval.CrashFreeRecordMeansGone` | agents-plugin-pi/src/agent-storage.ts:577-634 | without crashes, a free claim and a record imply the home is off its path |
| `HomeRemoval.ActKeepsKnowledge` | agents-plugin-pi/src/agent-storage.ts:577-634 | every step of the claim holder, rollback included, keeps what the holder knows and releases only a sound record |
| `HomeRemoval.RemovalOutcome` | agents-plugin-pi/src/agent-storage.ts:569-634 | for every combination of failing steps, from a free claim or a dead holder's: a home back at its path has no record, an opt-in detach has one, a full success deletes, and the claim is given back unless releasing fails |
| `HomeRemoval.OwnedHome.RemoveOwnedAgentHome` | agents-plugin-pi/src/agent-storage.ts:569-634 | the imperative body, takeover of a dead holder's claim included, leaves the disk the step machine leaves, reports deletion exactly when it happened, and fails exactly when a step did |
| `HomeRemoval.WriterAfterCrashLeavesRecord` | agents-plugin-pi/src/agent-storage.ts:444-460 | a run with a crash in which the record outlives its removal |
| `HomeRemoval.RemovedIsFinal` | agents-plugin-pi/src/agent-storage.ts:342-349 | in every interleaving with at most one attempt, crashes included: after an answer of removed the home never moves again, is at its path exactly when a writer rescued a crashed attempt, and is off it for good when the three reads gave the answer or nothing crashed |
| `HomeRemoval.ReadersSoundExactly` | agents-plugin-pi/src/agent-storage.ts:293-349 | over all runs of a system, with crashes (rescues aside) or without, an answer of removed is right if and only if at most one process is an attempt or the home was away already |
| `HomeRemoval.StillDiskAnswer` | agents-plugin-pi/src/agent-storage.ts:310-349 | on a disk that stands still the reads answer claimed, removed or present by claim, record and home |
| `HomeRemoval.TwoAttemptsFoolTheReader` | agents-plugin-pi/src/agent-storage.ts:317-349 | for any two removers, opt-in or not, and either reader: a crash-free run after which the answer is removed and the home is at its path |
| `Costs.MergeIsMax` | agents-plugin-pi/src/agent-telemetry.ts:66-76 | on costs where nothing known is no dollars, the merge keeps the larger known sum and that shape |
| `Costs.MergeLosesExactly` | agents-plugin-pi/src/agent-telemetry.ts:66-76 | exactly which observation a merge loses; it never falls below the previous value |
| `Costs.MergeMarksIncomplete` | agents-plugin-pi/src/agent-telemetry.ts:66-76 | when the merge keeps the previous floor, and that it then marks the sum incomplete |
| `Costs.RewritesReachMax` | agents-plugin-pi/src/agent-storage.ts:254-259 | repeated or concurrent rewrites of one record end at the greatest sum any of them carried |
| `RecordSignal.CacheIsOfLastSync` | agents-plugin-pi/src/agent-cost.ts:214-222 | over every run the records held are those of the last read that succeeded, and a sync skips its read exactly when the sync before it read, ended past the settle window, and finds its stamp again; after a failed read the next sync always reads |
| `RecordSignal.StepKeeps` | agents-plugin-pi/src/agent-cost.ts:214-222 | no change from the moment a settled stamp was taken can leave that stamp |
| `RecordSignal.SkipsAreSoundExactly` | agents-plugin-pi/src/agent-cost.ts:25-25 | over every run, each skipped read holds the directory's contents if and only if stamp rounding plus sync duration fit the settle window |
| `RecordSignal.MisledIsStale` | agents-plugin-pi/src/agent-storage.ts:178-185 | past that bound, a run in which a trusted stamp hides a change |
| `CostLedger.TotalDisjoint` | agents-plugin-pi/src/agent-cost.ts:286-291 | the sum over records and live entries is the sum over their union: nothing is counted twice |
| `CostLedger.SyncCountsOnce` | agents-plugin-pi/src/agent-cost.ts:162-207 | after any sync from any state, records and live entries are disjoint, the live ones are exactly the registered, unrecorded, unomitted ids, and the total is the baseline and both sums |
| `CostLedger.UntrackedSyncAddsUp` | agents-plugin-pi/src/agent-cost.ts:189-207 | after the sync of a hop that tracked nothing, known dollars and the three counts are the baseline, plus the records, plus over unrecorded children their own figures and those reported from below |
| `CostLedger.SubtreeIs` | agents-plugin-pi/src/agent-cost.ts:35-47 | a child's figures: its estimate or else its partial one, one contributor known with either, one unknown without a full one, one agent, and all it reported from below |
| `CostLedger.CostEstimateState.PruneAndRecompute` | agents-plugin-pi/src/agent-cost.ts:162-166 | the ordered sync of the object: refresh, prune, recompute; with nothing tracked before, each figure of the total is the baseline, the records and every unrecorded child with what it last reported from below |
| `CostLedger.CostEstimateState.RefreshEvictionRecords` | agents-plugin-pi/src/agent-cost.ts:214-222 | records and stamp after a refresh, skip and failed read included |
| `CostLedger.CostEstimateState.PruneRemovedAgents` | agents-plugin-pi/src/agent-cost.ts:168-187 | drops exactly the recorded entries that neither run nor may get their home back |
| `CostLedger.CostEstimateState.RecomputeAgents` | agents-plugin-pi/src/agent-cost.ts:189-207 | a child not tracked before counts its own estimate, or partial one, and its reported descendants, contributor counts included; of a tracked one the greater known sum stays; and the new total |
| `CostLedger.CostEstimateState.AddAll` | agents-plugin-pi/src/agent-cost.ts:286-291 | summing a map's values in any order gives its total |
| `CostLedger.CostEstimateState.EvictionCost` | agents-plugin-pi/src/agent-cost.ts:225-228 | a sync, then the child as it stands with everything below it, or the greater of that and its tracked sum |
| `CostLedger.CostEstimateState.constructor` | agents-plugin-pi/src/agent-cost.ts:145-152 | a state loaded from a checkpoint starts with one sync |
| `EvictionRuns.IdentityKept` | agents-plugin-pi/src/agent-cost.ts:189-207 | whether or not its read succeeds, a sync leaves each identity recorded, or tracked at no fewer known dollars than before |
| `EvictionRuns.EvictKeeps` | agents-plugin-pi/src/agent-cost.ts:366-391 | a capacity eviction, its sync's read good or failed, puts no known dollars out of reach of the next good read |
| `EvictionRuns.EvictionRecords` | agents-plugin-pi/src/agent-cost.ts:366-391 | the record a capacity eviction leaves on disk holds at least the child's subtree cost, what was recorded before, and what was tracked unless a read record superseded it |
| `EvictionRuns.KnownTotalNeverFalls` | agents-plugin-pi/src/agent-cost.ts:162-228 | over every run of reports, gated revivals, evictions, registry drops, rollbacks and syncs, failed reads included: from one good read to a later one the known total falls by no more than records rolled back in between held, so with no rollback never |
| `EvictionRuns.RollbackLosesTheFloor` | agents-plugin-pi/src/agent-cost.ts:189-207 | by how much the total moves when a recorded removal rolls back, and that it falls if and only if the record had been read and held more than the child's subtree costs now |
| `EvictionRuns.CountFallsExactly` | agents-plugin-pi/src/agent-cost.ts:162-222 | for any sync, exactly when what one identity counts for falls |
| `EvictionRuns.FailedSyncLowersExactly` | agents-plugin-pi/src/agent-cost.ts:214-222 | a failed read moves the total by the gains of registered children less what was tracked for unregistered ones; that loss is positive if and only if such an id, recorded on disk but unread, held dollars |
| `EvictionRuns.FailedReadHidesEviction` | agents-plugin-pi/src/agent-cost.ts:366-391 | a run in which an eviction, its drop and a failed read hide exactly the evicted child's dollars, and the next good read brings them back |
| `EvictionRuns.DollarsHidden` | agents-plugin-pi/src/agent-cost.ts:214-222 | that run for a single child: the estimate shows nothing |
| `EvictionRuns.DollarsLost` | agents-plugin-pi/src/agent-cost.ts:189-207 | for a single child whose record rolls back after it reported less: only what it reported last shows |
| `EvictionRuns.FreshHop` | agents-plugin-pi/src/agent-cost.ts:145-152 | a hop with nothing tracked or recorded satisfies the run invariant |
| `EvictionRuns.StepChanges` | agents-plugin-pi/src/agent-cost.ts:162-228 | what a report, a gated revival, a registry drop and a rollback change, and that they change nothing else |
| `EvictionRuns.RevivedIsCounted` | agents-plugin-pi/src/agent-cost.ts:189-207 | what the next sync counts for a revived child: its record, or live over what was tracked, or nothing when the gate refused it |
| `RemovalPruning.PrunedNeverReturns` | agents-plugin-pi/src/agent-cost.ts:168-187 | while removers run, with at most one attempt a home: exactly the recorded children that neither run nor have a home that may return are pruned, and the home of a pruned one never comes back |
| `Framing.Connection.Data` | agents-plugin-pi/src/agent-channel.ts:70-107 | each chunk keeps every message of the whole lines so far delivered once and in order; a stream within limits never destroys the connection |
| `Framing.Connection.Drain` | agents-plugin-pi/src/agent-channel.ts:70-107 | all whole lines leave the buffer; the connection ends exactly when a frame is malformed or the text exceeds the limits |
| `Framing.Connection.Deliver` | agents-plugin-pi/src/agent-channel.ts:70-113 | one message goes to whoever is subscribed, or waits in the backlog |
| `Framing.Connection.Subscribe` | agents-plugin-pi/src/agent-channel.ts:109-113 | a new listener first gets the backlog, nothing lost or reordered |
| `Framing.PartOfWire` | agents-plugin-pi/src/agent-channel.ts:59-107 | any part of the wire text splits into the first messages' frames and a rest within the next |
| `Framing.ChildReceives` | agents-plugin-pi/src/agent-channel.ts:690-736 | for every chunking, the first message answers the handshake and every later one reaches the subscriber once and in order, those before it subscribed included |
| `Framing.ParentReceives` | agents-plugin-pi/src/agent-channel.ts:507-574 | for every chunking: a hello whose line runs past the bound is refused; else exactly a hello of the right shape, version, credential and generation is accepted, with no connection live, and any other gets the first reason that applies; once accepted, every message behind it is received once and in order |
| `Framing.ReadHello` | agents-plugin-pi/src/agent-channel.ts:532-545 | the hello line and the bytes that came with it, or the refusal of an overlong one |
| `UsageRollup.KeepsTheGreatest` | agents-plugin-pi/src/agent-usage-rollup.ts:72-82 | whatever is delivered, the stored value is that of the lexicographically greatest generation and number, and of its first delivery |
| `UsageRollup.AgentRecord.AcceptDescendantUsage` | agents-plugin-pi/src/agent-usage-rollup.ts:72-82 | one report accepted or dropped; changed exactly when what the record counts changed, its legacy telemetry copy included; an accepted value is written to the ownership record unless that write fails |
| `UsageRollup.AgentRecord.Deliver` | agents-plugin-pi/src/agent-usage-rollup.ts:89-100 | only the current launch's channel may write; an accepted report is in memory, and on disk unless its write fails |
| `UsageRollup.AgentRecord.RefreshTelemetry` | agents-plugin-pi/src/spawner.ts:819-834 | whatever a refresh does to the telemetry and whichever writes fail, the reported value survives in the record and on disk; one reported in this process is on disk once its write succeeds |
| `UsageRollup.TelemetryWritten` | agents-plugin-pi/src/agent-storage.ts:485-492 | replacing the telemetry on disk drops the legacy copy and never erases the only copy of the usage |
| `UsageRollup.AgentRecord.Restore` | agents-plugin-pi/src/agent-usage-rollup.ts:60-63 | a revived record takes the durable value over a snapshot's |
| `UsageRollup.Reporter.Evaluate` | agents-plugin-pi/src/agent-usage-rollup.ts:118-140 | a changed value gets the next number and is sent when connected; an equal or absent one changes nothing |
| `UsageRollup.ParentFollowsChild` | agents-plugin-pi/src/agent-usage-rollup.ts:118-140 | over every run of evaluations, losses, disconnects, reconnects and relaunches: once connected and drained the parent holds the child's latest report, and what it holds was always really reported |
| `UsageRollup.HelloIsHeard` | agents-plugin-pi/src/agent-usage-rollup.ts:89-100 | after any run, taking a reconnect hello alone brings the parent up to the report it carries, unless it had a later one |
| `UsageRollup.HeardAfterLoss` | agents-plugin-pi/src/agent-usage-rollup.ts:89-100 | after any run, the hello behind a lost connection is taken and leaves the parent with nothing older than its report |
| `ApprovalGate.StartsAreJustified` | agents-plugin-pi/src/approval-protocol.ts:136-228 | over every run, a command starts only on a decision for its own id that arrived on a connection not ended since, after its acknowledgement, at most once per wait; the hello's list is the last sixteen acknowledged ids |
| `ApprovalGate.PendingIsLatestWait` | agents-plugin-pi/src/approval-protocol.ts:163-166 | the hello reports the latest open wait, over every run with one wait per id |
| `ApprovalGate.ListedWhileAmongNewest` | agents-plugin-pi/src/approval-protocol.ts:163-166 | exactly when the cap still lists an acknowledged id |
| `ApprovalGate.ArrivalTakesExactly` | agents-plugin-pi/src/approval-protocol.ts:191-227 | a decision that arrives is taken by exactly the open waits for its id whose acknowledgement can be sent; every other wait stays open |
| `ApprovalGate.WaitTakesEarlyExactly` | agents-plugin-pi/src/approval-protocol.ts:191-227 | a wait that opens takes an early decision for its id exactly when there is one and the acknowledgement can be sent; none for that id is left |
| `ApprovalGate.ArrivalIsKept` | agents-plugin-pi/src/approval-protocol.ts:173-183 | a decision for no open wait is kept as the newest, in place of any of its id, the oldest past the cap dropped |
| `ApprovalGate.WithoutLast` | agents-plugin-pi/src/approval-protocol.ts:173-183 | dropping an id keeps every other decision, in order |
| `ApprovalGate.RemovesTheLatest` | agents-plugin-pi/src/approval-protocol.ts:191-227 | the wait that leaves the open list is the latest of its id |
| `ApprovalGate.RemovesNothing` | agents-plugin-pi/src/approval-protocol.ts:191-227 | an id with no open wait leaves the list as it is |
| `ApprovalGate.RefusalDropsEarly` | agents-plugin-pi/src/approval-protocol.ts:204-205 | an aborted call drops exactly its early decision |
| `ApprovalGate.ChildApprovalGate.OnDecision` | agents-plugin-pi/src/approval-protocol.ts:173-183 | an early decision replaces any of its id and the oldest beyond the cap go |
| `ApprovalGate.ChildApprovalGate.WaitForDecision` | agents-plugin-pi/src/approval-protocol.ts:191-227 | a call that is aborted already drops its early decision and opens nothing; else an early decision is taken out, and consumed only if the acknowledgement can be sent, or the wait opens |
| `ApprovalGate.ChildApprovalGate.Decided` | agents-plugin-pi/src/approval-protocol.ts:191-227 | a decision for an open wait is taken exactly when its acknowledgement is sent |
| `ApprovalChannel.Validate` | agents-plugin-pi/src/execute-gateway.ts:401-411 | a decision is accepted exactly for the pending request while it is open |
| `ApprovalChannel.ReconnectTellsTheTruth` | agents-plugin-pi/src/approval-protocol.ts:16-24 | at every reconnect hello of every run, with any number of parallel calls, the outstanding id reads as consumed if and only if the child acknowledged it and fewer than sixteen acknowledgements followed; acknowledged means its wait took the decision |
| `ApprovalChannel.ReconnectSettles` | agents-plugin-pi/src/spawner.ts:3075-3090 | after any run, a reconnect hello releases the outstanding request exactly when its decision was lost and it is listed as consumed, and else leaves it open to the lead; none stays sent |
| `ApprovalChannel.ReconnectWithoutList` | agents-plugin-pi/src/spawner.ts:3075-3090 | a hello without a list releases a lost decision exactly when its wait is not reported pending |
| `ApprovalChannel.SettledLeavesNoRequest` | agents-plugin-pi/src/spawner.ts:2930-2962 | after any run: once the child settled with no call open, and until another begins, the parent that heard it has no request outstanding, whatever connections come and go |
| `ApprovalChannel.DrainedIsReleased` | agents-plugin-pi/src/spawner.ts:3065-3074 | after any run: on an intact connection with nothing in flight up, a request marked as sent was not acknowledged, unless before its latest decision and hidden by sixteen others |
| `ApprovalChannel.AbortedNeverRuns` | agents-plugin-pi/src/approval-protocol.ts:191-227 | after any run: a call that aborts takes no decision in any continuation |
| `ApprovalChannel.AbortEnds` | agents-plugin-pi/src/approval-protocol.ts:195-205 | an abort leaves neither the call nor its wait, and when it had not waited yet drops exactly its early decision |
| `ApprovalChannel.LeadDecidesExactly` | agents-plugin-pi/src/execute-gateway.ts:795-823 | a decision is taken for an open request only, and marks it sent exactly when it went onto a live connection, else discarded |
| `ApprovalChannel.ListedExactly` | agents-plugin-pi/src/approval-protocol.ts:151-171 | with no id acknowledged twice, the capped list holds an id exactly while fewer than sixteen acknowledgements follow its own |
| `ApprovalHiding.CapHidesOutstanding` | agents-plugin-pi/src/approval-protocol.ts:141-166 | a run of as many parallel calls as the list holds and one more, in which a taken command reads as lost at the reconnect and the lead is asked again |
| `ApprovalChannel.AskedOnlyWhileOpen` | agents-plugin-pi/src/execute-gateway.ts:805-823 | while the lead is asked about a request no earlier answer to it can still be taken, and it was taken before only if sixteen acknowledgements hid that; each id is taken at most once, and only what the lead decided |
| `Batches.AgentBatchBuffer.ObserveBatchEvent` | agents-plugin-pi/src/agent-batches.ts:277-332 | each event takes the buffer to the specified next state, and reports no change only when there was none |
| `Batches.AgentBatchBuffer.ObserveGenerating` | agents-plugin-pi/src/agent-batches.ts:224-246 | phase changes and streamed characters of the message in flight |
| `Batches.AgentBatchBuffer.StartBatch` | agents-plugin-pi/src/agent-batches.ts:200-205 | a new last batch with the next number, the oldest dropped past five |
| `Batches.AgentBatchBuffer.CloseOpenBatch` | agents-plugin-pi/src/agent-batches.ts:208-215 | ends the open batch and the message in flight |
| `Batches.ObservedOk` | agents-plugin-pi/src/agent-batches.ts:277-332 | every event keeps at most five batches with consecutive numbers, only the last open, and an open batch has an unfinished call |
| `Batches.ToolStartLaw` | agents-plugin-pi/src/agent-batches.ts:301-312 | a call that starts is the first announced one of its id not yet started, or a new one; it joins the open batch or opens one behind the newest four; nothing else changes |
| `Batches.ToolEndLaw` | agents-plugin-pi/src/agent-batches.ts:313-324 | a call that ends finishes the first unfinished one of its id in the open batch, and the batch with the last of them; without one nothing changes |
| `Batches.MessageEndLaw` | agents-plugin-pi/src/agent-batches.ts:290-300 | an assistant message that ends with calls closes what is open and announces exactly those calls, unstarted, in a batch of their own |
| `Batches.TurnOverLaw` | agents-plugin-pi/src/agent-batches.ts:208-215 | the end of a turn ends the open batch, whatever its calls, and the message in flight |
| `Batches.GeneratingLaw` | agents-plugin-pi/src/agent-batches.ts:224-246 | phase, phase clock, tool name and streamed characters after each update |
| `Batches.BatchViewOk` | agents-plugin-pi/src/agent-batches.ts:335-360 | a view is exactly one of ended and running, failures within the call count, and done and in-flight calls fewer than all |
| `Batches.BatchViewSays` | agents-plugin-pi/src/agent-batches.ts:335-360 | a view's counts are those of the ended, failed and in-flight calls; its names are the first five distinct ones in call order; it reports the call in flight longest, or before any runs the first open one |
| `Batches.ViewsAfterAnyRun` | agents-plugin-pi/src/agent-batches.ts:363-378 | after every event sequence the at most six views are consecutive, each exactly one of ended, running and generating, and each says of its batch, or of the message in flight, exactly what it holds |
| `AgentView.AcceptedIsWireOk` | agents-plugin-pi/src/agent-view.ts:98-123 | whatever object arrives, an accepted batch has exactly one state, bounded counts and names, and clean capped strings |
| `AgentView.AcceptedExactly` | agents-plugin-pi/src/agent-view.ts:66-122 | an object is accepted if and only if its fields say a view, and then as that view: counts, clocks, the first five names and the texts capped, epoch kept when it is a plain token, exactly one state |
| `AgentView.OneHop` | agents-plugin-pi/src/agent-view.ts:98-123 | printing and parsing a view gives its capped form, or nothing exactly when a count is unsafe |
| `AgentView.LaterHopsKeep` | agents-plugin-pi/src/agent-view.ts:98-123 | a view that came off the wire goes over it unchanged |
| `AgentView.ParseAgentViewMessage` | agents-plugin-pi/src/agent-view.ts:130-142 | the loop with its early stop takes what the list of offers gives |
| `AgentView.FirstOfferWins` | agents-plugin-pi/src/agent-view.ts:130-142 | at most 128 agents, each the first offer of its id; with room to spare no offered id is missing |
| `AgentView.OfferExactly` | agents-plugin-pi/src/agent-view.ts:134-140 | an agent is offered exactly with a name and at least one batch that says a view, with the newest five of those views |
| `AgentView.TakenInOrder` | agents-plugin-pi/src/agent-view.ts:130-142 | the model lists the first offers of their ids in message order: all of them, or the first 128 |
| `AgentView.HopIsPointwise` | agents-plugin-pi/src/agent-view.ts:130-172 | a hop acts agent by agent: order kept, the newest five surviving views, capped |
| `AgentView.FirstHop` | agents-plugin-pi/src/agent-view.ts:130-172 | after any events, the first hop keeps exactly the newest five views of a child's buffer, capped |
| `AgentView.LaterHopsAreIdentity` | agents-plugin-pi/src/agent-view.ts:130-172 | relaying whatever a hop accepted changes nothing |
| `AgentView.BuildExactly` | agents-plugin-pi/src/agent-view.ts:150-167 | a process lists an agent if and only if its snapshot keeps it and views come with it: its own buffer if it holds any, else, for no registered agent, the first model that was forwarded |
| `AgentView.BuildInOrder` | agents-plugin-pi/src/agent-view.ts:161-165 | the agents are listed in the order of the snapshot |
| `AgentView.ReachesTheRoot` | agents-plugin-pi/src/agent-view.ts:150-167 | through any chain of processes that keep the agent, its received views reach the root exactly as they were |
| `AgentTree.BuildAgentTree` | agents-plugin-pi/src/agent-widget.ts:190-249 | the nodes form a forest with depths one below their parents, in preorder; besides the roots it holds exactly the propagated rows whose id is no record's and not taken by an earlier accepted row, and whose parent is their record or an earlier accepted row of it |
| `AgentTree.AcceptedExactly` | agents-plugin-pi/src/agent-widget.ts:215-239 | which propagated rows are accepted, and under which parents, in terms of the records alone |
| `AgentTree.WholeSnapshot` | agents-plugin-pi/src/agent-widget.ts:215-239 | a parent-before-child snapshot of distinct ids that no record and no earlier snapshot has is accepted whole |
| `AgentTree.FileRecords` | agents-plugin-pi/src/agent-widget.ts:190-249 | the builder ends up with exactly the nodes the specification accepts, indexed by id and by parent |
| `AgentTree.Builder.Add` | agents-plugin-pi/src/agent-widget.ts:190-249 | a node with a taken id is refused, else filed under its parent or among the roots |
| `AgentTree.Builder.AddDescendant` | agents-plugin-pi/src/agent-widget.ts:190-249 | a propagated row is filed, one level below its parent, exactly when that is held and of its own branch and the row's id is neither local nor taken; else nothing changes |
| `AgentTree.VisitedAll` | agents-plugin-pi/src/agent-widget.ts:190-249 | the visits append each subtree in preorder |
| `AgentTree.RecordsAreTheRoots` | agents-plugin-pi/src/agent-widget.ts:190-249 | the roots are exactly the registered records, in order, whatever rows they propagate |
| `AgentTree.PreorderIsComplete` | agents-plugin-pi/src/agent-widget.ts:190-249 | every accepted node occurs exactly once |
| `AgentTree.SubtreesAreContiguous` | agents-plugin-pi/src/agent-widget.ts:190-249 | a row is in another's subtree exactly when every row up to it is deeper |
| `AgentTree.ParentIndexes` | agents-plugin-pi/src/agent-widget.ts:758-768 | the stack finds each row's nearest preceding shallower row |
| `AgentTree.NearestIsParent` | agents-plugin-pi/src/agent-widget.ts:758-768 | on the full preorder that row is the true parent |
| `Layout.ChooseBatchAllotment` | agents-plugin-pi/src/agent-widget.ts:735-741 | the largest allotment up to the wish that fits the budget, else one |
| `Layout.ShowUpExact` | agents-plugin-pi/src/agent-widget.ts:782-818 | showing a row shows exactly it and its ancestors, and keeps the shown set closed |
| `Layout.KeptExactly` | agents-plugin-pi/src/agent-widget.ts:782-818 | the kept rows are exactly the rows not running and their ancestors |
| `Layout.FilledOk` | agents-plugin-pi/src/agent-widget.ts:782-818 | the greedy fill stays closed, accounts for every line, and takes nothing back |
| `Layout.PlanExpandedRows` | agents-plugin-pi/src/agent-widget.ts:782-818 | everything when it fits; else turn by turn a hidden row is shown with its ancestors and its batch rows exactly when all of that fits into the lines left, and a shown one gets its batch rows exactly when they do; hidden count and padding follow |
| `Layout.OnlyWhatDidNotFit` | agents-plugin-pi/src/agent-widget.ts:782-818 | a row stays hidden only if its header, hidden ancestors and batch rows exceeded the lines left at its turn; a shown source is without batch rows only if they did by themselves, or with its header when that came later with a row below it |
| `Layout.LateHeader` | agents-plugin-pi/src/agent-widget.ts:782-818 | two rows for which the second case happens: the batch rows alone would have fitted |
| `Layout.FoldedPlan` | agents-plugin-pi/src/agent-widget.ts:782-818 | a folded plan shows every row not running, is closed, and takes exactly the budget's lines, or only the kept rows and the tail when those alone exceed it |
| `Layout.BuildExpandedWidgetLines` | agents-plugin-pi/src/agent-widget.ts:984-1015 | the lines emitted are each shown row's header, its latest views oldest first and placeholders up to its batch rows, then the tail and the blanks, as many as the plan says |
| `EditDistance.WithinTwoEdits` | agents-plugin-pi/src/model-catalog.ts:75-89 | true exactly when some script of at most two insertions, deletions or substitutions turns one text into the other |
| `EditDistance.DistanceIsShortestScript` | agents-plugin-pi/src/model-catalog.ts:75-89 | the recurrence is the length of the shortest script |
| `EditDistance.FillRow` | agents-plugin-pi/src/model-catalog.ts:79-87 | one banded row agrees with the true distances, both capped at three |
| `EditDistance.CellStep` | agents-plugin-pi/src/model-catalog.ts:79-87 | a cell computed from capped neighbours agrees after capping |
| `EditDistance.OffTheBand` | agents-plugin-pi/src/model-catalog.ts:76-82 | every cell off the band has a distance of three or more |
| `Attribution.Attribute` | agents-plugin-pi/src/audit.ts:107-140 | the labelled messages are an order-preserving matching of a prefix of the sends, and no order-preserving matching takes a longer prefix |
| `SummaryLog.LoadSidecar` | agents-plugin-pi/src/display-summary-sidecar.ts:116-139 | a missing file may be started, a foreign one gives nothing, an own one the last-written summary of each retained id |
| `SummaryLog.TornBlock` | agents-plugin-pi/src/display-summary-sidecar.ts:283-299 | a block cut anywhere reads as the records that landed whole |
| `SummaryLog.LandedExactly` | agents-plugin-pi/src/display-summary-sidecar.ts:283-299 | how many records a cut leaves whole: the most whose text fits, the last newline aside |
| `SummaryLog.TornAppend` | agents-plugin-pi/src/display-summary-sidecar.ts:283-299 | an append cut anywhere adds exactly the records the cut left whole, none while it falls inside the boundary newline, and all of them when at most the last newline is missing |
| `SummaryLog.StaysOwned` | agents-plugin-pi/src/display-summary-sidecar.ts:123-129 | a file with an own line stays ours through any append and any tear |
| `SummaryLog.LoadsWhatLanded` | agents-plugin-pi/src/display-summary-sidecar.ts:283-299 | from one own line on, after any sequence of appends torn anywhere, the file holds the old records and, append by append, exactly those its cut left whole; loading is last-writer-wins over them |
| `SummaryLog.FirstAppendUsable` | agents-plugin-pi/src/display-summary-sidecar.ts:123-129 | for every file of blanks and every cut: the file stays ours if and only if a whole record landed or nothing but blanks did |
| `SummaryLog.UnusableStays` | agents-plugin-pi/src/display-summary-sidecar.ts:283-299 | a file that is not ours is left as it is by every later list of writes |
| `SummaryLog.TornFirstRecordDisables` | agents-plugin-pi/src/display-summary-sidecar.ts:123-129 | a first append to a file of blanks that lands no record but some non-blank is the last write for good |
| `SummaryLog.SummarySidecar.Accept` | agents-plugin-pi/src/display-summary-sidecar.ts:347-352 | an accepted batch becomes live and pending, newest values winning |
| `SummaryLog.SummarySidecar.Replay` | agents-plugin-pi/src/display-summary-sidecar.ts:313-323 | a candidate is restored once and only while nothing live has its id |
| `SummaryLog.ReplayExactly` | agents-plugin-pi/src/display-summary-sidecar.ts:313-323 | which candidates a sync restores, and with which summary |
| `SummaryLog.SummarySidecar.AppendEligible` | agents-plugin-pi/src/display-summary-sidecar.ts:283-299 | nothing to write leaves everything, a file not ours disables the log, else the text grows by the append, whole or torn |
| `SummaryLog.EligibleParts` | agents-plugin-pi/src/display-summary-sidecar.ts:283-299 | the retained filter takes or leaves each record by itself and keeps the order |
| `SummaryLog.SummarySidecar.WriteSeed` | agents-plugin-pi/src/display-summary-sidecar.ts:324-330 | the file's text after inherited summaries were appended, whole or torn; they never overtake a live one, whatever is accepted meanwhile |
| `SummaryLog.NotLiveParts` | agents-plugin-pi/src/display-summary-sidecar.ts:324-330 | so does the filter of inherited summaries overtaken by live ones |
| `SummaryLog.SummarySidecar.Flush` | agents-plugin-pi/src/display-summary-sidecar.ts:331-338 | the file's text after one batch; a written batch leaves the queue, a failed one stays; whatever is live, retained and not queued is what the text reads back |

## Left out

- JSON, SHA-256, UTF-8 and deep equality: line parsers, an injective hash and an equality reflexive on equal values are parameters; for the log and the channel a record or frame holds no newline and no strict part of a record line parses (section 7 of RFC 8259 escapes control characters).
- Floating point: costs and clocks are reals.
- Identifiers that are only compared are integers or an opaque type in the tree, the batch buffer, the ledger and the log; command ids are numbers in request order.
- Stale-claim takeover is one atomic step; the code reads the owner, probes it and renames the claim in separate steps (agents-plugin-pi/src/agent-storage.ts:365-385). Deleting a removal record is taken to succeed.
- Framing.ParentReceives: the hello timeout, and what else an accepted hello carries (process id, reconnect flag, resume section).
- ApprovalChannel: that an acknowledged outstanding id is always the last acknowledged one is not claimed; it fails once calls run in parallel.
- Connections are handled in the order the child opens them, and runs start after the first handshake.
- Readiness published between a reconnect hello and its welcome: nothing is claimed, since nothing resends it.
- RecordSignal: the record directory may appear and be replaced, but nothing ever removes it, during a sync or between two.
- Retention reads only the saved checkpoint, so a floor held in another process's memory is not part of its record (agents-plugin-pi/src/agent-cost.ts:399-404); the no-loss results are for capacity eviction.
- The lead's own usage, checkpoint parsing and writing, and the cost text.
- Tool names and previews are cleaned before they enter a buffer; the model takes them as given, and caps them at the hops.
- AgentTree.VisitedAll: the recursion over a child list stands for the loop in `visit`.
- SummaryLog.SummarySidecar: nothing but this object writes the log's file while it is open; which ids a conversation retains, symbolic links, the parent sidecar an inherited summary comes from, and the orphan cleanup are inputs or absent.
- Throttling and change detection of the view publisher, and the subtree snapshot that selects the agents.
- The rest of revival (`parseOrphans`, rehydration, liveness writes): only its gate on removed homes is an event of the ledger runs.
- `suggestModels`, rendering, key handling, sockets, path and symbolic-link checks, the bridge, install scripts and model calls: plumbing or single-function arguments.
