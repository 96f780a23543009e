# Recorder, library pages, relay and waveform: a verified model

This project models the parts of the replayvod repository whose correctness rests on protocols rather
than on single functions, and proves what they promise.

- **Part accounting and splitting** (`ledger`, `ledger_facts`, `checkpoint`, `resume_state`, `accountant`,
  `conservation`, `confluence`, `refill_order`, `overshoot`, `guards`, `exact_gaps`, `fetching`, `part_steps`, `part_loop`,
  `part_loop_facts`, `part_loop_keeps`, `part_runs`, `part_progress`, `part_turns`, `loop_failures`, `termination`,
  `gap_reasons`, `aggregate_totals`, `legacy_start`). A recording part
  is a ledger over media sequence numbers: a contiguous frontier, a sorted buffer of commits that
  arrived out of order, a gap list, byte and second totals, and a sealed boundary. The class
  `ResumeState` updates it in place; each method is proved equal to a function on values, and the
  theorems are about those functions: boundaries that do not depend on worker order, conservation
  of bytes, crash round trips, and, for the whole part loop with crashes, parts that tile the
  recording and an ENDLIST that is never believed too early. The loop is a machine over every order of
  file writes, callbacks, attempts and crashes. The theorems hold of the runs whose steps are `Safe`, a condition
  that can be read off before each step; `PartRuns`, `Fetching` and `ExactGaps` prove exactly when each step
  keeps what it should, and `LoopFailures` has, for each condition, a run from a fresh start that fails without it.
- **Keyset pages of the video list** (`videos`, `sql`, `video_filters`, `video_order`, `video_sorts`, `video_page_sql`,
  `video_page_meaning`, `page_walk`). The query builder renders a syntax tree for either SQL dialect while it
  collects the bound values; the tree is read back as the engine would and evaluated in three-valued
  logic. The cursor conditions are proved to select exactly the rows after the cursor, and walks over
  changing tables to return every stable row exactly once.
- **The relay cursor protocol** (`relay_buffer`, `relay_ends`, `relay_system`, `relay_safety`, `relay_lossy`). The durable
  object with its expiring replay buffer and the client with its cursor, as classes and as one step system with
  challenges, failed sends, rejections, disconnects, alarms and restarts.
- **Waveforms** (`waveform`, `waveform_points`, `waveform_pcm`). Largest-remainder sharing of points and a PCM
  reader whose result does not depend on how the stream was chunked.

`dafny verify dfyconfig.toml` checks the whole project.

## Reading the model

- Sequence numbers, bytes and times are unbounded integers; seconds, shares and amplitudes are reals.
- JSON is the projection to the serialized fields (`Marshal`) followed by `Init` (`Load`). hls.Run is an
  environment: any callbacks in any order, then either no outcome at all or a result that reports every
  sequence of the attempt as an event, a window roll or a canceled fetch (`Reports`). The repository does not
  always keep that promise: a worker of hls/pool.go whose result and cancellation are ready together may
  take the cancellation and drop a finished or canceled sequence unreported
  (server/internal/downloader/hls/pool.go:90-97). Runs in which that happens are outside the theorems.
- A crash loses the process's memory, not the files it has written.
- The part loop's runs split only at the size and duration ceilings. Runs with other splits appear in
  the termination argument and in the methods of `PartSteps`.
- The relay assumes a clock that does not go back, stored events that are broadcast in the order they were
  stored, frames that arrive in the order they were sent, and a socket that is dead once a send on it has
  failed. A failed send is swallowed by the relay's broadcast, so the last assumption is needed
  (`LaterFramePasses`) and exactly so (`DeadSocketExact`).
- The database answers a query with distinct rows that satisfy it, in its order, cut at its limit, and
  ids are unique in each snapshot.

What the code does where its comments promise more, or where a property needs a condition:

- `BeginNewPart` keeps the gaps, and `Init` takes a part with gaps for a started one. A crash in the window before the
  first poll therefore round-trips exactly when no gap was carried over (`BeginNewPartRoundTrip`).
- A window roll on the first poll is not only seen on a resumed part: after a refused first playlist the start
  is 1, the roll is recorded on a part without an anchor, and a crash before the anchor's checkpoint takes the
  part for one that started at 0 (`RollBeforeAnchorLosesZero`). Reloading such a part is safe exactly when no
  roll was recorded (`UnanchoredReload`). The comment at server/internal/downloader/hls/orchestrator.go:443-446
  calls that order "conservative rather than load-bearing".
- Workers may write segments before the first poll's checkpoint, and nothing empties the directory of a resumed
  part. Segment 0 is recovered; any other leftover below a later anchor ends up in the part, outside its interval
  (`LeftoverBelowAnchor`). The part is safe exactly when no leftover lies below the playlist that anchors it
  (`LeftoversExact`).
- A checkpoint of a version without the started flag is taken for a part that has not started exactly when the part
  holds nothing but segment 0, and is recovered exactly when it was in its fetch (`FlaglessReloadExact`).
- A range gap may cover buffered commits, and a window roll after the seal may be recorded above the
  boundary. The gap count is then too high, and a sealed part with media looks empty and is re-anchored
  (`RolledOverSealLooksEmpty`, `LateRollLooksEmpty`, `RolledOverPartIsDropped`, and without any ceiling
  `RolledOverCommitLooksEmpty`), where the comment at
  server/internal/downloader/downloader.go:1895-1901 says that a sealed split always reports media. Events that find
  nothing counted already keep the counts exact, and then the comment is right (`SealedIsFinalized`).
- Auth failures do not look at the ceilings. What they let the frontier fold, and a refetch below the
  frontier, can exceed a ceiling by more than the boundary segment (`AuthFoldOvershoots`,
  `AuthRefetchOvershoots`); the configuration's "up to one segment" holds for all other events (`Overshoot`).
- An attempt that ends before its first outcome reports last sequence 0 like one that reached it, so
  the next one starts at 1. A part anchored at 0 afterwards never asks for 0 (`SequenceZeroLost`), and one that starts
  above 1 fetches segments of the part before again if the playlist still serves them (`SilentRetryDuplicates`,
  `SilentRetryExact`).
- The order in which workers finish does not matter, however often an outcome is reported; a refill of a lost
  sequence is the exception when it comes too late for its ceiling (`RefillOrderExact`).
- A re-anchor after a threshold split spends neither cap; the loop is bounded while no sequence is counted
  twice (`CleanLapsAreBounded`) and not otherwise (`RolloversNeverStop`).
- The frontier's "never decreases" holds within a part; `BeginNewPart` and `ReanchorCurrentPartAfterEmptySplit` reset it.
- A page cursor minted for another sort is not rejected; what it does depends on the order it is used in
  (`ForeignCursor`).

## Model

| member | source | states |
|---|---|---|
| LedgerFacts.CommitKeeps | server/internal/downloader/resume.go:547-567 | A commit keeps every sequence from the part start to the frontier accounted for, the buffer and the resolved set exact; the part total stays the media committed up to the frontier if and only if no sequence's media is added a second time |
| LedgerFacts.SkipKeeps | server/internal/downloader/resume.go:585-598 | A gap keeps the same invariant and never changes what was committed |
| LedgerFacts.RollKeeps | server/internal/downloader/resume.go:624-643 | A range gap, clipped to above the frontier and possibly over buffered commits, keeps the invariant and the total |
| LedgerFacts.SealKeeps | server/internal/downloader/resume.go:725-743 | Sealing at the frontier keeps the invariant, leaves nothing above the boundary and covers exactly the lost sequences up to it |
| LedgerFacts.AdvanceMeaning | server/internal/downloader/resume.go:652-672 | The frontier stops at the first running total that reaches a ceiling, or before the first unresolved sequence, stated on the committed media alone |
| LedgerFacts.SkipIsResolved | server/internal/downloader/resume.go:826-840 | In a valid part a sequence is skipped if and only if it is at or below the frontier or in the resolved set, and then it is committed or lost |
| LedgerFacts.CommitGrows | server/internal/downloader/resume.go:547-567 | A commit never moves the frontier back, resolves its sequence, and every skipped sequence stays skipped |
| LedgerFacts.SkipGrows | server/internal/downloader/resume.go:585-598 | The same for a gap |
| LedgerFacts.RollGrows | server/internal/downloader/resume.go:624-643 | The same for a range gap, which resolves its whole range |
| LedgerFacts.StopMeaning | server/internal/downloader/resume.go:652-672 | Where the advance loop stops and why, for either outcome |
| LedgerFacts.AdvanceKeeps | server/internal/downloader/resume.go:652-672 | Advancing the frontier keeps the invariant and folds exactly the media it passes |
| Resume.BinarySearch | server/internal/downloader/resume.go:687-693 | Position and presence in an ascending buffer |
| Resume.ResumeState.New | server/internal/downloader/resume.go:276-284 | The initial checkpoint |
| Resume.ResumeState.Unmarshal | server/internal/downloader/resume.go:865-875 | Loading serialized fields yields the value Load defines, with the buffer sorted and above the frontier |
| Resume.ResumeState.Init | server/internal/downloader/resume.go:292-334 | Rebuilds exactly the resolved set, the accounting map and the started flag from the serialized fields |
| Resume.ResumeState.StartPart | server/internal/downloader/resume.go:347-356 | Anchors a part, dropping all per-part state and any old boundary but keeping the split intent |
| Resume.ResumeState.ShouldOpenNextPart | server/internal/downloader/resume.go:376-395 | Which cap applies to which split, and that re-anchors count only towards the discontinuity cap |
| Resume.ResumeState.BeginNewPart | server/internal/downloader/resume.go:410-428 | The whole new state after a discontinuity: the variant lock, ENDLIST and the anchor are dropped, the gaps and the window-roll signal stay |
| Resume.ResumeState.ReanchorCurrentPartAfterEmptySplit | server/internal/downloader/resume.go:437-453 | The whole new state after a split without output: the variant lock, ENDLIST, the anchor and the gaps are dropped, the window-roll signal stays |
| Resume.ResumeState.ContinuePart | server/internal/downloader/resume.go:475-491 | The next part starts one past the sealed boundary (or the frontier) with the variant lock, the window-roll signal and the re-anchor count as they were, and ENDLIST forgotten unless proven at the boundary |
| Resume.ResumeState.NoteCommittedSegmentUntilThreshold | server/internal/downloader/resume.go:543-567 | The object changes exactly as the value function Commit, and stays exact unless media counts twice |
| Resume.ResumeState.NoteGapUntilThreshold | server/internal/downloader/resume.go:581-598 | The object changes exactly as the value function Skip and stays exact |
| Resume.ResumeState.NoteRangeGapUntilThreshold | server/internal/downloader/resume.go:620-643 | The object changes exactly as the value function Roll and stays exact |
| Resume.ResumeState.AdvanceUntilThreshold | server/internal/downloader/resume.go:652-672 | The loop over the frontier computes the closed form Advance, deleting what it folds from buffer, map and set |
| Resume.ResumeState.InsertCompleted | server/internal/downloader/resume.go:687-693 | Inserting keeps the buffer ascending and adds exactly one sequence |
| Resume.ResumeState.DeleteSingleGap | server/internal/downloader/resume.go:695-705 | Removes exactly the single-sequence gaps at a sequence and says whether there were any |
| Resume.ResumeState.SealThresholdSplitBoundary | server/internal/downloader/resume.go:725-743 | Trims buffer, map, gaps and resolved set to the boundary and changes nothing else |
| Resume.ResumeState.TrimGapsToBoundary | server/internal/downloader/resume.go:757-769 | The gap list cut at a boundary |
| Resume.ResumeState.AuthGapSeqs | server/internal/downloader/resume.go:783-794 | Exactly the single-sequence auth gaps |
| Resume.ResumeState.SkipSet | server/internal/downloader/resume.go:804-821 | A sequence is in the set if and only if it is buffered or gap-covered; with the frontier test it agrees with ShouldSkip |
| Resume.ResumeState.ShouldSkip | server/internal/downloader/resume.go:826-840 | Agrees with the definition of a resolved sequence |
| Resume.ResumeState.MarshalJSON | server/internal/downloader/resume.go:846-859 | Writes the serialized fields with the accounting of exactly the buffered sequences |
| Checkpoints.CrashRoundTrip | server/internal/downloader/resume.go:292-334 | For every valid started part, saving and reloading give back the very same checkpoint, in-memory structures included |
| Checkpoints.BeginNewPartRoundTrip | server/internal/downloader/resume.go:410-428 | Right after a discontinuity the round trip holds if and only if no gap was carried over; with a gap the part is taken for a started one |
| Checkpoints.ReanchorRoundTrip | server/internal/downloader/resume.go:437-453 | Right after a re-anchor the round trip always holds |
| Checkpoints.StagesInOrder | server/internal/downloader/resume.go:27-54 | A stage is at or after another if and only if the pipeline does not reach it before; an unknown stage stands with the first |
| Checkpoints.ChangesExact | server/internal/downloader/downloader.go:2398-2430 | A newly selected variant is refused if and only if taking it would change something that is locked |
| LegacyStart.FlaglessReloadExact | server/internal/downloader/resume.go:292-334 | A valid started part saved without the started flag reloads as it was unless it holds nothing but segment 0; that one is recovered from the segment's file if and only if it was in its fetch, and no other part is |
| Accountants.PartThresholdAccountant.Commit | server/internal/downloader/downloader.go:2295-2297 | A commit through the accountant changes part and split exactly as CommitPart |
| Accountants.PartThresholdAccountant.Gap | server/internal/downloader/downloader.go:2299-2301 | A gap through the accountant changes part and split exactly as GapPart |
| Accountants.PartThresholdAccountant.AuthGap | server/internal/downloader/downloader.go:2303-2310 | An auth failure is recorded and never cuts the part |
| Accountants.PartThresholdAccountant.RecordRangeGap | server/internal/downloader/downloader.go:2312-2318 | Records a lost range and reports the crossing without sealing |
| Accountants.PartThresholdAccountant.SealIfCrossed | server/internal/downloader/downloader.go:2320-2329 | Seals exactly when a ceiling was crossed, no split is pending and the part has content, and fires then |
| Accountants.PartThresholdAccountant.OnEvent | server/internal/downloader/downloader.go:2564-2607 | Outcomes above a sealed boundary are ignored; each other outcome takes its own path |
| Accountants.PartThresholdAccountant.OnMidStreamWindowRoll | server/internal/downloader/downloader.go:2560-2563 | A mid-stream roll is recorded and then cut |
| Accountants.PartThresholdAccountant.OnWindowRoll | server/internal/downloader/downloader.go:2541-2559 | A first-poll roll is recorded; one that lost more time than the threshold on a part with content asks for a restart split and does not seal, any other is cut as usual |
| Accountants.RestartSplitGoesFirst | server/internal/downloader/downloader.go:2490-2505 | A first-poll roll keeps the part valid; where the lost segments last longer than the threshold, on a part with content, a restart split goes before a ceiling the same roll reached, cutting and forgetting nothing with the whole lost range resolved; otherwise the roll is an ordinary one |
| Accountants.ForcesSplitExact | server/internal/downloader/downloader.go:1990-2013 | The restart split is asked for if and only if the threshold is on, the number of lost segments times their duration exceeds it, and the part has a sequence to finalize |
| Accountants.ApplyKeeps | server/internal/downloader/downloader.go:2564-2607 | Every callback, in any order, keeps the frontier invariant and the seal protocol |
| Accountants.ApplyResolves | server/internal/downloader/downloader.go:2564-2607 | Until the part is sealed a callback resolves what it reports and forgets nothing |
| Accountants.CutsAtFrontier | server/internal/downloader/downloader.go:2320-2329 | A part is cut exactly where its frontier stands |
| Accountants.SealedStays | server/internal/downloader/downloader.go:2564-2569 | After the cut, anchor and boundary stay whatever still arrives |
| Accountants.SealedExact | server/internal/downloader/downloader.go:2564-2607 | After the cut a report about one segment changes the part if and only if it is a commit that fills a loss at or below the boundary; then exactly that segment's media is added |
| GapReasons.GapsWereReported | server/internal/downloader/downloader.go:2571-2600 | Over any stream of callbacks from a fresh part, in any order, sealed or not, every gap was reported by one of them for the reason it gives |
| GapReasons.LossIsRecorded | server/internal/downloader/downloader.go:2571-2600 | A reported loss that was not counted yet and is not cut off is recorded with its own reason, a rolled sequence even where it was committed |
| GapReasons.RefetchExact | server/internal/downloader/resume.go:783-794 | An expired token puts its segment on the list to fetch again unless it is counted already, a commit takes it off, the cut takes off what it leaves to the next part, and nothing else changes the list |
| GapReasons.ResumesAtFirstHole | server/internal/downloader/downloader.go:2355-2372 | A part resumed in its fetch asks for the first sequence it has not accounted for, for no earlier one but the segments an expired token lost, and starts its counts anew |
| Conservation.StreamConserves | server/internal/downloader/resume.go:547-567 | After any stream of outcomes, auth failures, refetches and rolls that commits each sequence at most once, the part's bytes and seconds are the sums over the committed sequences at or below the frontier |
| Conservation.AuthRefetchOvershoots | server/internal/downloader/downloader.go:2303-2310 | The first way out of the overshoot bound, a refill: a stream whose auth-failed sequence is refetched below the frontier cuts a part far above ceiling plus boundary segment |
| Overshoots.OrderlyIsBounded | server/internal/downloader/downloader.go:2286-2329 | On any valid part below its ceilings every event but an auth failure or a refill below the frontier, rolls and repeats included, keeps it below them or cuts it within its boundary segment of each |
| Overshoots.Overshoot | server/internal/config/types.go:225-236 | The same over every stream of such events, in any order: below the ceilings until the cut, then over none by more than the boundary segment |
| Overshoots.NextSegmentExact | server/internal/downloader/downloader.go:2295-2329 | The next contiguous segment stays within the bound if and only if the part was below its ceilings before it |
| Overshoots.RefillExact | server/internal/downloader/resume.go:543-567 | A refill stays within the bound if and only if the media committed up to the frontier, with the refill, is below the ceilings or over none by more than the segment at the frontier |
| Overshoots.AuthFailureExact | server/internal/downloader/downloader.go:2303-2310 | An auth failure stays within the bound if and only if the media committed up to the end of the contiguous run of committed and lost sequences that it completes is below the ceilings |
| Overshoots.AuthFoldOvershoots | server/internal/downloader/downloader.go:2303-2310 | The second way out: an auth failure folds a buffered commit past the ceiling uncut, and a part of 101 bytes under a ceiling of 10 is cut at a segment of one byte |
| Confluence.StreamIsBatch | server/internal/downloader/downloader.go:2564-2607 | Recording a fresh stream one outcome at a time, cutting on the way, ends in the same state as noting everything, advancing once and cutting once |
| Confluence.BoundaryIsLeast | server/internal/downloader/resume.go:652-672 | A fresh stream seals if and only if a contiguous prefix reaches a ceiling, and then at the least such sequence with that prefix as the total |
| Confluence.PlaysLikeFirsts | server/internal/downloader/downloader.go:2564-2607 | A stream that reports outcomes again, its own or those the part has counted before, plays like the first reports of its fresh outcomes |
| Confluence.BoundaryConfluence | server/internal/downloader/downloader.go:2286-2329 | Two orders of the same outcomes, each reported any number of times and perhaps counted before, give the same split, frontier, totals, buffer and media, and the same set of gaps |
| RefillOrder.RefillOrderExact | server/internal/downloader/resume.go:543-567 | Refilling a lost sequence before or after a fresh stream gives the same part if and only if, with the refill counted, no ceiling is reached before the place where the stream alone stops |
| RefillOrder.RepeatOrderExact | server/internal/downloader/resume.go:543-567 | Reporting a buffered sequence again before or after a fresh stream gives the same part if and only if the stream stops below it or the media are the same |
| PartGuards.GapCountIsUpperBound | server/internal/downloader/downloader.go:1782-1791 | The gap count never falls short of the lost sequences, and is exact if and only if no two gaps overlap |
| PartGuards.UngappedIsLowerBound | server/internal/downloader/downloader.go:1753-1776 | The ungapped count never exceeds the committed sequences, and equals them if and only if the gaps are disjoint, inside the interval and free of commits |
| PartGuards.CommittedMediaSound | server/internal/downloader/downloader.go:1884-1893 | A checkpoint that claims committed media has some |
| PartGuards.RolledOverCommitLooksEmpty | server/internal/downloader/resume.go:612-643 | No ceiling is needed for it: after a roll over a buffered commit a sound ledger with media claims none |
| PartGuards.CommittedMediaExact | server/internal/downloader/downloader.go:1884-1893 | The claim holds if and only if something is buffered or the committed sequences outnumber what the gap list counts beyond the lost ones, and it counts nothing beyond them if and only if the gaps are exact |
| PartGuards.CommittedMediaComplete | server/internal/downloader/downloader.go:1884-1904 | With exact gaps the claim is an equivalence, and a part with media is always finalized |
| PartGuards.SynthesizedDone | server/internal/downloader/downloader.go:1753-1776 | The synthesized count is between zero and the committed count, and equal to it if and only if the gaps are exact |
| PartGuards.SplitEndExact | server/internal/downloader/downloader.go:1922-1953 | Whatever asked for the split, a built part ends the run in its place if and only if its fetch saw ENDLIST, with no sequence past the boundary if it is sealed |
| PartGuards.EmptyPartVerdict | server/internal/downloader/downloader.go:1411-1444 | A later part without media, after a fetch that counted nothing done, is never built: it finishes the run if and only if ENDLIST was seen, is re-anchored if and only if not but a split is pending, and fails the run otherwise |
| PartGuards.VerdictExact | server/internal/downloader/downloader.go:1850-1904 | With exact gaps a part is built if and only if it is the first, the fetch counted a segment done, or it holds media |
| PartGuards.ResumedVerdictExact | server/internal/downloader/downloader.go:1753-1776 | The same for a part resumed after its fetch, from the checkpoint alone: built if and only if it is the first or holds media, finished as empty if and only if ENDLIST was seen, at the boundary if sealed |
| ExactGaps.RollKeepsClear | server/internal/downloader/resume.go:612-643 | A range gap keeps the gaps disjoint and off the commits if and only if it finds nothing resolved where it is recorded |
| ExactGaps.CommitKeepsClear | server/internal/downloader/resume.go:543-567 | A commit keeps them so if and only if it does not land inside a range gap |
| ExactGaps.SkipKeepsClear | server/internal/downloader/resume.go:581-598 | A single gap always keeps them so |
| ExactGaps.SealedRollExact | server/internal/downloader/downloader.go:2490-2505 | After the seal a roll keeps the gaps exact if and only if it records nothing |
| ExactGaps.ApplyKeepsExact | server/internal/downloader/downloader.go:2490-2607 | Every callback that counts no sequence twice keeps the gaps exact, through the seal |
| ExactGaps.ApplyKeepsFunded | server/internal/downloader/downloader.go:2286-2329 | Every callback keeps the part total resting on media at or below the frontier, and a seal on a total |
| ExactGaps.SealedIsFinalized | server/internal/downloader/downloader.go:1895-1904 | A sealed part with exact gaps is never judged empty, whatever the fetch reports and however it was resumed |
| ExactGaps.RolledOverSealLooksEmpty | server/internal/downloader/downloader.go:1895-1904 | The exact gaps are needed: a roll over a buffered commit seals a valid part with media that the code judges empty, before and after a restart |
| ExactGaps.LateRollLooksEmpty | server/internal/downloader/downloader.go:2490-2505 | So does a roll recorded after the seal, on a part without any loss |
| Fetching.AttemptTotals.FoldHLSAttemptResult | server/internal/downloader/downloader.go:2693-2726 | Aggregate and unresolved set after an attempt, field by field |
| Fetching.RefetchSeqsForNextAttempt | server/internal/downloader/downloader.go:2682-2691 | The refetch list is sorted and holds exactly the auth-failed and the unresolved canceled sequences |
| Fetching.ReportKeeps | server/internal/downloader/downloader.go:2564-2607 | Callbacks keep the fetch loop's invariant: nothing below the next start is lost |
| Fetching.EndAttemptKeeps | server/internal/downloader/downloader.go:2629-2652 | After an attempt every sequence up to the aggregate's last is resolved or on the next refetch list; ENDLIST turns true only when no canceled sequence is unresolved |
| Fetching.RefetchListExact | server/internal/downloader/downloader.go:2682-2691 | The next attempt is asked again for exactly the segments the expired token lost and the canceled ones, old or new, that nothing has resolved since |
| AggregateTotals.AggregateExact | server/internal/downloader/downloader.go:2693-2726 | Over any attempts and callbacks bytes, ad gaps and cancellations add up, done and gap counts are the last attempt's, kind and init segment are what was told last, and the last sequence is the largest |
| AggregateTotals.EndListExact | server/internal/downloader/downloader.go:2720-2726 | The aggregate's ENDLIST is set if and only if some attempt saw it at a moment when no canceled segment was unresolved |
| Fetching.NoHoleAcrossRefreshes | server/internal/downloader/downloader.go:2334-2671 | After any callbacks and any number of unsealed attempts, every sequence from the part start to below the next start is resolved or on the refetch list |
| Fetching.EndListMeansResolved | server/internal/downloader/downloader.go:2720-2726 | When ENDLIST holds, the frontier has reached the aggregate's last sequence |
| Fetching.SilentAttemptExact | server/internal/downloader/downloader.go:2629-2652 | After a first attempt without outcomes nothing below the next start is lost if and only if the attempt asked for 1 or more or 0 is resolved |
| PartLoopFacts.UnanchoredReload | server/internal/downloader/resume.go:292-334 | Reloading a part that has no anchor gives it back if and only if no window roll was recorded in it; with one it is taken for a started part |
| PartLoopFacts.RecoverKeeps | server/internal/downloader/downloader.go:1817-1841 | A segment 0 written before the anchor is not lost: the part starts at 0 with 0 accounted for and nothing counted for it, and stays valid |
| PartLoopFacts.CrashKeeps | server/internal/downloader/resume.go:846-875 | Outside that window reloading the durable checkpoint gives exactly what was saved and re-enters the loop in a valid state |
| PartLoopKeeps.AnchorApply | server/internal/downloader/downloader.go:2490-2607 | A callback keeps an anchored part valid, its gaps exact past the first part, its start in place and nothing recorded past the end of the broadcast |
| PartLoopKeeps.AttemptTrusted | server/internal/downloader/downloader.go:2629-2671 | An attempt that told everything leaves nothing lost below the next start, and ENDLIST only where the part reaches the end of the broadcast |
| PartLoopKeeps.VerdictMeaning | server/internal/downloader/downloader.go:1850-1904 | A valid part that asked for a split is never re-anchored as empty, and one that is finished as empty at the end of the broadcast has no media |
| PartLoopKeeps.FinalRowOk | server/internal/downloader/downloader.go:1742-1751 | The recorded end of a part is its boundary if it is sealed and otherwise the later of its frontier and the fetch's last sequence; the row accounts for everything up to the part's end, and a sealed part's row is complete |
| PartLoopKeeps.ContinueKeeps | server/internal/downloader/downloader.go:1615-1642 | The next part starts right after a complete row, with ENDLIST forgotten unless proven |
| PartLoopKeeps.StepKeeps | server/internal/downloader/downloader.go:1292-1481 | Every safe action of the part loop, a crash after any checkpoint included, keeps the invariant of the whole run |
| PartRuns.StartsInv | server/internal/downloader/downloader.go:1753-1776 | A fresh start is valid, and so is resuming a first part that has files but no anchor, and any part from a sealed checkpoint of an older version with a bare ENDLIST flag, whatever rows came before |
| PartRuns.PartsTile | server/internal/downloader/downloader.go:1292-1481 | After any safe run from any of these starts each part starts one past the end of the part before it, and every part that is over, the last one included, consists of files inside its interval which, with its gaps, cover all of it |
| PartRuns.UntruncatedIsWhole | server/internal/downloader/downloader.go:1369-1385 | A safe run that finished with ENDLIST seen accounts for every sequence up to the end of the broadcast |
| PartRuns.PendingSplitDecision | server/internal/downloader/downloader.go:1942-1953 | A pending threshold split ends the run if and only if ENDLIST was proven at the boundary; otherwise a continuation opens at boundary + 1 with ENDLIST unseen, or the cap refuses |
| PartRuns.PollExact | server/internal/downloader/hls/poller.go:297-360 | No worker is given a sequence below the part if and only if the attempt or its playlist starts at or above the part |
| PartRuns.SilentRetryExact | server/internal/downloader/downloader.go:2640-2652 | After an attempt without outcomes no file is written below the part if and only if the playlist starts at or above it, or the part starts at 0 or 1 |
| PartRuns.LeftoversExact | server/internal/downloader/downloader.go:2529-2540 | The first poll leaves every file inside the part if and only if no earlier attempt left one below the playlist |
| PartRuns.FirstPollExact | server/internal/downloader/downloader.go:2529-2540 | And then it leaves nothing lost if and only if the playlist starts no earlier than was asked for; the attempt starts at the first sequence that is handed out |
| PartRuns.CrashExact | server/internal/downloader/resume.go:292-334 | A crash anywhere in a valid run resumes with what was saved if and only if the part was anchored or no roll was recorded in it |
| PartProgress.EmptyPartNeverRuns | server/internal/downloader/downloader.go:1411-1444 | In a valid run a later part without media whose fetch counted nothing done is never built: the run finishes if ENDLIST was seen and fails if not |
| PartProgress.FinishedStaysFinished | server/internal/downloader/downloader.go:1411-1418 | A run that finished with an empty part is judged the same way by a process that dies then and comes back |
| PartProgress.RowsHoldFiles | server/internal/downloader/downloader.go:1392-1444 | In any safe run whose attempts count only what they have written, every row past the first is built from at least one segment file |
| PartProgress.FinishExact | server/internal/downloader/downloader.go:1360-1481 | A built part ends the run at its sealed boundary if and only if the fetch saw ENDLIST with no sequence past the boundary; without a split it ends the run, and the recording counts as ended if and only if ENDLIST was seen by then |
| PartProgress.CapDecisionExact | server/internal/downloader/resume.go:358-395 | The loop refuses another part if and only if its split's own cap is spent: the configured number of parts, 1024 by default, for a threshold split, 32 parts and re-anchors together for any other |
| PartProgress.CapExact | server/internal/downloader/resume.go:358-395 | A built part with a split that is not the end fails the run if and only if it was the last one the configuration, or the default of 1024, allows |
| PartProgress.PartsAreCapped | server/internal/downloader/resume.go:358-395 | No safe run has more rows than that cap, however often the process dies |
| PartProgress.CrashPastFetchLosesNothing | server/internal/downloader/downloader.go:1302-1332 | A crash of a safe run that is past its fetch resumes with the very part the process had, with the same files and rows, in its fetch if and only if the checkpoint has no split and no later stage |
| PartProgress.FetchIsOverExact | server/internal/downloader/downloader.go:1778-1780 | A fetch is skipped if and only if a split is pending or the stage is past the segments; only Auth and an unknown stage stand equal |
| PartProgress.LockAndSignalSurvive | server/internal/downloader/resume.go:471-491 | Across any safe run of threshold splits, crashes included, the loop never touches the variant lock or the re-anchor count, and the window-roll signal is never lost and covers every roll of a built part |
| LoopFailures.RollBeforeAnchorLosesZero | server/internal/downloader/hls/orchestrator.go:440-452 | The failing run of a crash between a roll and the anchor: the part comes back as started at 0, which is neither file nor gap in any row it can end in |
| LoopFailures.SequenceZeroLost | server/internal/downloader/downloader.go:2629-2652 | The failing run of a retry before the first poll with a playlist that still begins at 0: the run ends with ENDLIST seen and 0 nowhere |
| LoopFailures.SilentRetryDuplicates | server/internal/downloader/downloader.go:2640-2652 | The failing run of a refused playlist at the start of a continuation part: the next attempt starts at 1, and where the playlist still serves the part before, its segments land in both |
| LoopFailures.LeftoverBelowAnchor | server/internal/downloader/hls/orchestrator.go:396-452 | The failing run of a segment written before the anchor's checkpoint: after a crash the part is anchored at a later base and finalized with a file from below its start |
| LoopFailures.RolledOverPartIsDropped | server/internal/downloader/downloader.go:1895-1904 | The failing run of a roll over a buffered commit after a restart: the sealed part is re-anchored, its media gets no row, and the rows no longer tile |
| PartSteps.SegmentDir.PruneAfterBoundary | server/internal/downloader/downloader.go:1955-1981 | Removes the segment files above a boundary and no other |
| PartSteps.RecoverLegacySeqZeroPartStarted | server/internal/downloader/downloader.go:1817-1841 | Fires exactly on a checkpoint that was never anchored beside a segment 0 on disk; only the started flag changes, and the accounting is then exact |
| PartSteps.CountGapSeqs | server/internal/downloader/downloader.go:1782-1791 | The loop computes the gap count |
| PartSteps.CaptureHadWindowRoll | server/internal/downloader/downloader.go:1906-1920 | The window-roll signal is carried from the gaps to the checkpoint, and a change is reported exactly when there is one |
| PartSteps.NoteEndList | server/internal/downloader/downloader.go:1369-1385 | The ENDLIST bookkeeping after a fetch, and exactly when it must be saved |
| PartSteps.ContinueAfterPendingSplit | server/internal/downloader/downloader.go:1615-1642 | Threshold splits continue, all others begin anew, and only when the cap allows |
| PartSteps.ReanchorAfterEmptySplit | server/internal/downloader/downloader.go:1644-1661 | Re-anchors a part without media when the cap allows |
| PartLoopTermination.TurnDecreases | server/internal/downloader/downloader.go:1411-1435 | Every turn the loop's own verdict and caps allow lowers the rank; it stays within the caps unless a threshold split re-anchors with the discontinuity cap spent |
| PartLoopTermination.TurnsAreBounded | server/internal/downloader/downloader.go:1615-1661 | No run whose threshold splits continue takes more turns than the two caps allow |
| PartLoopTermination.CleanLapContinues | server/internal/downloader/downloader.go:1850-1904 | A part fetched without counting a sequence twice is continued after a threshold split, and the next one starts the same |
| PartLoopTermination.CleanLapsAreBounded | server/internal/downloader/downloader.go:1615-1661 | So a run of such fetches, with any mix of splits and reloads, takes no more turns than the two caps allow |
| PartLoopTermination.RolloversNeverStop | server/internal/downloader/resume.go:437-453 | Otherwise there are histories of every length from a fresh start, over a playlist that only moves on and with a reload in every lap, through valid sealed parts that hold media: a threshold re-anchor spends no cap |
| PartTurns.FetchKeepsLock | server/internal/downloader/downloader.go:2398-2430 | Over any fetch, selections, polls, callbacks and reloads included, nothing locked of the variant changes, the window-roll signal stays and a requested split is never taken back |
| PartTurns.AnchorStartsOver | server/internal/downloader/resume.go:347-356 | The first poll starts an unanchored part at the playlist's base with nothing accounted for but what lies below it and no boundary, and keeps the requested split and everything that is not about the part |
| PartTurns.TurnLaw | server/internal/downloader/resume.go:397-491 | What each of the three turns carries over: only a threshold split keeps the variant lock, the anchor and a proven ENDLIST, only a discontinuity keeps the gaps, every turn keeps the window-roll signal and clears the split |
| PartTurns.ThresholdsKeepVariant | server/internal/downloader/resume.go:471-491 | Along any chain of threshold splits nothing that is locked of the variant changes |
| PartTurns.SignalExact | server/internal/downloader/downloader.go:1906-1920 | Over any history of turns the window-roll signal is set if and only if it was set before or some judged part held a roll |
| PartTurns.CapRefusesExact | server/internal/downloader/resume.go:376-395 | Over any history a threshold split is refused if and only if the threshold cap is on and spent by parts, any other if and only if the discontinuity cap is on and spent by turns |
| Sql.ValueOrder | server/internal/repository/videos_page_sql.go:254-314 | The comparison of column values is a strict total order |
| Sql.Resolved | server/internal/repository/videos_page_sql.go:39-48 | Reading rendered text back against its arguments, by counting ? or by $N, gives every value in its own place |
| VideoFilters.EqualsOrAnyMeans | server/internal/repository/videos_page_sql.go:145-146 | The equality filters under three-valued logic |
| VideoFilters.NullOrMeans | server/internal/repository/videos_page_sql.go:147-150 | The range filters under three-valued logic: a NULL column matches only without a bound |
| VideoFilters.QualityMatchMeans | server/internal/repository/videos_page_sql.go:136-144 | The five-way quality match |
| VideoFilters.WindowMatchMeans | server/internal/repository/videos_page_sql.go:152-156 | The recency window |
| VideoFilters.IncompleteMatchMeans | server/internal/repository/videos_page_sql.go:158-163 | The incomplete filter means the same with booleans and with 0 and 1 |
| VideoFilters.TerminalMatchMeans | server/internal/repository/videos_page_sql.go:165 | The terminal filter in both dialects |
| VideoFilters.WatchLaterMatchMeans | server/internal/repository/videos_page_sql.go:172-195 | The watch-later filter in both dialects |
| VideoFilters.UnwatchedMatchMeans | server/internal/repository/videos_page_sql.go:197-228 | The unwatched filter in both dialects |
| VideoFilters.ScopeMatchMeans | server/internal/repository/videos_page_sql.go:126-134 | The tombstone scope |
| VideoPageSql.VideoPageBuilder.Ph | server/internal/repository/videos_page_sql.go:39-48 | A placeholder call appends one value and writes its mark |
| VideoPageSql.VideoPageBuilder.PhBool | server/internal/repository/videos_page_sql.go:88-97 | Booleans bind as booleans or as 0 and 1 |
| VideoPageSql.VideoPageBuilder.PhTextPtr | server/internal/repository/videos_page_sql.go:53-62 | Nullable text binds NULL or its value in either dialect |
| VideoPageSql.VideoPageBuilder.PhFloatPtr | server/internal/repository/videos_page_sql.go:64-73 | Nullable numbers likewise |
| VideoPageSql.VideoPageBuilder.PhIntPtr | server/internal/repository/videos_page_sql.go:75-84 | Nullable integers likewise |
| VideoPageSql.VideoPageBuilder.PhTime | server/internal/repository/videos_page_sql.go:99-104 | An absent time binds NULL |
| VideoPageSql.VideoPageBuilder.QualitySQL | server/internal/repository/videos_page_sql.go:136-144 | The five placeholders of the quality match stand in the order of the text |
| VideoPageSql.VideoPageBuilder.FiltersSQL | server/internal/repository/videos_page_sql.go:121-170 | The filters' values are appended in the order of the filters' text |
| VideoPageSql.VideoPageBuilder.WatchLaterSQL | server/internal/repository/videos_page_sql.go:172-195 | The watch-later values stand in the order of its text |
| VideoPageSql.VideoPageBuilder.UnwatchedSQL | server/internal/repository/videos_page_sql.go:197-228 | The unwatched values stand in the order of its text |
| VideoPageSql.VideoPageBuilder.TieSQL | server/internal/repository/videos_page_sql.go:269-276 | The tie-break's three values stand in the order of its text |
| VideoPageSql.VideoPageBuilder.CursorAndOrderSQL | server/internal/repository/videos_page_sql.go:230-316 | For each of the ten sort and order pairs, the cursor's values stand in the order of the text, beside that mode's ORDER BY |
| VideoPageSql.BuildListVideosPageQuery | server/internal/repository/videos_page_sql.go:108-119 | Text, order, limit and argument list agree position by position with the query the options ask for; RenderedQueryMeans says which rows that is, in which order |
| VideoOrder.BeforeIsStrict | server/internal/repository/videos_page_sql.go:254-314 | Each ORDER BY is irreflexive and compares any two rows that differ in a key |
| VideoOrder.BeforeIsTransitive | server/internal/repository/videos_page_sql.go:254-314 | Each ORDER BY is transitive |
| VideoOrder.KeysIncludeId | server/internal/repository/videos_page_sql.go:254-314 | No two videos tie in any mode |
| VideoOrder.WhenIs | server/internal/repository/pagination.go:137-151 | The COALESCE key of the history order is the timestamp the page shows |
| VideoSorts.TextLessIs | server/internal/repository/videos_page_sql.go:269-276 | Names are compared at the first character that differs, a prefix first |
| VideoSorts.OrderMeans | server/internal/repository/pagination.go:76-88 | In either dialect the ORDER BY puts rows in the order the option strings promise, told by the rows' own columns: only asc ascends, unknown lengths and sizes come last, ties are newest first, and an unknown sort is newest first whatever the order says |
| VideoOrder.CursorPicksLaterRows | server/internal/repository/videos_page_sql.go:254-314 | Under three-valued logic each cursor condition accepts exactly the rows strictly after the cursor's source row in its ORDER BY, NULLS LAST and mixed directions included |
| VideoOrder.NoCursorAcceptsAll | server/internal/repository/videos_page_sql.go:230-253 | Without a cursor every row passes |
| VideoOrder.ForeignCursor | server/internal/repository/videos_page_sql.go:230-316 | What each order accepts for a cursor minted for another: the channel order everything, the creation order the rows after its source, the history order with the recording's start in place of the key, duration and size as for a source without a value |
| VideoOrder.ChannelIgnoresCursor | server/internal/repository/videos_page_sql.go:269-276 | The channel order ignores a cursor if and only if the cursor carries no name |
| VideoPageMeaning.QueryReadsBack | server/internal/repository/videos_page_sql.go:108-119 | The engine reads back the query the builder meant, in either dialect |
| VideoPageMeaning.FiltersAccept | server/internal/repository/videos_page_sql.go:121-170 | All filters together accept exactly the rows the options want |
| VideoPageMeaning.RenderedQueryMeans | server/internal/repository/videos_page_sql.go:108-119 | The rendered text and arguments keep exactly the wanted rows that come after the cursor's row in the order the option strings promise, hand them out in that order, and at most one more than the page shows |
| VideoPageMeaning.DialectsAgree | server/internal/repository/videos_page_sql.go:19-48 | Both dialects keep the same rows in the same order |
| Videos.ListVideosPageQueryLimit | server/internal/repository/pagination.go:90-97 | The query asks for at least one row and for exactly one more than the page shows |
| PageWalk.PageIsGood | server/internal/repository/pagination.go:99-113 | A page's rows ascend strictly after its cursor; a wanted row is on the page or past its last row; the next cursor is the last row's |
| PageWalk.PageIsFull | server/internal/repository/pagination.go:99-113 | A page shows only rows it is about, ends the walk if and only if it leaves none of them over, and is full when it does not |
| PageWalk.WalkAscends | server/internal/repository/pagination.go:99-135 | Everything a walk returns ascends strictly |
| PageWalk.WalkInOrder | server/internal/repository/pagination.go:76-135 | Whatever changes between the pages, a walk hands out its items in the order the option strings promise |
| PageWalk.OnlyWanted | server/internal/repository/pagination.go:99-135 | A walk returns nothing but rows that were in the table and wanted when one of its pages was read |
| PageWalk.NoRowTwice | server/internal/repository/pagination.go:99-135 | No walk returns a row twice while rows are inserted or deleted: items with one id differ in a sort key |
| PageWalk.ExactlyOnce | server/internal/repository/pagination.go:90-151 | A row present throughout with unchanged sort keys is returned exactly once by a walk that ends, in every order and for every page size |
| RelayBuffer.IngestKeepsOrder | relay/src/relay-do.ts:243-260 | A stored event gets a number above every number ever given out, whatever was pruned |
| RelayBuffer.ReplayAscends | relay/src/relay-do.ts:137-147 | Replay sends in sequence order, only past the cursor |
| RelayBuffer.IngestCovers | relay/src/relay-do.ts:269-277 | After an arrival the alarm is set one second after the oldest row's expiry, at least a second ahead |
| RelayBuffer.AlarmPrunes | relay/src/relay-do.ts:204-207 | When the alarm fires exactly the unexpired rows stay and an alarm is pending again; an expired oldest row is gone |
| RelayBuffer.BootCovers | relay/src/relay-do.ts:52-55 | A constructor leaves an alarm that covers the table, never less than a second ahead |
| RelayBuffer.PruneCovers | relay/src/relay-do.ts:262-267 | Pruning between schedules leaves the alarm in time |
| RelayEnds.RelayDO.constructor | relay/src/relay-do.ts:44-56 | Only a positive configured lifetime replaces the default, and the table is scheduled |
| RelayEnds.RelayDO.Ingest | relay/src/relay-do.ts:65-122 | Buffer, frames sent to each socket, and reply, for stored events and for challenges |
| RelayEnds.RelayDO.Broadcast | relay/src/relay-do.ts:279-287 | Every live socket gets the frame, and a dead one does not stop the others |
| RelayEnds.RelayDO.StoreEvent | relay/src/relay-do.ts:243-260 | Stores the event under the next number and returns it |
| RelayEnds.RelayDO.PruneExpired | relay/src/relay-do.ts:262-267 | Deletes exactly the rows older than the lifetime |
| RelayEnds.RelayDO.ScheduleNextPrune | relay/src/relay-do.ts:269-277 | Sets the alarm from the oldest row, or leaves it when there is none |
| RelayEnds.RelayDO.Replay | relay/src/relay-do.ts:137-161 | A socket gets the due rows in order up to its first failed send |
| RelayEnds.RelayDO.Alarm | relay/src/relay-do.ts:204-207 | The alarm handler prunes, then schedules from a second clock reading |
| RelayEnds.RelayClient.AdvanceCursor | server/internal/relayclient/client.go:313-326 | The cursor is the maximum of the positive cursors it was given |
| RelayEnds.RelayClient.HandleFrame | server/internal/relayclient/client.go:255-299 | A frame fails if and only if it does not decode, the dispatch errs, the answer is 400 or more, or the result cannot be sent; a failure ends the session and keeps the cursor, anything else raises it to the frame's number at least |
| RelaySystem.SessionStays | relay/src/relay-do.ts:65-161 | Steps that leave the line of frames alone keep the session safe |
| RelaySafety.StepKeeps | relay/src/relay-do.ts:65-287 | Every step of relay, network and client keeps the invariant: arrivals, challenges, broadcasts, replays, rejections, send failures, disconnects, alarms, restarts |
| RelaySafety.CursorIsSafe | server/internal/relayclient/client.go:189-326 | After any run every event up to the client's cursor had, when the cursor moved past it, been answered with a status below 400, in the body it was stored with, or its time to live was over |
| RelaySafety.CursorIsExact | server/internal/relayclient/client.go:255-326 | After any run the cursor is the highest number of a frame that decoded, was answered below 400 and had its answer sent back, and 0 if there was none |
| RelaySafety.BufferExpires | relay/src/relay-do.ts:52-86 | After any run a buffered row means a pending alarm, neither too late nor less than a second after the last clock reading of a constructor or an alarm, and sequence numbers ascend |
| RelayLossy.DeadSocketExact | relay/src/relay-do.ts:279-287 | On frames the client waits for, what it hears is without gaps if and only if no send succeeds after a failed one |
| RelayLossy.LaterFramePasses | relay/src/relay-do.ts:279-287 | A run over a socket that sends again after a failure: the cursor passes an event that was neither taken nor expired |
| Waveform.ResolvedDurations | server/internal/waveform/waveform.go:126-166 | Known lengths are kept, unknown ones share one fallback, none is negative, and the total is their sum |
| Waveform.TotalIsClaim | server/internal/waveform/waveform.go:144-165 | With unknown parts the total is the video's claimed length, unless the known parts exceed it |
| Waveform.FallbackIsAverage | server/internal/waveform/waveform.go:144-152 | Without a claim, unknown parts last the average of the known ones, and no time if nothing is known |
| WaveformPoints.SortRemainders | server/internal/waveform/waveform.go:202-212 | Sorted by remainder then index, same elements |
| WaveformPoints.LeadersNonzero | server/internal/waveform/waveform.go:202-215 | The parts that get an extra point have a remainder |
| WaveformPoints.SharesAddUp | server/internal/waveform/waveform.go:190-201 | Whole shares and remainders add up to the points left |
| WaveformPoints.AddExtras | server/internal/waveform/waveform.go:213-215 | One extra point for each of the first in the ranking, the index never wrapping |
| WaveformPoints.GoRound | server/internal/waveform/waveform.go:182-187 | Without lengths the points go round: counts differ by at most one, earlier parts first |
| WaveformPoints.AllocatePoints | server/internal/waveform/waveform.go:168-218 | Every part gets a point, the target is met exactly, each count is within one of its exact share, a longer part never gets fewer, and what the whole shares leave over goes to the largest remainders |
| WaveformPoints.ExactIsShare | server/internal/waveform/waveform.go:190-201 | A part's exact share is as much of the points as its length is of the total |
| WaveformPoints.PointCount | server/internal/waveform/waveform.go:220-232 | At least the minimum, one per part and what the duration asks for up to the maximum; never above the maximum, nor a whole point above what the duration asks for, unless the minimum or the parts need more |
| WaveformPoints.BuildPlan | server/internal/waveform/waveform.go:98-124 | A plan exists exactly when there are parts and they last; it allocates all its points |
| WaveformPoints.NormalizePeaks | server/internal/waveform/waveform.go:480-484 | Exactly the planned number of peaks, cut or padded with silence |
| WaveformPoints.Generate | server/internal/waveform/waveform.go:307-328 | The parts' peaks one after the other, or nothing at the first failure |
| WaveformPoints.ExactWidth | server/internal/waveform/waveform.go:307-328 | Whatever the generator returns, the picture has exactly PointCount peaks |
| WaveformPoints.PeaksAt | server/internal/waveform/waveform.go:307-328 | Part i's peaks stand where the points of the parts before it end: its generator's own first, then silence |
| WaveformPcm.ReadPCM16Peaks | server/internal/waveform/waveform.go:413-457 | The result is the per-bucket maximum over the whole stream, whatever the chunks, a trailing odd byte dropped; a failing reader gives an error |
| WaveformPcm.PerBucket | server/internal/waveform/waveform.go:418-422 | As few samples to a bucket as let the buckets hold the whole duration, and at least one |
| WaveformPcm.SampleMeans | server/internal/waveform/waveform.go:464-465 | Two bytes read as exactly one 16-bit number, low byte first; its amplitude is its size in 32768ths, and only two zero bytes are silent |
| WaveformPcm.NegationIsAsLoud | server/internal/waveform/waveform.go:464-465 | A number is as loud as its negation, and only the lowest one is at full scale |
| WaveformPcm.PictureOfSamples | server/internal/waveform/waveform.go:413-478 | The picture in terms of the stream's samples: a bucket's peak is the size of its loudest 16-bit little-endian number, in 32768ths |
| WaveformPcm.PeakMeter.ProcessPCM16Sample | server/internal/waveform/waveform.go:459-478 | One sample more in the right bucket |
| WaveformPcm.Drain | server/internal/waveform/waveform.go:430-448 | A chunk is consumed sample by sample, a split sample completed from the reader |
| WaveformPcm.PeakIsMax | server/internal/waveform/waveform.go:459-478 | A peak is in [0, 1] and no sample of its bucket is louder |
| WaveformPcm.PeakIsReached | server/internal/waveform/waveform.go:459-478 | A peak is the amplitude of a sample of its bucket, or silence |

## Left out

- PartLoopKeeps.StepKeeps: the machine has no restart-gap splits and no variant changes, which RestartSplitGoesFirst and the laps of CleanLapsAreBounded cover; and writing a checkpoint always succeeds.
- PartProgress.LockAndSignalSurvive: the machine selects no variants; ThresholdsKeepVariant is about the laps, which do. The format that a resumed part reads off its directory is not modelled.
- PartProgress.RowsHoldFiles: an attempt whose done count runs ahead of the files on disk is taken out by assumption (CountingRun).
- PartRuns.StartsInv: a legacy sealed checkpoint past the first part has exact gaps, without which it may be taken for empty (RolledOverSealLooksEmpty).
- Fetching.EndAttemptKeeps: an attempt may lose a result between a pool worker and the drain; the model takes such attempts out by assumption.
- Confluence.BoundaryConfluence: gap lists agree as sets of gaps, not in their order, which does depend on the order of arrival.
- RelaySafety.BufferExpires: an alarm handler reads the clock twice, so its bound uses the later of the constructor's and the alarm handler's reading.
- Waveform.ResolvedDurations: over reals, where adding shares back is exact; float rounding is not modelled.
- WaveformPcm.ReadPCM16Peaks: bucket sizes and amplitudes are exact reals, and a reader that returns no bytes and no error forever is not modelled.
- VideoPageMeaning.RenderedQueryMeans: the frame rate rounded to text is a column of the model, because the two engines' rounding of halves is their own.
- Text order is by character code; database collations are not modelled, and timestamp formats are taken to preserve order.
- ResumeState groups its scalar fields in three records (header, anchor, split); paths, timestamps and log fields are dropped.
- SQL text, JSON and base64 as characters; the dialects' casts are carried but have no meaning of their own.
- Offset lists, search, and the channel, category and broadcaster pages: the same idea with easier keys.
- hls, remux, probe, thumbnail, upload and Twitch variant selection: subprocess and network work, opaque successes or failures here.
- Database adapters and the recording-webhook outbox: their claim and retry SQL is not in the modelled files.
- Relay tokens, header copying, status mapping, body limits, the pending-challenge timers and the v1 table migration.
- The client's reconnect backoff, flush summaries and logging; the cursor's compare-and-swap loop runs without contention.
- The waveform fingerprint, artifact storage, input resolution and ffmpeg.
- 64-bit wrap-around of sequences, bytes and milliseconds.
