# Verification of the content pipeline

A Dafny model of the guarantees a local content pipeline keeps over whole runs, with proofs.

| module | what it models |
|---|---|
| `JobState`, `JobStore` | the lifecycle table and the store: one atomic method for each transaction and file operation |
| `Stage1`, `GateRegistry`, `DraftLinter`, `LintRules`, `Grounding`, `Assembler`, `Copywriter`, `Drafts`, `Pipeline` | crawling, the park gates, the draft, the last gate, and the `process` call around them |
| `ProcessOutcomes`, `ProcessFiles`, `RelintRuns`, `SignoffOutcomes` | what process, re-lint and sign-off come to, read off their inputs |
| `LintLaws`, `CopyLaws` | what paragraphs, copying, keywords, copy lines, tags are, said without the code |
| `Reconcile`, `CrashProtocol`, `ProcessSteps` | the worklist view, and workers, views and deaths as interleaved steps |
| `ReviewPacket`, `Signoff`, `FreezeRuns`, `PacketSteps`, `PublishableRuns` | the freeze, the sign-off operations, whole runs of all of them, the packet step by step, and runs that get through |
| `AuditLog`, `AuditProtocol`, `AuditTrail`, `AuditAggregate`, `AuditReading`, `AuditSummary`, `AuditRuns`, `HeldRuns`, `Collect` | the hash-chained file, its locked writers, the events, what is read back of them, their reduction, and what it makes of the trail that real runs write |
| `GossipDedup`, `GossipCluster`, `LshCache`, `LruLaws`, `DedupRules`, `DedupLaws` | the fast forms: substring table, greedy clustering, cached indexes, the cascade |
| `LlmClient`, `NetGuard`, `NetNumbers` | the cooldown and the numeric-host parser (the loose form of section 3.1.1 of RFC 6943) |
| `Text`, `Seqs`, `Ratios`, `StrOrder`, `Errors`, `Wrappers` | shared text, sequence and result helpers |

How to read it: what the source does step by step is a method or a class, proved against a
function of the same name stem (`ProcessOn`, `ApproveOn`, `Lookup`, `SummaryOf`, ...) on the one
job or value it touches; the properties are lemmas about those functions and about runs of them.
`Job.history` and the fields `frozen`, `signed`, `touched`, `deaths`, `streak` and `base` are
bookkeeping for the proofs: the program has no such fields. `streak` and `base` count the latest
deaths in a row under the marker and the count the first of them left.

Parameters of the model: SHA-256 and SHA-1 (injective where a lemma says so), JSON rendering and
parsing, the Unicode case maps and character classes (per character), the source clean-up, timestamp
parsing, what a gate finds in text, media and index, what the endpoint answers, what an LSH index
retrieves (a MinHash is represented by its shingle set and permutation count), and the pids that run.

Where code and documentation disagree the model follows the code:

- The audit reader promises to tolerate a missing final newline; the append then writes onto the
  open line and the log no longer verifies (`AppendKeepsIntact` gives the exact condition). A verifying
  log can refuse appends (`TailOfIntact`, `PaddedLogRefuses`). A death inside the write spoils the log for
  good: at once if a part of the record was left, with the next write if only its line feed is missing
  (`VerifiesExactlyWhen`, `TornWriteSticks`). The resilient reader of the dashboard promises that a torn
  line leaves valid records unaffected: it does (`TornLineIsSkipped`), but of two whole records on one line
  it shows neither (`GluedRecordsAreLost`).
- The index cache key leaves out the shingle size, and its fingerprint runs ids and bodies together
  (`SizesAgreeExactlyWhen`, `RunTogetherIndexesCollide`).
- The gate order of the aggregation puts DEDUP before MEDIA, the gate list runs MEDIA first
  (`MediaToDedupIsLost`), and the waits between runs it means to drop are shown when a re-lint ends them
  (`GapsExactly`, `RelintWaitIsReported`).
- The copy is documented never to clobber a summary and to fill the category only where none is set; it
  replaces both, the category of the operator included (`CopyReplacesExactlyWhen`, `ParsedCategoryWins`).
- `reject` is documented for APPROVED jobs; the table has no such edge (`RejectsExactlyWhen`).
- A quote limit below one still takes one quote, and a section line with an empty value does not
  count as the first match (`FindVerbatimQuotes`, `ParseSections`).
- Operators act on what they read earlier: the store validates the transition, but not the rest of
  what they read (`StaleReadingSkipsOverride`, `StaleSupersede`). A packet built late replaces the
  freeze of a signed job (`BuildKeepsFreezeExactlyWhen`, `UnsignedTextIsPublished`); all else about
  the freeze holds for readings of any age (`FreezeRuns`), and step by step (`PacketSteps`). Two builders
  at once can announce another text than they froze (`AnnouncementNamesAnother`).
- Superseding a job that needs revision, while a worker enters it past the marker of a dead one, lets
  a view drop the marker of the running worker (`ExposureBreaks`, `RaceIsReachable`); every other
  operator step keeps the protocol (`OnlySupersedingExposes`, `ViewsAreHarmless`).

## Main results

- Lifecycle: `JobStore.EveryRunIsSound`, `JobState.AfterProcessed`, `Pipeline.ProcessedExactlyWhen`,
  `ProcessOutcomes.ProcessFollows`, `FailsExactlyWhen`, `ProcessFiles.FilesFollow`,
  `FreezeRuns.OnlyWaysToProcessed`, `RelintRuns.RelintJudgesTheSame`, `PublishableRuns.PublicationIsReachable`.
- Crashes: `CrashProtocol.StepKeepsInv`, `ViewsAreHarmless`, `DeathsInARow`, and where it breaks
  `OnlySupersedingExposes`, `ExposureBreaks`, `RaceIsReachable`; `ProcessSteps.ProcessIsAQuietRun`.
- Freeze: `ReviewPacket.EveryEditShows`, `SameTextExactlyWhen`, `FreezeRuns.RunKeepsInv`,
  `BuildKeepsExactlyWhen`, `PublishedIsFrozen`, `PacketSteps.RunKeepsInv`, `ApprovedIsRecorded`.
- Audit file: `AuditLog.ReadLastLine`, `SameHeadSameRecords`, `AppendKeepsIntact`,
  `AuditProtocol.VerifiesExactlyWhen`, `TornWriteSticks`, `AuditReading.AppendIsReadBack`, `FileIsTrail`,
  `TornLineIsSkipped`.
- Dashboard: `AuditAggregate.AggregateAudit`, `OrderDoesNotMatter`, `AuditSummary.GateNumbers`, `AuditRuns.GapsExactly`,
  `EveryGapIsOneRun`, `HeldRuns.RelintWaitIsReachable`.
- Fast forms: `GossipDedup.LcsLength`, `LcsIsLongest`, `GossipCluster.Dedup`, `LshCache.Cache.GetOrBuild`,
  `LruLaws.HeldExactlyWhen`, `LshCache.TransparentIffKeysIdentify`, `SizesAgreeExactlyWhen`,
  `LshCache.JaccardLaw`, `DedupRules.UniqueExactlyWhen`, `DuplicateExactlyWhen`, `DedupLaws.WordsRoundTrip`.
- Text and network: `Grounding.ClaimReportedExactlyWhen`, `StaysExactlyWhen`, `LintLaws.ParagraphsAre`,
  `ExcessiveMeans`, `NetNumbers.OctetExactlyWhen`, `Copywriter.CopyRoundTrip`, `LintRules.LintDraft`,
  `NetGuard.HostRoundTrip`, `RoutesAgree`, `LlmClient.CooldownBound`, `BoundIsReached`.

The rows marked "supporting" below mostly unfold one operation; the results above build on them.

## Model

| member | source | states |
|---|---|---|
| AuditLog.ReadLastLine | src/lcp/adapters/storage/audit_log.py:163-190 | the backward block reader returns, for any bytes and any block size of at least one, exactly the text after the last newline of the file with its trailing CR/LF removed, and nothing when nothing is left |
| AuditLog.VerifyChain | src/lcp/adapters/storage/audit_log.py:281-301 | threading the previous hash and the expected number through the records accepts exactly the logs whose every record is linked to its predecessor and whose stored hash is its recomputed one |
| AuditReading.IntactExactlyWhen | src/lcp/adapters/storage/audit_log.py:281-301 | a log verifies exactly when every line is a record, numbered by those before it, carrying the hash of the last of them (sixty-four zeros for the first) and its own over that and its payload; it is unreadable exactly when a line is no record |
| AuditReading.LineByLine | src/lcp/adapters/storage/audit_log.py:128-136 | the lines of a file are its stretches between line boundaries, stripped, the blank ones left out |
| AuditLog.PrefixVerifies | src/lcp/adapters/storage/audit_log.py:281-301 | every prefix of a verifying log verifies |
| AuditLog.SameHeadSameRecords | src/lcp/adapters/storage/audit_log.py:113-119 | tamper evidence: with an injective line hash, two verifying logs that end in the same hash hold the same records in the same order, so no past record can be edited, dropped or reordered under the same final hash |
| AuditLog.Log.Append | src/lcp/adapters/storage/audit_log.py:200-279 | an append refuses and leaves the file alone, or adds the record `Appended` gives and one line feed, for any block size of the reader; what that record holds is AuditReading.AppendIsReadBack |
| AuditLog.TailOfIntact | src/lcp/adapters/storage/audit_log.py:192-198 | on a verifying log the tail read gives the number of records and the hash of the last one (the genesis hash for an empty log), and it fails exactly when there is a last line, by line feeds alone, that is no record |
| AuditLog.TailAfterAppend | src/lcp/adapters/storage/audit_log.py:163-198 | behind a file that is empty or ends with a line feed, the line an append writes is the one the next tail read finds |
| AuditLog.PaddedLogRefuses | src/lcp/adapters/storage/audit_log.py:163-198 | a verifying log with one space behind its last line feed still verifies, and refuses every append |
| AuditLog.TornWrite | src/lcp/adapters/storage/audit_log.py:262-276 | right after a write cut short at n bytes of the record the log verifies exactly for none or all of them; in between it is unreadable and every append fails; with all of them the file stands inside a line |
| AuditLog.OpenLineSpoiled | src/lcp/adapters/storage/audit_log.py:262-276 | behind a record without its line feed any text of a further record, with or without a line feed, makes the log unreadable and every append fail |
| AuditLog.LastLineIsLastRecord | src/lcp/adapters/storage/audit_log.py:163-198 | on a readable log the fast tail read finds the record a full parse finds last |
| AuditLog.AppendKeepsIntact | src/lcp/adapters/storage/audit_log.py:247-279 | appending to a verifying log keeps it verifying exactly when the file stands at the start of a line; the reader tolerates a missing final newline, the append does not |
| AuditLog.ReadAfterAppend | src/lcp/adapters/storage/audit_log.py:128-136 | reading back after an append gives the records before it and the new one |
| AuditLog.EmptyLogIntact | src/lcp/adapters/storage/audit_log.py:281-301 | the empty file verifies |
| AuditLog.FaithfulCodecExists | src/lcp/adapters/storage/audit_log.py:113-136 | the assumptions on rendering and parsing can be met, for any numbering of the records and any hash |
| AuditProtocol.VerifiesExactlyWhen | src/lcp/adapters/storage/audit_log.py:241-279 | over every run of any number of writers, deaths anywhere, the log verifies exactly as long as no step wrote only a part of a record or wrote behind a record without its line feed; then its records are numbered without gaps, one for each that reached the file whole, and the next tail read succeeds; once spoiled it is unreadable and no later step changes it |
| AuditProtocol.EveryInterleavingVerifies | src/lcp/adapters/storage/audit_log.py:241-279 | so whatever the order in which writers lock, read the tail, write, unlock or die between two steps, the file verifies and ends with a line feed, and the next tail read succeeds |
| AuditProtocol.TornWriteSticks | src/lcp/adapters/storage/audit_log.py:262-276 | a death inside the write that left nothing of the record does no harm; one that left all of it but the line feed lets the log verify exactly until a later step writes, which makes it unreadable for good; one in between makes it unreadable for good at once |
| AuditProtocol.LockIsNeeded | src/lcp/adapters/storage/audit_log.py:241-279 | without the lock two writers that read the same tail write two records of which the log no longer verifies |
| AuditReading.AppendIsReadBack | src/lcp/adapters/storage/audit_log.py:247-279 | after an append to a verifying log at the start of a line, the last record read back gives, under the keys the dashboard looks up, the event name, job, time, stage, actor, artifact and every extra of the appended event, is numbered by the records before it and carries the hash of the last of them (sixty-four zeros for the first); all records before read as they did |
| AuditReading.AppendRefusesExactlyWhen | src/lcp/adapters/storage/audit_log.py:218-240 | an append is refused as bad input exactly for one of the eleven personal keys or an artifact that is not sixty-four lower-case hex digits (one newline behind them passes), for a missing dependency exactly on a platform without locking, and as unexpected exactly when the last line is no numbered record |
| AuditReading.AppendIsSeen | src/lcp/adapters/storage/audit_log.py:138-161 | on any file at the start of a line, readable or not, the resilient reader of the dashboard sees after an append what it saw before and the appended event |
| AuditReading.AppendCounts | src/lcp/adapters/storage/audit_aggregate.py:121-167 | so an appended gate event, a RISK_GATE for one, counts for the gate of its name and for its own job and for nothing else, and as stopped exactly when its status does not pass there |
| AuditReading.TornLineIsSkipped | src/lcp/adapters/storage/audit_log.py:138-161 | a record cut short anywhere, by a death or by a write still under way, hides nothing that stands before it and is seen only when it is whole |
| AuditReading.GluedRecordsAreLost | src/lcp/adapters/storage/audit_log.py:138-161 | behind a whole record without its line feed the next one to be written takes both records from sight, though each was seen or written whole, and no append goes through any more |
| AuditReading.FileIsTrail | src/lcp/adapters/storage/audit_log.py:138-161 | appending the events of a trail one after another leaves a verifying log off which the dashboard reads exactly that trail, line by line |
| AuditAggregate.AggregateAudit | src/lcp/adapters/storage/audit_aggregate.py:121-198 | the one-pass reduction with its dictionaries equals the summary defined gate by gate, day by day and job by job from the list of accepted events |
| AuditAggregate.GapsOfRows | src/lcp/adapters/storage/audit_aggregate.py:169-191 | the pass over neighbouring rows yields the forward gaps in order |
| AuditAggregate.OrderDoesNotMatter | src/lcp/adapters/storage/audit_aggregate.py:121-198 | the summary is the same for every permutation of the events (gaps as a bag) |
| AuditAggregate.InterceptedAtMostReached | src/lcp/adapters/storage/audit_aggregate.py:147-167 | no gate intercepts more jobs than reached it, and only gates that were reached are listed |
| AuditAggregate.ReachedMeans | src/lcp/adapters/storage/audit_aggregate.py:134-147 | a job counts as having reached a gate exactly when some event of the log carries the name of that gate (RISK_GATE, DEDUP_GATE, MEDIA_GATE, GROUNDING_GATE, LINT_GATE), the job and a time |
| AuditAggregate.InterceptedMeans | src/lcp/adapters/storage/audit_aggregate.py:148-150 | it counts as intercepted there exactly when some such event carries another status than "unique" for dedup and "pass" for the other gates |
| AuditSummary.GateNumbers | src/lcp/adapters/storage/audit_aggregate.py:163-167 | a gate is in the summary exactly when some job reached it, with the numbers of distinct jobs that reached it and that were intercepted at it, counted on the lines read |
| AuditSummary.DayNumbers | src/lcp/adapters/storage/audit_aggregate.py:156-156 | a day is in the summary exactly when some gate event falls on it, by the first ten characters of its time, with the number of distinct jobs of such events |
| AuditSummary.ReasonNumbers | src/lcp/adapters/storage/audit_aggregate.py:152-154 | every review reason is counted as often as a gate event gives it, and an empty one never |
| AuditSummary.RowsMean | src/lcp/adapters/storage/audit_aggregate.py:158-161 | the rows diffed for a job are its gate events that have a number and a stage |
| AuditSummary.GapMeans | src/lcp/adapters/storage/audit_aggregate.py:173-191 | supporting: two neighbouring rows give a wait exactly when the second gate stands behind the first in the order risk, dedup, media, grounding, lint and both times are known, from stage to stage, the time between them or none if it is negative |
| AuditAggregate.GapsAreReported | src/lcp/adapters/storage/audit_aggregate.py:169-191 | the output holds exactly the neighbouring pairs whose gate advances and whose times are both known |
| AuditAggregate.GapInSummary | src/lcp/adapters/storage/audit_aggregate.py:169-191 | every gap of the summary is a reported pair of neighbouring rows of its own job |
| AuditAggregate.ReportedInSummary | src/lcp/adapters/storage/audit_aggregate.py:169-191 | and every reported pair of neighbouring rows of a job is a gap of the summary |
| AuditRuns.RunKeepsInv | src/lcp/pipeline.py:540-556 | in every run of operations on many jobs, their events interleaved and each cut short anywhere, the events of one job come operation by operation, gates in turn, the first of a run at RISK, and only runs and re-lints write gate events |
| AuditRuns.LogOrderIsSorted | src/lcp/adapters/storage/audit_aggregate.py:169-172 | read back from the trail the rows of a job are its gate events, each once, and sorting leaves them in the order they were written |
| AuditRuns.GapsExactly | src/lcp/adapters/storage/audit_aggregate.py:53-66 | in every such run, of two neighbouring gate events of a job with known times the wait is reported exactly if one run wrote both and they are not MEDIA then DEDUP, or if the later one is the re-lint of a resolve and the earlier one no lint |
| AuditRuns.EveryGapIsOneRun | src/lcp/adapters/storage/audit_aggregate.py:53-66 | so every wait in the summary lies within one run, but for those that end in the re-lint of a resolve |
| AuditRuns.RelintWaitIsReported | src/lcp/adapters/processor/draft_linter.py:274-305 | and these exist: whatever was run before, a re-lint of a job last stopped at GROUNDING adds a gap to the summary, with all the seconds between the two |
| HeldRuns.DryRunIsHeld | src/lcp/pipeline.py:594-679 | a dry run on a job that may enter passes risk and dedup, is held at GROUNDING because its stub is no claim of the source, and leaves the draft for a re-lint |
| HeldRuns.RelintWaitIsReachable | src/lcp/adapters/processor/draft_linter.py:274-305 | so from the empty trail on a run and a resolve bring that wait into the summary |
| AuditAggregate.MediaToDedupIsLost | src/lcp/adapters/storage/audit_aggregate.py:60-66 | the table orders DEDUP before MEDIA while a run reaches MEDIA first, so the wait between the two is never reported |
| AuditAggregate.GapsWithinSpan | src/lcp/adapters/storage/audit_aggregate.py:169-191 | with known times that never run backwards, the gaps of one job add up to at most its last minus its first known time |
| AuditAggregate.NoTimesNoGaps | src/lcp/adapters/storage/audit_aggregate.py:109-118 | with no known time there is nothing to add up |
| AuditAggregate.RowsAreOrdered | src/lcp/adapters/storage/audit_aggregate.py:171 | the tuple order the rows are sorted by is total |
| Collect.SortPermuted | src/lcp/adapters/storage/audit_aggregate.py:171 | sorting forgets the order of its input |
| Collect.FlatMapPermuted | src/lcp/adapters/storage/audit_aggregate.py:134-161 | reordering the events only reorders what they contribute |
| JobState.AfterProcessed | src/lcp/core/state.py:72-119 | after PROCESSED at most three more moves happen, the first of them to REVIEW_PENDING, and Stage 2 is never re-entered |
| JobState.AfterBlocked | src/lcp/core/state.py:106-114 | BLOCKED and DUPLICATE lead to SUPERSEDED only, and that is the end |
| JobState.TerminalIsAbsorbing | src/lcp/core/state.py:61-67 | a state has no outgoing edge exactly when it is terminal |
| JobState.WaysInto | src/lcp/core/state.py:72-119 | the table read backwards: exactly the states each state is entered from |
| JobState.PublishedWentThrough | src/lcp/core/state.py:100-105 | a recorded publication has PROCESSED, REVIEW_PENDING and APPROVED right behind it, in this order, and nothing after it |
| JobState.ApprovedIsNeverRejected | src/lcp/core/state.py:105 | supporting: the table lets an approved job only be superseded or recorded as published |
| JobState.MovesBounded | src/lcp/core/state.py:72-119 | from PROCESSED, BLOCKED, DUPLICATE or the sign-off states on, the remaining moves of any run are bounded by the state reached |
| JobStore.JobStore.CreateJob | src/lcp/adapters/storage/job_store.py:169-191 | a new row lands, a transient state or an existing job is refused with nothing changed |
| JobStore.JobStore.SetState | src/lcp/adapters/storage/job_store.py:201-260 | one atomic step: the row moves along an edge of the table or the call is refused with nothing changed; other jobs stay |
| JobStore.JobStore.PersistCrawlResult | src/lcp/adapters/storage/job_store.py:262-329 | state and source hashes land together or not at all; a missing hash keeps the stored one, the error code and review reason stay |
| JobStore.JobStore.PersistFromProcessing | src/lcp/adapters/storage/job_store.py:367-435 | the resting state is checked through PROCESSING against the current row, committed, and the marker is cleared |
| JobStore.JobStore.MarkProcessing | src/lcp/adapters/storage/job_store.py:439-449 | the marker holds the pid of the caller and nothing else changes |
| JobStore.JobStore.ClearProcessing | src/lcp/adapters/storage/job_store.py:451-454 | the marker is gone, whether or not there was one |
| JobStore.JobStore.BumpInterruptCount | src/lcp/adapters/storage/job_store.py:486-518 | the count read (0 when absent or corrupt) goes up by one |
| JobStore.JobStore.ClearInterruptCount | src/lcp/adapters/storage/job_store.py:520-524 | the counter is gone |
| JobStore.JobStore.SaveDraft | src/lcp/adapters/storage/draft_store.py:35-47 | the draft on disk is the one given; row, marker and counter stay |
| JobStore.JobStore.DeleteJob | src/lcp/adapters/storage/job_store.py:528-597 | the row is gone whatever it was, with the files that could be removed, and the count of deleted rows says whether there was one; other jobs stay |
| JobStore.EveryRunIsSound | src/lcp/adapters/storage/job_store.py:223-249 | for any run of store calls, deletions included and however stale the readings behind them, the states a job held since it was last created form a path of the table with PROCESSING contracted; without a deletion history is only extended |
| JobStore.EveryRunIsBounded | src/lcp/adapters/storage/job_store.py:397-421 | in any such run without a deletion at most three moves follow PROCESSED, BLOCKED and DUPLICATE only reach SUPERSEDED, and a terminal row never changes |
| Stage1.RunStage1 | src/lcp/pipeline.py:321-379 | create or reset, crawl, land: row and history are tied to the outcome defined on the one job |
| Stage1.Stage1Outcome | src/lcp/pipeline.py:337-379 | a crawl runs exactly on a job with no bundle to clobber and is refused with nothing touched otherwise; it ends at CRAWLED, CRAWLED_WARN or CRAWL_FAILED as its status says, with the hashes it brought and else those of before, and parks at NEW only when the crawler raised, with that error |
| LintRules.LintDraft | src/lcp/core/rules/lint_rules.py:194-343 | each of the ten kinds of error is raised exactly when it is true of the draft: a section missing, below or above its limits, media without a section, hype tags (those tags), no category or an unknown one, copying and excessive copying; the errors are none and the verdict PASS exactly when the draft meets the publishing standard; BLOCK exactly for excessive copying; warnings are raised exactly when true and never change the verdict |
| LintRules.DuplicateParagraphs | src/lcp/core/rules/lint_rules.py:359-368 | the count is the number of paragraphs less the number of distinct ones |
| LintRules.FindHypeTags | src/lcp/core/rules/lint_rules.py:349-356 | the hits are the tags with a hype word in them, in order; none exactly when every tag is objective |
| LintRules.CopiedTooMuch | src/lcp/core/rules/lint_rules.py:371-385 | the share lies between 0 and 1 and is 0 exactly when no long source paragraph is in the body |
| LintRules.CheckSections | src/lcp/core/rules/lint_rules.py:214-282 | the presence and size checks raise exactly the size errors that are true, and none exactly when every section is there within its limits |
| LintRules.CheckContent | src/lcp/core/rules/lint_rules.py:291-338 | the other checks raise exactly the other errors that are true, and none exactly when the media the job has are in the draft, no tag has a hype word, the category is a configured one and no long source paragraph is repeated |
| LintRules.NeedsStructuralCopy | src/lcp/core/rules/lint_rules.py:225-228 | without quick facts, FAQ or a summary no draft passes, whatever the configuration |
| LintRules.FittingMeans | src/lcp/core/rules/lint_rules.py:214-282 | every section is within its limits exactly when title, intro, body and summary are not blank and as long as configured, quick facts and FAQ are there and as many as configured, and the tags as many |
| LintLaws.ParagraphsAre | src/lcp/core/rules/lint_rules.py:159-170 | the paragraphs of a text are its lines, cut at every line feed, with one space between the words, of at least twelve characters: the blank-line form of the separator makes no difference |
| LintLaws.NormIs | src/lcp/core/rules/lint_rules.py:156-161 | the normal form of a text is its words with single spaces between them |
| LintLaws.ExcessiveMeans | src/lcp/core/rules/lint_rules.py:371-385 | copying is excessive exactly when some long source paragraph is repeated in the body and the repeated ones are at least the blocking share of the long ones, each text counted once |
| LintLaws.HypeOnesAre | src/lcp/core/rules/lint_rules.py:349-356 | a tag is among the hits as often as among the tags, if a hype word occurs in it whatever the case, and else not at all |
| LintLaws.OrphansAre | src/lcp/core/rules/lint_rules.py:298-307 | an orphan keyword is one with text whose name, behind the first colon if there is one, occurs nowhere in the text of the draft |
| LintLaws.PartIsRead | src/lcp/core/rules/lint_rules.py:173-184 | title, intro, body, summary, quick facts, captions, questions, answers and quotes all belong to that text |
| DraftLinter.RunDraftLintGate | src/lcp/adapters/processor/draft_linter.py:118-231 | grounding, then category, then lint: the events, the resting state and its reason are those of the first verdict against the draft; other jobs stay |
| DraftLinter.RelintClearsHold | src/lcp/adapters/processor/draft_linter.py:274-305 | the hold clears exactly on a lint pass; one event is written, nothing is committed |
| DraftLinter.GatePassesExactlyWhen | src/lcp/adapters/processor/draft_linter.py:141-231 | the gate lets a draft through exactly when every quote and claim is grounded, the category is a configured one and the publishing standard is met |
| DraftLinter.ConfigIsSound | src/lcp/adapters/processor/draft_linter.py:62-108 | supporting: a configuration is refused exactly when the warning zone of the summary is empty; otherwise every limit is the one of the operator, where a fallback exists only if it is positive, and else the default of that limit |
| DraftLinter.Park | src/lcp/adapters/processor/_persist.py:34-55 | a parked job rests as if from PROCESSING, a passed one is not touched |
| GateRegistry.RunGate | src/lcp/adapters/processor/gate_registry.py:69-109 | each gate logs its verdict, leaves its files and parks the job at the state of its verdict, or raises with nothing committed or logged; a media gate that raises may leave the cover it wrote |
| GateRegistry.RunGateChain | src/lcp/adapters/processor/gate_registry.py:121-142 | the loop with early exit equals the chain defined gate by gate |
| GateRegistry.ChainCommits | src/lcp/adapters/processor/gate_registry.py:121-142 | the chain passes exactly when every gate passes; an error or a full pass commits nothing, a park commits exactly one state and that is never PROCESSED |
| GateRegistry.ChainStopsAt | src/lcp/adapters/processor/gate_registry.py:121-142 | the outcome is that of the first gate that does not pass, and job, files and trail are as if the gates behind it were not in the chain |
| GateRegistry.GateCommits | src/lcp/adapters/processor/media_checker.py:241-343 | supporting: one gate: raising or passing commits nothing and changes no file but the media report and the cover, raising not even the report; parking commits one state |
| Pipeline.Pipeline.Process | src/lcp/pipeline.py:383-507 | the whole call (entry check, crash count and event, marker, gates, draft, catch, clean-up) leaves the disk, the trail and the result the definition on one job gives; other jobs stay |
| Pipeline.Pipeline.ProcessInner | src/lcp/pipeline.py:509-679 | gate chain, draft, save and last gate in this order, each only when the one before passed |
| Pipeline.MakeDraft | src/lcp/pipeline.py:587-614 | template check, rewrite and optional copy: the draft or the first error |
| Pipeline.ProcessCommitsOnce | src/lcp/pipeline.py:416-507 | every call that returns committed exactly one transition, to the state it reports; a call that raises committed nothing, and service failures never escape because the write to PROCESS_FAILED is always legal |
| ProcessOutcomes.ProcessFollows | src/lcp/pipeline.py:383-507 | every process call, on any job, ends as one flat decision table over its inputs says: refused with nothing touched unless the job is at one of the four entry states; otherwise the row (state, time, error code, review reason), what is raised and every event logged are those of the first of risk, media, dedup, template, rewrite, copy, draft status, grounding, category and lint that stops it, or of PROCESSED |
| ProcessOutcomes.EscapingErrors | src/lcp/pipeline.py:476-497 | what a call raises is a refused input or an error outside the kinds of the program: a failing service and a missing dependency never escape |
| ProcessOutcomes.FailsExactlyWhen | src/lcp/pipeline.py:476-497 | a call rests at PROCESS_FAILED exactly when the job may be run and the first gate that does not let it through, or the draft behind open gates, failed with a service failure or a missing dependency |
| ProcessFiles.FilesFollow | src/lcp/pipeline.py:509-679 | after a call the media report and the cover of this run are in the folder where it got to them, the draft of this run where it was made, every other file but marker and counter is as it was, and the draft handed back is that draft |
| ProcessFiles.CrashTraces | src/lcp/pipeline.py:443-507 | no marker is left, and a crash count, one higher, only where a retry after a crash ended at PROCESS_FAILED |
| Pipeline.ProcessCleansUp | src/lcp/pipeline.py:498-507 | a finished call leaves no marker, and no counter except after a crash retry that ended in a service failure |
| Pipeline.ProcessOutcomeIsLegal | src/lcp/pipeline.py:416-507 | only outcomes of PROCESSING are ever committed |
| Pipeline.ProcessedExactlyWhen | src/lcp/pipeline.py:555-679 | PROCESSED is reached exactly when the job may enter, all park gates passed, the draft is whole, every quote is in the cleaned source, every claim is grounded, the category is known and the publishing standard is met; the saved draft is that draft |
| Pipeline.NoCopyNeverProcessed | src/lcp/pipeline.py:604-614 | a dry run, a run without ai_copy, or one whose copy was skipped or cut short never reaches PROCESSED, for any source and configuration |
| Pipeline.RunStartsAtRisk | src/lcp/pipeline.py:540-556 | a run logs at most one interruption and then its gates in turn, each at most once, the first of them RISK |
| Pipeline.RowTellsWhereItStopped | src/lcp/pipeline.py:459-507 | the stored state, review reason and error code tell where a run stopped: the reason names the gate that held the job, BLOCKED stands for risk, DUPLICATE for dedup, PROCESS_FAILED for a service failure |
| Reconcile.Reconcile | src/lcp/pipeline.py:828-894 | the view reports exactly the leftovers of re-enterable jobs, with their counts, and leaves every job as it was but for dropped stale markers |
| Reconcile.ReconcileOne | src/lcp/pipeline.py:896-920 | the single-job variant reports and leaves what the full view does |
| Reconcile.ReportMeans | src/lcp/pipeline.py:862-894 | supporting: a job is in the report exactly when some listed row of it is reported on its own |
| Reconcile.ViewExactly | src/lcp/pipeline.py:839-894 | a job is reported exactly when it holds a marker with no process behind it (this one, or a running one with a pid above zero) and stands where it could be run again, with its crash count and whether that exceeds the limit; its marker is dropped exactly when it holds such a marker and its state leads nowhere but to SUPERSEDED |
| Reconcile.ViewingIsReading | src/lcp/pipeline.py:839-861 | a view changes no row, no counter and no file but a marker whose owner is dead and whose job can never enter Stage 2 again; looking twice shows the same |
| CrashProtocol.StepKeepsInv | src/lcp/pipeline.py:383-507 | the invariant between counter, deaths, marker, worker and views survives every step of workers, deaths, views and operators, but for an operator step that takes the job out of reach of runs while a worker enters past an older marker |
| CrashProtocol.ViewsAreHarmless | src/lcp/pipeline.py:828-894 | over any run with one worker per job, operators and deaths between any two steps, in which no such operator step came before, a view changes no stored state, no counter and no file but a stale marker, and never drops the marker of a live worker |
| CrashProtocol.CountNeverExceedsDeaths | src/lcp/pipeline.py:443-455 | the counter never exceeds the worker deaths since it was last cleared, counted on the steps of the run |
| CrashProtocol.DeathsInARow | src/lcp/pipeline.py:91-93 | after n deaths in a row under the marker the count is n - 1 above what the first of them left; at a state a run may enter, with the dead pid unused, the job is reported with it, and as exhausted exactly when it exceeds the limit |
| CrashProtocol.OnlySupersedingExposes | src/lcp/adapters/publisher/signoff.py:586-624 | the operator step to keep apart is always the same: superseding a NEEDS_REVISION job that a worker is entering past another marker |
| CrashProtocol.ExposureBreaks | src/lcp/pipeline.py:863-890 | the exact converse: from every state in which it is made, whatever else is going on, the protocol can come to a view that drops the marker of the running worker |
| CrashProtocol.RaceIsReachable | src/lcp/pipeline.py:863-890 | and from the start, at any job that needs revision, some run gets there |
| ProcessSteps.ProcessIsAQuietRun | src/lcp/pipeline.py:383-507 | every process call is one uninterrupted run of the crash protocol: same committed state, history, marker and counter |
| ReviewPacket.DraftBodyText | src/lcp/adapters/publisher/review_packet.py:59-82 | the list extended section by section and joined is the nonempty ones of intro, body, summary, quick facts, questions and answers, subheads, captions and tags, one a line |
| ReviewPacket.EveryReplacementShows | src/lcp/adapters/publisher/review_packet.py:59-82 | changing any one bound text part, the others fixed, changes the text the freeze hashes |
| ReviewPacket.EditIsReplacement | src/lcp/adapters/publisher/review_packet.py:59-82 | rewriting the intro, body, summary, a quick fact, a question, an answer, a subhead, a caption or a tag is such a change of one part |
| ReviewPacket.EveryEditShows | src/lcp/adapters/publisher/review_packet.py:59-82 | so the text the freeze hashes changes with every single rewrite of a bound part |
| ReviewPacket.EveryInsertionShows | src/lcp/adapters/publisher/review_packet.py:59-82 | inserting or removing one item with text in it changes the text the freeze hashes |
| ReviewPacket.SameTextExactlyWhen | src/lcp/adapters/publisher/review_packet.py:59-82 | two drafts freeze to the same text exactly when they have the same lines in the same order, whichever parts the lines belong to |
| ReviewPacket.JoinIsNotInjective | src/lcp/adapters/publisher/review_packet.py:59-82 | so several edits at once can cancel out: moving the end of the intro into an empty body keeps the lines and is not seen |
| Signoff.Desk.BuildReviewPacket | src/lcp/adapters/publisher/review_packet.py:180-310 | a processed job gets its cover copy and freeze record and moves to REVIEW_PENDING; any other is refused untouched |
| Signoff.Desk.Approve | src/lcp/adapters/publisher/signoff.py:164-276 | the checks in order, then the transition, then one event with the bound hashes |
| Signoff.Desk.Reject | src/lcp/adapters/publisher/signoff.py:279-338 | a freeze record is required except for a held job; the event names the state left |
| Signoff.Desk.Resolve | src/lcp/adapters/publisher/signoff.py:341-455 | the re-lint of a grounding hold or the reasoned override, the refused re-lint logged too; what the re-lint judges is RelintRuns.RelintJudgesTheSame |
| Signoff.Desk.BackfillPublishedUrl | src/lcp/adapters/publisher/signoff.py:458-527 | the URL file, the transition and the event, or a refusal that changes nothing |
| Signoff.Desk.Supersede | src/lcp/adapters/publisher/signoff.py:551-645 | the invalidation before the transition, the superseding or redline event after it |
| Signoff.FindBlockingCodes | src/lcp/adapters/publisher/signoff.py:530-548 | the overwriting scan finds the codes of the last risk gate of the job |
| Signoff.BlockingCodesAre | src/lcp/adapters/publisher/signoff.py:530-548 | those are the codes of the last RISK_GATE event of the job, whatever stands behind it; none without one (NoBlockingCodes) |
| Signoff.ApprovesExactlyWhen | src/lcp/adapters/publisher/signoff.py:187-249 | supporting: approval succeeds exactly on a pending job whose freeze binds a body and a title and whose draft, and cover if one was bound, still hash to them |
| Signoff.BoundMeansSame | src/lcp/adapters/publisher/signoff.py:217-245 | with a collision-free hash, what still hashes to a freeze has the same lines in the same order, the same title and the same cover, and the other way round |
| Signoff.EditIsRefused | src/lcp/adapters/publisher/signoff.py:223-234 | after any single rewrite of a bound part of the frozen draft the approval is refused |
| Signoff.RejectsExactlyWhen | src/lcp/adapters/publisher/signoff.py:298-309 | supporting: a rejection succeeds from NEEDS_HUMAN_REVIEW and, with a freeze record, from REVIEW_PENDING; never from APPROVED |
| Signoff.ResolvesExactlyWhen | src/lcp/adapters/publisher/signoff.py:370-428 | supporting: a hold clears exactly by a clean re-lint of a grounding hold or, where no re-lint applies, a nonblank reason; a refusal commits nothing |
| RelintRuns.RelintJudgesTheSame | src/lcp/adapters/publisher/signoff.py:381-431 | after a run held at GROUNDING whose video hint agrees with its media report, the re-lint of the persisted draft gives the verdict the lint of the run would have given on the draft, source, image and video facts of that run |
| RelintRuns.RunLeaves | src/lcp/pipeline.py:594-679 | and such a run leaves the draft it made and the media report it had for the re-lint to read |
| RelintRuns.ClearedMeans | src/lcp/adapters/publisher/signoff.py:394-431 | every re-lint that clears: with images in the report the draft has an image section, with videos a video section, and sections, tags, category and own words meet the standard |
| SignoffOutcomes.BuildLeaves | src/lcp/adapters/publisher/review_packet.py:202-300 | supporting: row, files and event of a packet in full: the freeze holds the hash of the body text, of the title and of the cover given or produced; or nothing happens |
| SignoffOutcomes.ApproveLeaves | src/lcp/adapters/publisher/signoff.py:187-265 | the approval of a pending job whose draft, passed or persisted, and cover hash anew to what was bound leaves exactly the new row and one event with those hashes; any other leaves everything as it was |
| SignoffOutcomes.ResolveLeaves | src/lcp/adapters/publisher/signoff.py:370-444 | supporting: the same for a resolve: the verdict of the re-lint where that is asked for and grounding held the job, and else a reason that says something |
| SignoffOutcomes.SupersedeLeaves | src/lcp/adapters/publisher/signoff.py:586-645 | supporting: what superseding takes and logs at each of the sixteen states |
| Signoff.BackfillsExactlyWhen | src/lcp/adapters/publisher/signoff.py:483-508 | supporting: a publication is recorded exactly for an approved job with a freeze, a nonblank URL and the attestation |
| Signoff.SupersedesExactlyWhen | src/lcp/adapters/publisher/signoff.py:586-645 | supporting: superseding succeeds exactly from the supersedable states, from BLOCKED only with the override; the sign-off is declared void exactly for a pending or approved job, the redline event written exactly for a blocked one |
| Signoff.StaleSupersede | src/lcp/adapters/publisher/signoff.py:586-624 | acting on an old reading, the invalidation event names the state really left exactly when the reading was still right |
| Signoff.StaleReadingSkipsOverride | src/lcp/adapters/publisher/signoff.py:601-609 | a blocked job is superseded without the override exactly when the operator had read an ordinary supersedable state |
| Signoff.BuildKeepsFreezeExactlyWhen | src/lcp/adapters/publisher/review_packet.py:202-282 | a second packet for a pending, approved or published job is refused, and its freeze record stays exactly when the build did not go by an old reading of PROCESSED |
| Signoff.UnsignedTextIsPublished | src/lcp/adapters/publisher/review_packet.py:202-282 | after such a build on an approved job the publication is recorded with the hash of a text nobody signed |
| FreezeRuns.RunKeepsInv | src/lcp/adapters/publisher/signoff.py:164-276 | over any run of processing, packets, sign-offs, crawls, views and outside edits, with operators acting on readings of any age, a frozen job keeps a record that binds what was frozen, and what was signed reads like it, as long as no packet is built for a frozen job on an old reading of PROCESSED |
| FreezeRuns.BuildKeepsExactlyWhen | src/lcp/adapters/publisher/review_packet.py:202-282 | that exception is exact: a packet for a frozen job leaves it as frozen exactly when it is not of that kind or would freeze the same once more |
| PacketSteps.RunKeepsInv | src/lcp/adapters/publisher/review_packet.py:202-300 | with the packet built step by step (reading, cover copy, hash, freeze record, transition, event), any number of builders, other operations between the steps and deaths after any of them, a frozen job keeps a record that binds what was on record at the transition, as long as no freeze record is written for a frozen job |
| PacketSteps.ApprovedIsRecorded | src/lcp/adapters/publisher/review_packet.py:202-300 | in any such run an approval goes through only for a draft that reads like the one the record in place at the transition was written for, with the cover it bound |
| PacketSteps.RecordKeepsExactlyWhen | src/lcp/adapters/publisher/review_packet.py:262-280 | that exception is exact: a record written for a frozen job leaves it as frozen exactly when it binds the same |
| PacketSteps.BuildIsItsSteps | src/lcp/adapters/publisher/review_packet.py:202-300 | the operation as a whole is one undisturbed run of its steps |
| PacketSteps.AnnouncementNamesAnother | src/lcp/adapters/publisher/review_packet.py:282-300 | with two builders at work the event of the packet can carry the hashes of another text than the one frozen |
| PacketSteps.LateStays | src/lcp/core/state.py:72-119 | no other operation leads back from PROCESSED or changes the freeze record from there on |
| FreezeRuns.ApprovedIsFrozen | src/lcp/adapters/publisher/signoff.py:217-249 | in any such run an approval goes through only for a pending job whose checked draft reads like the frozen one and whose frozen cover is in place |
| FreezeRuns.ProgramKeepsFrozen | src/lcp/core/state.py:101-104 | no other act of the program, on whatever reading, changes draft, review cover or freeze record of a frozen job |
| FreezeRuns.UntouchedIsApprovable | src/lcp/adapters/publisher/signoff.py:217-245 | with no outside edit since the freeze the hash checks never refuse |
| FreezeRuns.PublishedIsFrozen | src/lcp/adapters/publisher/signoff.py:483-527 | in any such run a publication is recorded only for an approved job, with a nonblank URL and the attestation; the signed draft reads like the frozen one and the event carries the hash of that text |
| FreezeRuns.OnlyWaysToProcessed | src/lcp/adapters/publisher/signoff.py:377-431 | PROCESSED is entered only by a run that met every condition with real structural copy, or by a resolve of a held job with a nonblank reason or, for a hold read as a grounding hold, with a persisted draft that meets the publishing standard |
| FreezeRuns.ReviewRunIsApprovable | src/lcp/pipeline.py:803-824 | end to end: the packet of a run that reached PROCESSED freezes the persisted draft, and the approval that loads it goes through |
| FreezeRuns.ApprovalIsReachable | src/lcp/adapters/publisher/signoff.py:164-276 | any processed job with a persisted draft is one packet away from a state in which approval goes through |
| PublishableRuns.ProcessedIsReachable | src/lcp/pipeline.py:555-679 | for every job that may enter, whatever its source if a line of it can be quoted, there are a configuration and endpoint answers with which the run rests at PROCESSED |
| PublishableRuns.PublicationIsReachable | src/lcp/adapters/publisher/signoff.py:483-527 | and from there one packet, one approval of the persisted draft and one back-filled URL record the publication |
| GossipDedup.LcsLength | gossip_scraper/core/dedup.py:98-116 | the two-row rolling table returns the longest-common-substring length defined by the full table, after the swap that keeps the shorter string in the rows |
| GossipDedup.LcsIsLongest | gossip_scraper/core/dedup.py:98-116 | that length is attained by a common contiguous substring and no longer one exists |
| GossipDedup.LcsUnique | gossip_scraper/core/dedup.py:98-116 | no other number has that property |
| GossipDedup.LcsSymmetric | gossip_scraper/core/dedup.py:100-101 | swapping the arguments does not change it |
| GossipDedup.HybridSimilarity | gossip_scraper/core/dedup.py:72-95 | the hybrid of trigram overlap and substring ratio |
| GossipDedup.HybridRange | gossip_scraper/core/dedup.py:72-95 | the hybrid lies in [0,1] and is 1 for equal nonempty titles |
| GossipDedup.HybridIsLarger | gossip_scraper/core/dedup.py:72-95 | it is the larger of the share of common trigrams and the longest common substring over the length of the shorter title |
| GossipDedup.TrigramsAre | gossip_scraper/core/dedup.py:82-88 | the trigrams are the three-character substrings, or the whole of a shorter title |
| GossipCluster.Dedup | gossip_scraper/core/dedup.py:18-59 | the double loop over used items equals one merged item per group of an opener with its followers |
| GossipCluster.EveryItemHasOneGroup | gossip_scraper/core/dedup.py:25-43 | every input index belongs to exactly one group |
| GossipCluster.GroupsRespectSimilarity | gossip_scraper/core/dedup.py:31-39 | each member is similar enough to its opener and no two openers are |
| GossipCluster.SimilarMeans | gossip_scraper/core/dedup.py:31-39 | similar enough: both titles say something and three in ten of their trigrams are common, or a common substring is three tenths of the shorter one |
| GossipCluster.MergedSummarises | gossip_scraper/core/dedup.py:44-58 | each output is the first of its group with the highest heat, with the sorted duplicate-free list of the platforms of all its members, whose size is the count |
| StrOrder.StrLessMeans | gossip_scraper/core/dedup.py:50-54 | supporting: sorted by the first place at which two names differ, a shorter one first |
| GossipCluster.GroupSizesAddUp | gossip_scraper/core/dedup.py:25-43 | no item is lost or counted twice: the group sizes add up to the number of items |
| LshCache.Cache.GetOrBuild | src/lcp/core/rules/dedup_rules.py:211-249 | the three dictionaries with their counter answer like a bounded least-recently-used table and keep one key set of at most 32 keys |
| LshCache.Cache.Evict | src/lcp/core/rules/dedup_rules.py:234-239 | the key with the smallest stamp leaves all three dictionaries, and it is the least recently used one |
| LshCache.StampsDistinct | src/lcp/core/rules/dedup_rules.py:241-248 | order stamps are distinct |
| LshCache.OldestIsHead | src/lcp/core/rules/dedup_rules.py:235-236 | the smallest stamp belongs to the least recently used key |
| LruLaws.HeldExactlyWhen | src/lcp/core/rules/dedup_rules.py:211-249 | after any run of calls a build is held exactly when its key was asked for and fewer than 32 other keys were asked for since |
| LshCache.TransparentIffKeysIdentify | src/lcp/core/rules/dedup_rules.py:211-249 | every run of lookups answers like fresh builds exactly when equal keys mean equal builds |
| LshCache.FixedSizeIsTransparent | src/lcp/core/rules/dedup_rules.py:222 | with one shingle size and fingerprints that identify the index, the cache is transparent |
| LshCache.SizesAgreeExactlyWhen | src/lcp/core/rules/dedup_rules.py:217-222 | the key omits the shingle size: two sizes on one index share it, and want the same build exactly when the first and the last nonblank body of every id have at most as many words as the smaller size |
| LshCache.MixedSizesCollide | src/lcp/core/rules/dedup_rules.py:217-222 | so asking any index with a longer body for two sizes is never transparent |
| LshCache.SameFlatCollides | src/lcp/core/rules/dedup_rules.py:202-249 | any two indexes whose ids and bodies run together to the same text share a key, and where their builds differ the cache is not transparent |
| LshCache.RunTogetherIndexesCollide | src/lcp/core/rules/dedup_rules.py:202-208 | such pairs exist around every index: moving the boundary between the id and the body of one entry keeps the fingerprint and changes the build, unless the longer id is signed already |
| DedupRules.AssessDedup | src/lcp/core/rules/dedup_rules.py:300-413 | the cascade equals the verdict defined from the title match and the scores of the retrieved candidates, and asks the shared cache only when there is a body to search with and an index to search |
| DedupRules.UniqueExactlyWhen | src/lcp/core/rules/dedup_rules.py:389-413 | UNIQUE is said exactly when a trustworthy index was searched, no entry has the same title, and no retrieved candidate shares with the body as large a part of their shingles together, counted, as one of the limits |
| DedupRules.DuplicateExactlyWhen | src/lcp/core/rules/dedup_rules.py:331-377 | DUPLICATE is said exactly for a title that says something and was seen before, or a retrieved candidate whose common shingles, counted, are the limiting part of all shingles of the two |
| LshCache.JaccardLaw | src/lcp/core/rules/dedup_rules.py:252-261 | the similarity lies between 0 and 1, is symmetric, and reaches a threshold exactly when the common shingles are that part of all shingles of the two together; two texts without shingles are alike, one without is like none |
| DedupLaws.VerdictShows | src/lcp/core/rules/dedup_rules.py:329-413 | a verdict is as reliable as the index; UNIQUE shows nothing, DUPLICATE one entry, and the first entry with the same title wherever there is one |
| DedupLaws.UncertainShows | src/lcp/core/rules/dedup_rules.py:365-388 | UNCERTAIN shows exactly the retrieved entries between the two limits, with their similarity |
| DedupLaws.WordsRoundTrip | src/lcp/core/rules/dedup_rules.py:173-177 | the words of a text are its stretches of word characters, in order, whatever stands between them |
| DedupLaws.EveryTextIsPieces | src/lcp/core/rules/dedup_rules.py:173-177 | and every text is words with such gaps |
| DedupLaws.TitlesAreOne | src/lcp/core/rules/dedup_rules.py:153-162 | titles that differ in case or in outer whitespace normalise to the same |
| DedupLaws.KeptOnes | src/lcp/core/rules/dedup_rules.py:160-162 | the words kept are those that are no stopwords, in order |
| DedupRules.BestIs | src/lcp/core/rules/dedup_rules.py:353-364 | the match shown is the first of the strongest clear duplicates |
| DedupRules.NoTitleMatch | src/lcp/core/rules/dedup_rules.py:331-346 | a title with nothing left after normalising never matches |
| DedupRules.CacheDoesNotMatter | src/lcp/core/rules/dedup_rules.py:346-352 | where equal keys mean equal builds, whatever questions were asked before, the cascade answers as if it had built the index afresh |
| LlmClient.Interpret | src/lcp/adapters/llm/client.py:354-399 | only a "stop" with nonblank content is a clean completion; the text is returned as it came but for a blank one, and the reason told is "empty", "filtered:content_filter", "truncated:None" or "truncated:" with the finish reason, in each case exactly |
| LlmClient.Client.Chat | src/lcp/adapters/llm/client.py:265-352 | outside 0 to 0.3 a call is refused and changes nothing; a dry run gives the marked stub and changes nothing; inside an armed window the call fails as a service failure untouched; without an endpoint client a dependency is missing; else the endpoint is called: a completion of any kind clears count and window, only a failure of the provider counts and arms the window at the threshold, errors of the program pass through |
| LlmClient.CooldownBound | src/lcp/adapters/llm/client.py:326-352 | on a nondecreasing clock a stretch of length L without a success makes at most threshold + floor(L / cooldown) endpoint calls |
| LlmClient.DefaultBound | src/lcp/adapters/llm/client.py:59-70 | with the limits of the program: three calls and one for each whole minute |
| LlmClient.BoundIsReached | src/lcp/adapters/llm/client.py:326-352 | the bound is sharp: some run reaches it for every number of windows |
| LlmClient.ArmedWindowHolds | src/lcp/adapters/llm/client.py:326-339 | no endpoint call starts inside an armed window |
| LlmClient.PlausibleKept | src/lcp/adapters/llm/client.py:341-352 | in every state calls can lead to, an armed window stands for a reached threshold |
| NetGuard.AsPackedIpv4 | src/lcp/adapters/crawler/net_guard.py:147-174 | the parse and shift-or loop returns the positional value of the parts |
| NetGuard.CheckRange | src/lcp/adapters/crawler/net_guard.py:164-170 | the byte checks on the leading parts and the limit on the last accept exactly the parts that fit |
| NetGuard.OrDisjoint | src/lcp/adapters/crawler/net_guard.py:171-173 | shifting and or-ing parts that fit equals multiplying and adding |
| NetGuard.LooseMeans | src/lcp/adapters/crawler/net_guard.py:152-174 | an address is returned exactly for one to four numeric parts with each leading part below 256 and the last below 256 to the power of the bytes it absorbs |
| NetNumbers.OctetExactlyWhen | src/lcp/adapters/crawler/net_guard.py:132-144 | a part is a number exactly when what is left of it without outer whitespace and one sign is a numeral of the base it announces: digits of base 16 behind 0x, of base 8 behind any other 0, else of base 10, single underscores between them |
| NetNumbers.SignCounts | src/lcp/adapters/crawler/net_guard.py:132-144 | a plus sign changes nothing, a minus sign negates |
| NetGuard.PartRoundTrip | src/lcp/adapters/crawler/net_guard.py:132-144 | a number printed in decimal, 0-octal or 0x-hex, padded or not, parses back to itself |
| NetGuard.HostRoundTrip | src/lcp/adapters/crawler/net_guard.py:132-174 | any 32-bit address printed in one to four parts, each in any of these spellings, parses back to the address |
| NetGuard.RoutesAgree | src/lcp/adapters/crawler/net_guard.py:194-204 | where the single-integer route and the dotted route both apply they give the same address |
| Grounding.VerifyGrounding | src/lcp/core/rules/grounding.py:215-281 | with the source shingled once and shared, the offending quotes and claims are exactly those each check finds on its own, in order; none exactly when everything is grounded |
| Grounding.EmptyMeansGrounded | src/lcp/core/rules/grounding.py:215-281 | an empty list means every quote is in the cleaned source and every claim is grounded |
| Grounding.ClaimReportedExactlyWhen | src/lcp/core/rules/grounding.py:146-164 | a claim is reported exactly when it is one of the claims of the draft, has text, is not verbatim in the cleaned source, and fewer than six in ten of its distinct two-character substrings, counted on the normal forms, occur there (a single character must be all there is) |
| Grounding.QuoteReportedExactlyWhen | src/lcp/core/rules/grounding.py:215-250 | a quote is reported exactly when it has text and is no substring of the cleaned source |
| Grounding.NormalizeMeans | src/lcp/core/rules/grounding.py:110-113 | the normal form keeps the lower-cased word characters, one by one, and nothing else |
| Grounding.SentencesAre | src/lcp/core/rules/grounding.py:207-212 | a sentence is a stretch between two stops, stripped, with text in it |
| Grounding.ClaimsAreExactly | src/lcp/core/rules/grounding.py:182-212 | the claims checked are exactly the stretches of intro, body and summary between stops, the answers, captions, subheads and quick facts, stripped, of at least eight characters |
| Grounding.GroundedStays | src/lcp/core/rules/grounding.py:146-164 | a grounded claim that occurs verbatim or whose normal form is not a single character stays grounded when the source grows on either side |
| Grounding.StaysExactlyWhen | src/lcp/core/rules/grounding.py:146-164 | and that condition is exact: otherwise some extension of the source loses the claim |
| Assembler.FindVerbatimQuotes | src/lcp/adapters/llm/assembler.py:142-159 | the loop takes the first distinct stripped lines of at least eight characters, up to the limit (one when the limit is below one) |
| Assembler.QuotesPass | src/lcp/adapters/llm/assembler.py:142-159 | every quote taken passes the quote check against the same source |
| Assembler.QuotesOccur | src/lcp/adapters/llm/assembler.py:142-159 | every quote taken is a substring of the cleaned source |
| Assembler.ParseSections | src/lcp/adapters/llm/assembler.py:120-139 | each section is the first nonempty value of its prefix |
| Assembler.Assemble | src/lcp/adapters/llm/assembler.py:162-316 | the branches on the chat outcome give the draft defined for it; errors of the chat propagate |
| Assembler.AssembledFacts | src/lcp/adapters/llm/assembler.py:211-316 | a draft is NOT_EXECUTED exactly when the chat was not, and DRAFTED exactly for a clean executed chat with both sections and, unless the source is blank, a quote; then intro and body are those sections; every other draft has empty text and says why: the reason of the chat first, then missing quotes, then the missing sections |
| Assembler.AssembledQuotes | src/lcp/adapters/llm/assembler.py:206-316 | whatever the chat gives, the quotes are the first five of the source, and each passes the quote check |
| Assembler.CandidatesAre | src/lcp/adapters/llm/assembler.py:142-159 | a quote can be exactly a stripped line of at least eight characters, each once |
| Assembler.CandidatesInOrder | src/lcp/adapters/llm/assembler.py:142-159 | in the order of the lines on which they first stand |
| Assembler.FirstValueIs | src/lcp/adapters/llm/assembler.py:120-139 | a section is the value on the first line that gives one under its prefix |
| Copywriter.Parse | src/lcp/adapters/llm/copywriter.py:176-244 | the accumulating pass with its pending question equals the copy read off the sequence of recognised lines |
| Copywriter.PairingIsFaq | src/lcp/adapters/llm/copywriter.py:222-233 | the pending-question loop yields exactly one item per question, in order, answered by the first answer before the next question or by the empty string |
| Copywriter.OneItemPerQuestion | src/lcp/adapters/llm/copywriter.py:222-233 | as many items as questions, with the questions in order, for arbitrary text |
| Copywriter.TokensRoundTrip | src/lcp/adapters/llm/copywriter.py:196-203 | any sequence of printed pieces with trimmed, nonempty, single-line values reads back as itself |
| CopyLaws.TokenMeans | src/lcp/adapters/llm/copywriter.py:196-203 | a line counts for a kind and a value exactly when, cut at its first colon, it gives that nonempty value, stripped, behind the key of that kind, in any case and with any padding |
| Copywriter.CopyRoundTrip | src/lcp/adapters/llm/copywriter.py:176-264 | printing pieces within the caps in any order and parsing returns every list, the FAQ, the first category and all keywords |
| CopyLaws.ObjectiveOnes | src/lcp/adapters/llm/copywriter.py:247-253 | the tags that come through are, in order, the first five of those in which no hype word occurs, whatever the case (with CopyLaws.FirstFive) |
| CopyLaws.KeywordsAre | src/lcp/adapters/llm/copywriter.py:256-264 | at most three keywords of each dimension come through, labelled, in the order person, place, platform, event, type |
| Copywriter.CopyExtendsLists | src/lcp/adapters/llm/copywriter.py:296-331 | supporting: every list of the draft is extended by what the copy brings, in order; every caption survives, with its asset where there is one; title, narrative, quotes and status are not touched |
| Copywriter.CopyReplacesExactlyWhen | src/lcp/adapters/llm/copywriter.py:317-327 | supporting: a summary or category the draft had survives exactly when the copy brings none or the same one |
| Copywriter.ParsedCategoryWins | src/lcp/adapters/llm/copywriter.py:235-240 | a category line of the copy always replaces the category the operator gave |

## Left out

- Network, subprocess, media and image work, DNS, the scrapers and Telegram: side effects in libraries not shown; the gates enter with arbitrary findings or errors.
- SQLite, fsync, chmod, temp files and keyring: each transaction or file replacement is one atomic step; a store or file operation that itself fails is not modelled.
- `list_by_state`, `counts_by_state`, `batch_summary`, `process_batch`, `ingest_gossip`, `run_until`: plumbing over the modelled operations (its review path is `ReviewRunIsApprovable`).
- The audit events of `Pipeline` and `Signoff` go to `AuditTrail`, an append-only list, which `AuditReading.FileIsTrail` finds again in the file; an append that raises is not modelled there, nor are the counts and scores that go into the extras.
- The raw line a parser accepts is taken for a record; a JSON line that is no object is only a case of the reduction. Line separators of the audit file outside ASCII, Unicode digits in `int()`, and inputs on which a JSON value is of an unhashable type.
- The NLI grounding strategy, the rendered review message, title file and published message, prompts, templates, notes, error texts and log output, `on_stage` callbacks.
- Float rounding: similarities, ratios, times and thresholds are reals.
- Lint scores and the rounding of reported similarities (a parameter in `DedupRules`), `build_queries`, `summarize_gaps`, risk keyword tables, ranking weights: one-pass lookups and sums.
- `ipaddress` range tables, bracketed IPv6 literals, URL splitting, `safe_join`: library behaviour.
- Merged gossip items: scores and descriptions are reset by the source and not modelled beyond that.
- GUI, CLI and web server; their in-flight guard is the one-worker-per-job assumption of `CrashProtocol`.
- Pipeline.Pipeline.Process: a dry run answers every chat with the stub (as `LlmClient.Client.Chat` proves for the client); the cooldown of the client is not threaded through the call.
- FreezeRuns.RunKeepsInv: the sign-off operations act on readings of any age, but their own checks, file writes and transition are one step, as are a process call and a crawl; one worker per job. The packet build is taken apart in `PacketSteps`, a run in `CrashProtocol`. An outside edit may change draft and cover, not the freeze record or the row.
- PacketSteps.RunKeepsInv: the title and message files of the packet are not modelled; the other sign-off operations stay single steps.
- CrashProtocol.StepKeepsInv: deleting a job is no step (no path of the program calls it); a view that is between its two reads while its job is deleted, created anew and run could drop the marker of that run.
- AuditRuns.RunKeepsInv: one operation at a time on each job (any number on different jobs); the records an operation found are arbitrary, so the trail is not tied to the rows.
- JobStore.JobStore.CreateJob: the job directory, made before the insert and left behind by a refusal, is not modelled.
- JobStore.JobStore.DeleteJob: the two erasure events, and whether the directory was there, are not modelled.
- Stage1.RunStage1: the crawled bundle and `source.json` in the job folder are not modelled.
- Reconcile.Reconcile: rows and markers are read in one step; the fine-grained view is in `CrashProtocol`.
- NetGuard.RoutesAgree: stated for stripped hosts, as the caller strips before both routes.
