# Interview evidence pipeline: a verified model

A model of how a recruiting system turns interview transcripts into evidence for a hiring
decision, with proofs about every run of it.

The pipeline has five versioned aggregates and the arithmetic and text matching below them:

- **Transcript** (`Segments`, `ChangeCounts`, `Transcript`, `TranscriptHistory`, `TranscriptRuns`,
  `TranscriptEffects`, `TranscriptService`). A round that waits for its transcript gets one
  immutable original T1, then editing drafts Dk and immutable confirmed copies Ck in turn.
  Confirming completes the round; completing without a transcript is the exclusive alternative.
- **Round analysis** (`RoundAnalysis`, `AnalysisHistory`, `AnalysisEffects`, `AnalysisResult`, `Scoring`, `Text`). A
  request freezes the included segments of the confirmed version into a hash-sealed snapshot. Later
  the input is loaded and checked again, the output validated, and a version An stored.
- **Comprehensive analysis** (`Coverage`, `Application`, `ApplicationHistory`,
  `ApplicationTheorems`, `ApplicationEffects`, `ApplicationTasks`). The rounds of an application are split into included
  ones and gaps; references to the included analyses are frozen and go stale when their rounds move on.
- **Questions** (`Questions`, `QuestionService`). A versioned outline under an optimistic lock and
  idempotency keys.
- **Hiring** (`Hiring`, `HiringRaces`). A log of decisions that may only cite a current, non-stale
  analysis, and what becomes of it beside writers that do not lock the application.

`TaskLedger` and `TaskRuns` are the task protocol the generation requests share, `AiTask` one task
row under concurrent writers and `TaskRows` both together, `RoundStatus` the status machine of a round, `ResumeScore` the resume scoring,
and `Inputs` the inputs that requests freeze. What each call stores and when it succeeds is stated
without the functions that do it in `TranscriptEffects`, `AnalysisEffects` and `ApplicationEffects`, and at
the end of the other modules.

## How it is built

Each operation is a function from state to state, with the branches and errors of the code in its
order. A class beside it updates the same columns in place, and its methods are proved equal to the
functions. Runs are arbitrary sequences of calls: every call may be made by anybody, in any order,
with any keys and payloads, and the theorems hold in every state so reached.

A service call is one atomic step. Where the code loads and locks the rows it decides on at once, this
is what the code does. It is assumed elsewhere: saving and confirming a draft load the transcript row
with the draft before they lock it, and a lock does not reload what a session has loaded; a hiring
decision locks the application but not the analysis and the transcript it checks; a comprehensive
request reads the rounds unlocked; and the persist functions look for an existing version before they
lock. Places whose interleaving is modelled are split: cancelling a task and recovering a stale one
read first and write conditionally later, a worker claims, starts and finishes in three transactions
of one session, and the third sees the task as the second remembers it (`AiTask`, `TaskRows`), and a
screening, a resume confirmation and the closing of an application read the application unlocked and
write later (`HiringRaces`; `Hiring` has them as atomic moves).

Identifiers come from a counter. A hash is represented by what it was taken of, so hashing is
injective; encryption is left away as a round trip. Decimals and floats are exact. Times are plain
numbers that the steps carry.

## What turned out false

These are promised or expected, and not met by the code. For each, the model keeps the code's
behaviour, shows it failing, and says exactly when it holds.

- A replayed transcript confirm returns the newest confirmed version, not its own
  (`TranscriptRuns.ReplayMissesItsOwn`, `TranscriptRuns.ReplayReturnsItsOwnIff`).
- A replayed generation request returns the earliest task of its input, not its own
  (`TaskRuns.ReplayCanReturnEarlier`, `TaskRuns.ReplayReturnsOriginalIff`).
- A manual retry does not look for another task in flight (`TaskRuns.RetryKeepsOneIff`).
- Saving a draft untouched can report changes (`ChangeCounts.SwappedRowsResaveLoudly`,
  `ChangeCounts.ResaveIsSilentIff`).
- A task recovered as stale can end up with a running attempt
  (`AiTask.RecoveryBetweenClaimAndStart`, `AiTask.RecoveredStaysQuietIff`).
- A worker that comes back late writes its outcome over a recovered, cancelled or succeeded task, since
  its session never reloads the task. Section 6 of
  docs/superpowers/specs/2026-08-19-async-persistence-stale-task-recovery-design.md rules this out
  (`AiTask.SuccessOverwritesCancelled`, `AiTask.SettledStaysIff`, `AiTask.FinalStaysIff`).
- Its retryable failure moreover puts the task back in the queue beside a newer one
  (`TaskRows.TwoInFlightWithoutRetry`, `TaskRows.RecoveryKeepsOneIff`).
- Resume scores match names stripped but look weights up unstripped
  (`ResumeScore.TrailingSpaceLosesWeight`, `ResumeScore.SnapshotWeightUsedIff`).
- A round in progress can be cancelled although the action is not offered
  (`RoundStatus.OfferedVersusAccepted`).
- A model total that is the exact weighted sum can still draw the difference warning
  (`ResumeScore.ExactTotalCanBeWarned`, `ResumeScore.ExactTotalSafeIff`).
- A screening written late can reopen a recommended application
  (`HiringRaces.LateScreeningReopens`, `HiringRaces.SecondFinalReachableIff`,
  `HiringRaces.RecommendationIsFinalIff`).

## Model

| member | source | states |
|---|---|---|
| Text.LineEndingsSubsumed | backend/app/services/interview_ai_validation.py:261-269 | Replacing CR LF and CR first makes no difference: the white-space collapse does that work anyway |
| Text.NormalizeIdempotent | backend/app/services/interview_ai_validation.py:261-269 | Normalising an evidence text twice gives the same text as once, without margins and with single plain spaces |
| Text.NormalizeFailsIffBlank | backend/app/services/interview_ai_validation.py:261-269 | Normalisation is refused exactly for texts of white space only |
| Text.WhiteSpaceIs | backend/app/services/interview_ai_validation.py:261-269 | The white-space characters by their code points |
| Text.VerbatimQuoteIsFound | backend/app/services/interview_ai_validation.py:322-325 | Completeness of evidence matching: a non-blank contiguous piece of the raw text is always found after both are normalised |
| Text.FoundQuoteIsVerbatim | backend/app/services/interview_ai_validation.py:322-325 | Soundness: a quote that is found has a contiguous raw piece that normalises to it |
| Text.QuoteFoundIffVerbatimPiece | backend/app/services/interview_ai_validation.py:322-325 | A quote is accepted if and only if some contiguous raw piece of the text normalises to the same |
| Scoring.BuildDimensionSnapshot | backend/app/services/interview_ai_validation.py:83-139 | The loop builds the snapshot of all items, numbered from 1, or refuses the list |
| Scoring.SnapshotIff | backend/app/services/interview_ai_validation.py:83-139 | A list is accepted exactly with 1 to 50 items that have a name that is not blank, a weight, and no malformed field; the snapshot holds their stripped texts and weights |
| Scoring.KeyShowsPosition | backend/app/services/interview_ai_validation.py:46-57 | A key is D and the three digits of a position from 1 to 999 |
| Scoring.AnchorsCompleteIff | backend/app/services/interview_ai_validation.py:142-156 | Anchors pass exactly if every dimension has five, none blank, no two alike once stripped |
| Scoring.DimensionKeysAreDistinct | backend/app/services/interview_ai_validation.py:46-57 | Different positions get different dimension keys |
| Scoring.SnapshotKeysUnique | backend/app/services/interview_ai_validation.py:83-139 | A built snapshot is not empty and has distinct keys and consecutive display orders |
| Scoring.ValidateDimensionWeights | backend/app/services/interview_ai_validation.py:159-175 | Weights are accepted exactly when each lies in (0, 100] and they sum to 100 within 0.01 |
| Scoring.ComputeInterviewOverallScore | backend/app/services/interview_ai_validation.py:178-214 | A score is produced exactly for legal requests; it is absent exactly when some dimension is unscored, and else the half-up rounded weighted total |
| Scoring.OverallScoreOfTable | backend/app/services/interview_ai_validation.py:159-214 | A request is legal exactly for weights in (0, 100] summing to 100 within 0.01 and a table of the snapshot keys with scores absent or from 1 to 5; there is no overall score exactly if one is absent, else it is the weighted sum of the table scores rounded half up to cents |
| Scoring.RaisingScoresRaisesOverall | backend/app/services/interview_ai_validation.py:178-214 | Raising entries of the score table never lowers the overall score |
| Scoring.UniformTableIsExact | backend/app/services/interview_ai_validation.py:178-214 | A table with the same score everywhere gives exactly that score |
| Scoring.RangeCheckNeverFires | backend/app/services/interview_ai_validation.py:206-213 | The rounded total of valid weights and scores always lies in [1.00, 5.00] |
| Scoring.ScoreIsAccurate | backend/app/services/interview_ai_validation.py:178-214 | The reported score is within 0.005 of the exact weighted total |
| Scoring.ScoreIsMonotone | backend/app/services/interview_ai_validation.py:178-214 | Raising any scores never lowers the reported score |
| Scoring.UniformScoreIsExact | backend/app/services/interview_ai_validation.py:178-214 | Equal scores are reported exactly, however the weights miss 100 within tolerance |
| AnalysisResult.SegmentCatalog | backend/app/services/interview_ai_validation.py:272-283 | The catalog maps each id to its segment, or a repeated id is refused |
| AnalysisResult.ValidateEvidence | backend/app/services/interview_ai_validation.py:286-328 | Evidence is accepted exactly when its segments are distinct and each reference names an included segment of the frozen version by its number and quotes it |
| AnalysisResult.RefSupportedIff | backend/app/services/interview_ai_validation.py:300-328 | A reference is accepted exactly if it names an included segment of the frozen version by its number and its quote is not blank and, up to white space, a contiguous piece of the segment text |
| AnalysisResult.VerbatimQuoteIsAccepted | backend/app/services/interview_ai_validation.py:286-328 | Any non-blank contiguous piece of an included segment is accepted as its evidence |
| AnalysisResult.ValidateAnalysisResult | backend/app/services/interview_ai_validation.py:331-383 | An output is accepted exactly when keys match the snapshot one to one, each item has a score with evidence or an explanation, evidence is valid and weights are; the score returned is in range |
| AnalysisResult.AnalysisAcceptedIff | backend/app/services/interview_ai_validation.py:331-383 | An output is accepted exactly if its keys are those of the snapshot, each once, no segment is given twice, each item is scored 1 to 5 with evidence or unscored with an explanation, cites no segment twice and quotes pieces of its sources, and the weights are valid |
| AnalysisResult.BuildRows | backend/app/services/interview_analyses.py:1034-1053 | The loop stores one row per snapshot dimension in snapshot order |
| AnalysisResult.RowsCarryResult | backend/app/services/interview_analyses.py:1034-1085 | The stored row of each dimension carries score, analysis, strengths, risks, follow-ups and evidence of the item of its key, and the explanation only if unscored |
| AnalysisResult.OverallIsOfRows | backend/app/services/interview_analyses.py:994-1033 | The stored overall score is there exactly if every row is scored, and is their weighted sum rounded half up |
| AnalysisResult.AcceptedRowsAreLegal | backend/app/models/interview_ai.py:405-438 | An accepted output persists rows that meet the table constraints: distinct keys and orders, score exactly without explanation, distinct evidence from included segments only |
| RoundStatus.OfferedVersusAccepted | backend/app/services/interview_state.py:31-57 | The offered actions and the transition table agree on every status and action but one: cancelling a round in progress is accepted and not offered |
| RoundStatus.TableIs | backend/app/services/interview_state.py:17-29 | Where each action may start and where it leads |
| RoundStatus.TerminalIff | backend/app/services/interview_state.py:17-29 | A status is terminal exactly if no action leads on from it |
| RoundStatus.DocumentActions | backend/app/services/interview_state.py:31-57 | The actions that ask for a document or an edit are offered in the listed statuses only |
| RoundStatus.StagesNeverFallBack | backend/app/services/interview_state.py:17-29 | Over any life of a round, rescheduling included, it never falls back to an earlier stage and terminal statuses are final |
| RoundStatus.CompletedComesFromPending | backend/app/services/interview_state.py:23 | A completed round was waiting for its transcript just before |
| ResumeScore.AcceptedIffPermutation | backend/app/services/score_validation.py:20-48 | A score output is accepted exactly when the stripped snapshot names are distinct and the stripped output names are a permutation of them |
| ResumeScore.OrderDimensionsBySnapshot | backend/app/services/score_validation.py:51-65 | The loop picks the output items by name in snapshot order |
| ResumeScore.ReorderFollowsSnapshot | backend/app/services/score_validation.py:51-65 | After acceptance the reordered names equal the snapshot names in order |
| ResumeScore.ReorderIsPermutation | backend/app/services/score_validation.py:51-65 | After acceptance reordering loses and repeats nothing |
| ResumeScore.ComputeScoreTotals | backend/app/services/score_validation.py:68-100 | The loop recomputes each weighted score, the total, the difference to the model total and the warning |
| ResumeScore.RowsExplained | backend/app/services/score_validation.py:76-90 | Each recomputed row repeats name and score, has the weight looked up, and a weighted score within half a cent of their product |
| ResumeScore.DifferenceExplained | backend/app/services/score_validation.py:91-99 | The difference is the model total less the recomputed one to four places, and the warning is raised exactly beyond one cent either way |
| ResumeScore.TotalIsAccurate | backend/app/services/score_validation.py:68-100 | The total of n dimensions is within 0.005 n of the exact weighted sum, and rounding it once more changes nothing |
| ResumeScore.ExactTotalNotWarned | backend/app/services/score_validation.py:91-99 | A model that reports the exact sum of at most two dimensions is never warned about |
| ResumeScore.ExactTotalCanBeWarned | backend/app/services/score_validation.py:91-99 | For every number of dimensions from three on there is an accepted output, in the order and with the weights of its snapshot, whose exact sum, reported as the model total, draws the warning |
| ResumeScore.ExactTotalSafeIff | backend/app/services/score_validation.py:91-99 | A model that reports the exact weighted sum of n dimensions is never warned about, whatever they are, if and only if n is at most two |
| ResumeScore.SnapshotWeightUsedIff | backend/app/services/resumes.py:1026-1030 | An accepted dimension is weighted by the snapshot exactly when the output repeats its name unstripped or carries the same weight itself |
| ResumeScore.TrailingSpaceLosesWeight | backend/app/services/score_validation.py:78-80 | A trailing space in an accepted output name zeroes the dimension |
| Segments.OriginalIffRepeatsBase | backend/app/services/interview_transcripts.py:287-308 | A row is marked ORIGINAL exactly when it refers to one base row and repeats its speaker, text and times |
| Segments.SourceIff | backend/app/services/interview_transcripts.py:262-308 | A row is MANUAL_ADDITION exactly if it names no row or one the base lacks, CORRECTED exactly if it names several or a base row whose content it changes |
| Segments.AggregateRoundTrip | backend/app/services/interview_transcripts.py:221-222 | The stored aggregate determines the texts as long as no text holds a newline itself |
| ChangeCounts.ComputeChangeCounts | backend/app/services/interview_transcripts.py:311-394 | The loops compute the seven counters of the specification |
| ChangeCounts.CountersCountRows | backend/app/services/interview_transcripts.py:327-366 | Each per-row counter is the number of incoming rows that have the change it is named after |
| ChangeCounts.ComparedIff | backend/app/services/interview_transcripts.py:335-349 | A row with one reference is compared with the previous row of that number, failing that with the first one of the same references; any other row with none |
| ChangeCounts.ReorderIff | backend/app/services/interview_transcripts.py:384-394 | A reordering is counted exactly if there were rows before and the references differ place by place |
| ChangeCounts.DeletedIsExact | backend/app/services/interview_transcripts.py:368-377 | deleted_count is the number of previous rows no incoming row refers to, so the cut-off at zero is redundant |
| ChangeCounts.AdditionsAndMergesFit | backend/app/services/interview_transcripts.py:327-383 | Manual additions plus merges and splits never exceed the incoming rows |
| ChangeCounts.ResaveIsSilentIff | backend/app/services/interview_transcripts.py:311-394 | Re-saving a draft untouched reports no change if and only if every row names one base row and agrees with the previous row its reference leads to, and every previous number is named |
| ChangeCounts.OwnNumbersResaveSilently | backend/app/services/interview_transcripts.py:311-394 | Re-saving rows whose references are their own numbers, all in the base version, reports no change |
| ChangeCounts.SwappedRowsResaveLoudly | backend/app/services/interview_transcripts.py:311-394 | After two rows were swapped, re-saving untouched rows reports text corrections |
| TranscriptHistory.NextNoContinues | backend/app/repositories/interview_transcripts.py:119-130 | next_version_no continues the numbering of the chain for drafts and confirmed versions |
| TranscriptHistory.ImportedKeeps | backend/app/services/interview_transcripts.py:739-812 | Importing starts the chain: a numbered, immutable T1 with its aggregate, and the pointer to it |
| TranscriptHistory.DraftCreatedKeeps | backend/app/services/interview_transcripts.py:1000-1053 | A new draft extends the chain by one editing version based on its end |
| TranscriptHistory.DraftSavedKeeps | backend/app/services/interview_transcripts.py:1135-1187 | A save changes only the content of the editing draft |
| TranscriptHistory.DraftConfirmedKeeps | backend/app/services/interview_transcripts.py:1297-1362 | A confirm freezes the draft, appends its confirmed copy, moves the pointers and completes the round |
| TranscriptRuns.BaseIsLast | backend/app/services/interview_transcripts.py:1000-1008 | A new draft is always based on the end of the chain |
| TranscriptRuns.EditingDraftHasNoConfirmKey | backend/app/services/interview_transcripts.py:1278-1292 | A confirm key is never stored for a draft that is still being edited |
| TranscriptRuns.CallKeeps | backend/app/services/interview_transcripts.py:686-1530 | Every transcript call and every status action keeps the invariant, moves only forward, and moves the confirmed pointer only to unused ids |
| TranscriptRuns.RunsKeepInvariant | backend/app/services/interview_transcripts.py:686-1530 | So does every run of calls, whatever their order, keys and outcomes |
| TranscriptRuns.HistoryIsOneChain | backend/app/services/interview_transcripts.py:979-1053 | In every reachable state the history is T1, D1, C1, D2, C2, ... each based on the one before; drafts outnumber confirmed versions by one exactly while one is being edited |
| TranscriptRuns.PointersNameTheEnds | backend/app/services/interview_transcripts.py:1344-1345 | The pointers name the original, the editing draft and the newest confirmed version |
| TranscriptRuns.VersionsAreWellFormed | backend/app/services/interview_transcripts.py:575-603 | In every reachable state rows are numbered 1..n, the aggregate is the newline join of the texts, and Ck has the rows of its frozen draft |
| TranscriptRuns.ImmutableForever | backend/app/services/interview_transcripts.py:1306-1316 | A version that is immutable at some moment is found unchanged at every later one |
| TranscriptRuns.CompletionModesExclude | backend/app/services/interview_transcripts.py:1453-1482 | The completion modes exclude each other for good: without transcript no transcript ever exists, with a confirmed one there is a confirmed version with included text |
| TranscriptRuns.SupersededForever | backend/app/services/interview_transcripts.py:1344 | An id in use that is not the confirmed version never becomes it again |
| TranscriptRuns.ConfirmSucceedsIff | backend/app/services/interview_transcripts.py:1294-1359 | Confirming an editing draft succeeds exactly with the current version and confirmable content, and then freezes it and completes the round |
| TranscriptRuns.ReplayedConfirm | backend/app/services/interview_transcripts.py:1233-1264 | A replayed confirm answers with the newest confirmed version, which is its own exactly when that version is based on its draft |
| TranscriptRuns.ReplayReturnsItsOwnIff | backend/app/services/interview_transcripts.py:1233-1264 | After any further calls, the replay of a successful keyed confirm changes nothing and returns what the original call returned if and only if the newest confirmed version is still based on that draft |
| TranscriptRuns.ReplayMissesItsOwn | backend/app/services/interview_transcripts.py:1233-1264 | Opening and confirming the next draft right after a keyed confirm makes its replay answer with a version it did not make |
| TranscriptRuns.SaveSucceedsIff | backend/app/services/interview_transcripts.py:1134-1187 | A save under an unused key succeeds exactly with the current draft version, stores the sent rows and raises the version by one |
| TranscriptRuns.NoLostUpdate | backend/app/services/interview_transcripts.py:1134-1135 | Of two saves made from the same draft version the second is refused and changes nothing |
| TranscriptEffects.OriginalIsStoredOnce | backend/app/services/interview_transcripts.py:721-737 | A first import stores the sent rows as T1; every later import answers with it and stores no version |
| TranscriptEffects.FirstImportIff | backend/app/services/interview_transcripts.py:696-812 | A first import under an unused key succeeds exactly with fitting rows, on a waiting round, and with the parsed file the rows were reviewed from; T1 then holds the rows |
| TranscriptEffects.LaterImports | backend/app/services/interview_transcripts.py:714-737 | Once there is a transcript, a new import is answered with the original while the round waits and refused after completion, a replay is answered at any time |
| TranscriptEffects.NewDraftRepeatsBase | backend/app/services/interview_transcripts.py:1036-1045 | A new draft repeats the end of the chain row by row, each row referring to where it comes from |
| TranscriptEffects.OneDraftAtATime | backend/app/services/interview_transcripts.py:979-994 | While a draft is being edited every request for one answers with it and stores no version |
| TranscriptEffects.CreateDraftIff | backend/app/services/interview_transcripts.py:953-1053 | Without a draft being edited, asking for one succeeds exactly if there is a transcript |
| TranscriptEffects.ReplayedCreate | backend/app/services/interview_transcripts.py:961-1000 | A replayed request for a draft answers with the draft being edited, or is a conflict once it was confirmed |
| TranscriptEffects.SaveEffect | backend/app/services/interview_transcripts.py:1134-1187 | A save stores the sent rows in the draft, marked against its base version, reports the counters against the rows before, and touches nothing else |
| TranscriptEffects.SaveRefusals | backend/app/services/interview_transcripts.py:1088-1133 | A save is refused without change for unfit rows, another draft id, and an unknown draft |
| TranscriptEffects.ReplayedSave | backend/app/services/interview_transcripts.py:1116-1133 | A replayed save answers with the draft as it is and no changes; with other content it is a conflict, after the confirm it is refused |
| TranscriptEffects.ConfirmEffect | backend/app/services/interview_transcripts.py:1297-1362 | A confirm freezes the draft, appends a copy of its rows and text, moves the pointers, completes the round and answers with the copy |
| TranscriptEffects.ConfirmableIff | backend/app/services/interview_transcripts.py:397-416 | A version can be confirmed exactly if no text is blank, the times fit, and one row is included |
| TranscriptEffects.ConfirmOfFrozenDraft | backend/app/services/interview_transcripts.py:1233-1264 | A confirm of a frozen draft is a replay under its own key and request, a conflict under its key with another, and refused otherwise |
| TranscriptEffects.ReasonOkIff | backend/app/services/interview_transcripts.py:1420-1452 | A reason is acceptable exactly if it is one of the five listed, explained if it is OTHER |
| TranscriptEffects.ReplayedCompletion | backend/app/services/interview_transcripts.py:1430-1452 | A replayed completion answers with the round as it is; the same key with another payload is a conflict |
| TranscriptEffects.AdvanceEffect | backend/app/services/interview_state.py:17-57 | Any other status action moves the round as the table says and raises its version |
| TranscriptEffects.FreshDraftSavesSilently | backend/app/services/interview_transcripts.py:1036-1045 | A draft fresh from an original without source references, saved untouched, reports no change |
| TranscriptEffects.CompleteWithoutIff | backend/app/services/interview_transcripts.py:1410-1482 | Completing without a transcript succeeds exactly with a listed and explained reason on a pending round of the named version without transcript, and records it |
| TranscriptService.BuildSegments | backend/app/services/interview_transcripts.py:1145-1172 | The loop derives sources, numbers rows from 1 and collects texts |
| TranscriptService.ValidateConfirmSegments | backend/app/services/interview_transcripts.py:397-416 | The loop accepts exactly non-blank rows with valid time ranges of which at least one is included |
| TranscriptService.Service.ImportTranscript | backend/app/services/interview_transcripts.py:686-840 | In place: a repeated key or a second import answers with T1; a first one in PENDING_TRANSCRIPT whose file parses and has the announced hash stores master, T1 and key; anything else is refused without a write |
| TranscriptService.Service.CreateTranscriptDraft | backend/app/services/interview_transcripts.py:944-1085 | In place: answers with the draft being edited if there is one, else stores Dk on the confirmed version or on T1 and points to it; a used key without its draft is a conflict |
| TranscriptService.Service.SaveTranscriptDraft | backend/app/services/interview_transcripts.py:1088-1216 | In place: under the draft's current version replaces its rows, aggregate and lock and reports the change counters; a replay reports none; anything else is refused without a write |
| TranscriptService.Service.ConfirmTranscriptDraft | backend/app/services/interview_transcripts.py:1219-1404 | In place: under the draft's current version and with confirmable rows freezes it, stores Ck, moves both pointers, completes a pending round and records the mode; anything else writes nothing |
| TranscriptService.Service.CompleteWithoutTranscript | backend/app/services/interview_transcripts.py:1410-1530 | In place: completes a pending round of the named version that has no transcript, with its reason; a replay answers with the recorded completion |
| TaskLedger.Service.RequestGeneration | backend/app/services/interview_questions.py:659-740 | In place: a used key answers with the earliest task of its input or conflicts; a task in flight is shared for the same input and refused for another; otherwise a pending task is stored with its key |
| TaskRuns.RequestEffect | backend/app/services/interview_questions.py:629-740 | Under an unused key a request shares the latest task in flight of the same input, is refused beside one of another, and otherwise makes a pending task; under a used key another input is a conflict |
| TaskRuns.ReplayNeverConflicts | backend/app/services/interview_questions.py:659-690 | In every reachable state, manual retries included, replaying a stored key with its own input changes nothing and is answered with the earliest task of that input |
| TaskRuns.ReplayReturnsOriginalIff | backend/app/repositories/ai_tasks.py:139-159 | A replay returns the task of the original call if and only if that call found no earlier task of the same input or was answered with it |
| TaskRuns.ReplayCanReturnEarlier | backend/app/repositories/ai_tasks.py:139-159 | A request after a failed task of the same input is replayed with the failed task |
| TaskRuns.AtMostOneInFlight | backend/app/repositories/ai_tasks.py:117-136 | Over runs in which no manual retry and no late outcome puts a task back in the queue, at most one task is pending or running |
| TaskRuns.RetryKeepsOneIff | backend/app/services/ai_tasks.py:314-367 | A manual retry leaves at most one task in flight exactly when none was in flight |
| TaskRuns.LateRequeueKeepsOneIff | backend/app/workers/ai_tasks.py:858-892 | So does the late failure of a worker that requeues a task which was settled meanwhile |
| TaskRows.RunIsProtocolRun | backend/app/workers/ai_tasks.py:440-920 | Every run in which requests, cancels, recoveries, retries and workers interleave step by step on any number of task rows, late outcomes included, is a run of the task protocol |
| TaskRows.AtMostOneRowInFlight | backend/app/repositories/ai_tasks.py:117-136 | Without manual retry, and if no row is recovered from a started worker that may still requeue it, at most one row is pending or running in every such interleaving |
| TaskRows.RecoveryKeepsOneIff | backend/app/services/ai_tasks.py:440-481 | From any table such runs reach, a recovery keeps at most one row in flight over every later such run if and only if no started worker of the row may still requeue it |
| TaskRows.TwoInFlightWithoutRetry | backend/app/workers/ai_tasks.py:858-892 | Request, claim, start, recover, request again, late retryable failure: two tasks are in flight without a manual retry |
| TaskRuns.UniqueIndexNeverFires | backend/app/models/ai_task.py:94-105 | A creator's key never makes two tasks, so the unique index on tasks is never violated |
| Questions.ValidateOutline | backend/app/services/interview_ai_validation.py:221-258 | An outline is accepted exactly when orders run 1..N, keys are known, resume evidence is given exactly for that source, and normalised texts are distinct |
| Questions.OutlineAcceptedIff | backend/app/services/interview_ai_validation.py:217-258 | An outline is accepted exactly with 1 to 30 questions ordered from 1, keys of the snapshot, resume evidence exactly if it rests on the resume, and no two alike but for case and white space |
| Questions.StripRedundant | backend/app/services/interview_ai_validation.py:217-218 | Stripping before removing white space changes nothing |
| Questions.SpacingMakesNoNewQuestion | backend/app/services/interview_ai_validation.py:251-258 | Two questions that differ only in white space are never accepted together |
| Questions.RunsKeep | backend/app/services/interview_questions.py:835-1178 | Every run of generations, edits, confirmations and status moves keeps the invariant and only appends versions |
| Questions.CurrentIsNewest | backend/app/services/interview_questions.py:888-918 | In every reachable state versions are numbered 1..n, the current one has the largest number, a task made at most one version, and READY rests on a confirm, by the actor on record, of exactly the current version |
| Questions.ReplayedEditReturnsItsOwn | backend/app/services/interview_questions.py:992-1028 | Whatever happened in between, replaying an edit changes nothing and answers with exactly the version it made, or is refused because the round can no longer change |
| Questions.NoLostEdit | backend/app/services/interview_questions.py:1030-1031 | Of two edits made from the same version under different keys the second is refused |
| Questions.PersistEffect | backend/app/services/interview_questions.py:835-943 | Persisting a task without a version succeeds exactly for an accepted outline and appends one current version that holds it under the data of its task |
| Questions.PersistedForGood | backend/app/services/interview_questions.py:843-856 | In every later run that version holds the same outline, and persisting the task again answers with it |
| Questions.EditEffect | backend/app/services/interview_questions.py:964-1100 | An edit under an unused key succeeds exactly on an open round, from the current version, with an accepted outline, and appends a version that holds it |
| Questions.ConfirmEffect | backend/app/services/interview_questions.py:1104-1200 | A confirm succeeds exactly on an open round for the current version, and marks the set ready for the actor |
| QuestionService.Service.PersistGenerationResult | backend/app/services/interview_questions.py:835-943 | In place: a task already persisted answers with its version; an accepted outline becomes the current version and takes the set back to DRAFT |
| QuestionService.Service.CreateManualVersion | backend/app/services/interview_questions.py:964-1101 | In place: a replay answers with the version after the expected one; an accepted outline on the expected current version becomes current, keeps the frozen inputs and takes the set back to DRAFT |
| QuestionService.Service.ConfirmQuestionSet | backend/app/services/interview_questions.py:1104-1178 | In place: confirming the expected current version makes the set READY under the actor's name; a replay only answers |
| RoundAnalysis.CollectIncluded | backend/app/services/interview_analyses.py:469-481 | The loop collects the included segments with non-empty stripped text in order |
| RoundAnalysis.SegmentsFromRefs | backend/app/services/interview_analyses.py:585-634 | The loop loads every reference through all checks and enforces the size limit |
| RoundAnalysis.Service.PersistResult | backend/app/services/interview_analyses.py:946-1091 | In place: a task already persisted answers with its version; otherwise a sealed snapshot that loads and an output that validates against it become the current version with its rows |
| AnalysisEffects.FreezeSucceedsIff | backend/app/services/interview_analyses.py:674-750 | A request can be frozen exactly if the round was completed with a confirmed transcript, its dimensions pass, and the included texts have at most 120000 characters |
| AnalysisEffects.FrozenInputShows | backend/app/services/interview_analyses.py:416-438 | The frozen input names round, transcript and confirmed version, holds the snapshot, and refers to each included segment by id, number and text hash |
| AnalysisEffects.SnapshotPassesIff | backend/app/services/interview_analyses.py:521-582 | A stored snapshot is used exactly if it has references and its hash is that of its input |
| AnalysisEffects.LoadRefIff | backend/app/services/interview_analyses.py:585-634 | A reference loads exactly the segment of its id, if that is included and bears its number and text hash |
| AnalysisEffects.StaleIff | backend/app/services/interview_analyses.py:441-447 | An analysis is stale unless its transcript version is the confirmed one |
| AnalysisEffects.PersistEffect | backend/app/services/interview_analyses.py:946-1091 | Persisting a task without a version succeeds exactly if the output is accepted against the frozen dimensions and segments; the new current version holds the output |
| AnalysisHistory.RefsLoadBack | backend/app/services/interview_analyses.py:729-746 | References taken of the included segments lead back to exactly those segments |
| AnalysisHistory.FreezeLoadRoundTrip | backend/app/services/interview_analyses.py:521-634 | At the request and in every later reachable state the stored snapshot passes its hash check and loads the same segments and texts in the same order |
| AnalysisHistory.LoadedIsWhatWasFrozen | backend/app/services/interview_analyses.py:585-634 | Whatever the round, references that load yield the frozen ids, numbers and texts |
| AnalysisHistory.NothingIncludedNeverHappens | backend/app/services/interview_analyses.py:723-725 | In no reachable state does a request fail for lack of included segments |
| AnalysisHistory.PersistKeeps | backend/app/services/interview_analyses.py:946-1091 | Every stored version is legal and numbered, made once per task, and becomes current under an unused id |
| Coverage.CoveredIff | backend/app/services/comprehensive_analyses.py:237-317 | A round is covered exactly when it is completed with a confirmed transcript and its current analysis was made from the version confirmed now |
| Coverage.BuildCoverageReport | backend/app/services/comprehensive_analyses.py:320-369 | The loop splits the rounds into included ones and gaps and fills the counters |
| Coverage.SplitKeepsOrder | backend/app/services/comprehensive_analyses.py:327-354 | The split keeps the order: each round stands at the position given by the rounds of its kind before it |
| Coverage.ReportAddsUp | backend/app/services/comprehensive_analyses.py:356-369 | Missing rounds are exactly the gaps, and coverage is insufficient exactly when there is a gap |
| Coverage.ReportShowsRound | backend/app/services/comprehensive_analyses.py:327-354 | The report shows each included round with its current version and score and each gap with its status and reason |
| Coverage.BuildRoundRef | backend/app/services/comprehensive_analyses.py:197-234 | The loops copy dimensions and evidence pointers of the current version into the reference |
| Coverage.RefShowsVersion | backend/app/services/comprehensive_analyses.py:197-234 | A reference holds id, number and overall score of the current version, one dimension per row with its key, name, weight and score, insufficient exactly if unscored, and every evidence reference in order |
| Coverage.RefsKeepOrder | backend/app/services/comprehensive_analyses.py:487-499 | The references are those of the covered rounds in the order of the rounds |
| Coverage.IsComprehensiveVersionStale | backend/app/services/comprehensive_analyses.py:372-403 | The loop finds a version stale exactly when it has no references or some reference is no longer the current, non-stale analysis of its round |
| Coverage.FrozenRefsAreFresh | backend/app/services/comprehensive_analyses.py:487-499 | References frozen and checked in the same state are stale only if there are none |
| Hiring.Service.CreateHiringDecision | backend/app/services/hiring_decisions.py:168-307 | In place: a known key answers with its row; a decision under the current lock, on an open interviewing application, with a fitting reason and a current non-stale analysis appends a row and moves the application |
| Hiring.DecideEffect | backend/app/services/hiring_decisions.py:180-260 | A call adds at most one row; a new row records kind, reason, actor and key, raises the lock version by one, leaves a recommendation pending offer, a rejection closed and a hold interviewing, and cites a current, non-stale analysis; a known key changes nothing |
| Hiring.DecideSucceedsIff | backend/app/services/hiring_decisions.py:139-226 | A decision under an unused key goes through exactly under the current lock, on an open interviewing application, with one of the listed reason and kind pairs, citing a current non-stale version |
| Hiring.ScreeningEffect | backend/app/services/resumes.py:1265-1345 | A screening passes exactly under the current lock on an open application not yet rejected, pooled or recommended, and moves and closes it as its choice says |
| Hiring.EmptyKeyIsNoReplay | backend/app/services/hiring_decisions.py:180-187 | A second decision under an empty key is refused instead of replayed |
| Hiring.LogStaysInShape | backend/app/services/hiring_decisions.py:192-199 | Over every run with atomic screenings the log is holds followed by at most one final decision, rows fit their decision, keys are used once, and rows stay |
| Hiring.FinalIsFinal | backend/app/services/hiring_decisions.py:192-199 | After a final decision no row is ever added |
| Hiring.ReplayedDecision | backend/app/services/hiring_decisions.py:180-187 | A keyed decision replayed at any later time with any payload answers with its own row and changes nothing |
| HiringRaces.ScreeningAtOnceIsAtomic | backend/app/services/resumes.py:1265-1345 | A screening whose write directly follows its read is the atomic move of the main results; a column set to the value read is not written |
| HiringRaces.EveryInterleavingKeepsRows | backend/app/services/hiring_decisions.py:180-260 | However decisions interleave with unlocked reads and late writes, rows stay as written, fit their decisions and use no key twice |
| HiringRaces.SecondFinalReachableIff | backend/app/services/resumes.py:1265-1345 | From a log closed by a final decision, with any writes under way, some interleaving over the application rounds as they are reaches a second final row exactly when there is an analysis to cite, the application is in progress, and its pipeline is undecided or some write under way will set a waiting or interviewing status it did not read |
| HiringRaces.RecommendationIsFinalIff | backend/app/services/resumes.py:1265-1345 | A recommendation is final in every continuation over the same rounds if and only if no such write is under way when it is made, and then it is final whatever becomes of the rounds |
| HiringRaces.RejectionIsFinal | backend/app/services/hiring_decisions.py:254-260 | A rejection is final in every interleaving, late writes included |
| HiringRaces.GuardedRunsKeepShape | backend/app/services/hiring_decisions.py:192-199 | Every interleaved run in which no recommendation is made beside such a write keeps the log holds followed by at most one final decision |
| HiringRaces.LateScreeningReopens | backend/app/services/resumes.py:1265-1345 | Hold read while interviewing, recommendation, hold written, interview entered again: a second recommendation then goes through |
| Application.ComprehensiveService.RequestGeneration | backend/app/services/comprehensive_analyses.py:510-673 | In place: only for an open interviewing application with an included round, freezes report and references and asks the task protocol |
| Application.ComprehensiveService.PersistResult | backend/app/services/comprehensive_analyses.py:687-792 | In place: a task already persisted answers with its version; otherwise a non-blank summary is stored with the frozen references as the current version |
| ApplicationEffects.ComprehensiveRequestEffect | backend/app/services/comprehensive_analyses.py:510-673 | A request is refused on a closed or not interviewing application and without a covered round; else it makes or shares a task whose input is the report and the references |
| ApplicationEffects.StoreEffect | backend/app/services/comprehensive_analyses.py:687-792 | Storing succeeds exactly for a summary that is not blank; the new current version holds summary and score as sent, references and report as frozen |
| ApplicationEffects.StoredForGood | backend/app/services/comprehensive_analyses.py:687-792 | A stored version stays as it is in every later state of a run |
| ApplicationEffects.InsufficientMeansExplained | backend/app/services/comprehensive_analyses.py:197-234 | In every reachable state a covered round would freeze a dimension as insufficient exactly if its row carries an explanation |
| ApplicationEffects.AnalysisRequestEffect | backend/app/services/interview_analyses.py:674-847 | A request that can be frozen makes, under an unused key with nothing in flight, a task of exactly the frozen input |
| ApplicationEffects.AnalysisStoreEffect | backend/app/services/interview_analyses.py:946-1091 | An output is stored exactly if it is accepted against the confirmed version its task was frozen from |
| ApplicationEffects.DecisionEffect | backend/app/services/hiring_decisions.py:180-260 | A decision changes the board only, and takes an id exactly if it adds a row that records the call |
| ApplicationHistory.RoundStepKeeps | backend/app/services/interview_analyses.py:946-1091 | Every step on a round keeps its transcript, its analyses and its frozen tasks consistent, and moves both current pointers only to unused ids |
| ApplicationHistory.RunsKeep | backend/app/services/comprehensive_analyses.py:510-792 | Every run of an application keeps its invariant and only moves forward |
| ApplicationTheorems.RoundStalenessIsPermanent | backend/app/services/interview_analyses.py:441-447 | A stale round analysis stays stale in every later state |
| ApplicationTheorems.SupersededStaysSuperseded | backend/app/services/interview_analyses.py:1088 | A superseded round analysis never becomes current again |
| ApplicationTheorems.ComprehensiveStalenessIsPermanent | backend/app/services/comprehensive_analyses.py:372-403 | A stale comprehensive version stays stale in every later state |
| ApplicationTheorems.FreshIffStillCovered | backend/app/services/comprehensive_analyses.py:237-403 | In every reachable state a comprehensive version is not stale exactly when every round it references is still covered with the same analysis version |
| ApplicationTheorems.FreshRoundsAreReported | backend/app/services/comprehensive_analyses.py:320-369 | The coverage report lists each round of a non-stale version as included with that version, and not as a gap |
| ApplicationTheorems.GapReasonsExplained | backend/app/services/comprehensive_analyses.py:237-317 | In every reachable state each gap reason says exactly one thing about its round, and an unconfirmed transcript is never the reason for a completed one |
| ApplicationTheorems.StoredAtOnceIsFresh | backend/app/services/comprehensive_analyses.py:687-763 | An output stored right after its request is not stale |
| ApplicationTheorems.FrozenInputsAlwaysLoad | backend/app/services/interview_analyses.py:892-943 | The frozen input of every task loads in every reachable state |
| ApplicationTheorems.StoredRowsAreLegal | backend/app/models/interview_ai.py:405-438 | Every stored analysis meets the table constraints, its evidence quotes contiguous pieces of included segments of the confirmed version it was made from, and its overall score is that of its rows |
| ApplicationTheorems.DecisionsCiteCoveredRounds | backend/app/services/hiring_decisions.py:204-231 | A hiring decision is only added while the analysis it cites belongs to a round that the coverage report includes |
| ApplicationTasks.AtMostOneInFlight | backend/app/repositories/ai_tasks.py:117-136 | Over every run in which no manual retry and no late outcome puts a task back in the queue, each round has at most one analysis task in flight and the application at most one comprehensive task |
| ApplicationTasks.ReplayedRequest | backend/app/services/interview_analyses.py:753-784 | In every reachable state a replayed analysis request changes nothing and succeeds exactly when the round still freezes to the stored input |
| AiTask.EveryInterleaving | backend/app/services/ai_tasks.py:314-509 | Under every interleaving attempts are numbered 1..n with the count naming the last, and neither count nor retry cycle falls |
| AiTask.OutcomeEffect | backend/app/workers/ai_tasks.py:670-920 | What each outcome leaves on a task and attempt: succeeded, failed, invalid, or pending again after a retryable error with fewer than three attempts |
| AiTask.ServiceWrites | backend/app/services/ai_tasks.py:314-509 | A cancel takes a pending task, a retry a failed or invalid one, a recovery a running one untouched for five minutes |
| AiTask.WorkerWrites | backend/app/workers/ai_tasks.py:588-637 | A claim takes a pending task only; a start adds the next attempt whatever the status |
| AiTask.SettledStaysIff | backend/app/workers/ai_tasks.py:448-475 | The status of a task that is neither pending nor running stays until a manual retry if and only if no worker is left that started while the task ran: the ownership check reads what the worker session remembers |
| AiTask.FinalStaysIff | backend/app/workers/ai_tasks.py:448-475 | Succeeded and cancelled are final, retries included, if and only if no such worker is left |
| AiTask.FinalBeforeRecovery | backend/app/workers/ai_tasks.py:670-920 | A task that succeeds or is cancelled before any recovery stays so for good |
| AiTask.SuccessOverwritesCancelled | backend/app/workers/ai_tasks.py:797-826 | Claim, start, recover, retry, cancel, and the first worker finishes: its success is written over the cancellation |
| AiTask.RetryCycleCounts | backend/app/services/ai_tasks.py:330-334 | retry_cycle_no counts exactly the manual retries that went through |
| AiTask.RecoveryStopsAttempts | backend/app/services/ai_tasks.py:449-481 | At the moment of a stale recovery the task is failed and no attempt is running |
| AiTask.RecoveredStaysQuietIff | backend/app/workers/ai_tasks.py:588-920 | Until it is retried, a recovered task keeps no running attempt if and only if no worker stood between its claim and its start and no started one may still requeue it; it stays failed if and only if no worker is left that started while it ran |
| AiTask.OneOwnerUntilRecovery | backend/app/workers/ai_tasks.py:588-637 | Until a recovery happened there is at most one worker, which remembers the task as it is; at most one attempt is running, never beside a claimed worker, and a retry cycle uses at most three attempts |
| AiTask.FirstRecoverySafeIff | backend/app/services/ai_tasks.py:440-481 | A first recovery that finds a running attempt leaves the task failed and quiet until a retry if and only if the worker of that attempt is gone |
| AiTask.RecoveryBetweenClaimAndStart | backend/app/workers/ai_tasks.py:590-637 | Claim, recovery and start in this order leave a running attempt on a failed task |
| AiTask.Row.RetryTask | backend/app/services/ai_tasks.py:321-342 | Only failed or invalid tasks go back to pending, in a new cycle |
| AiTask.Row.CancelClaim | backend/app/services/ai_tasks.py:384-398 | The conditional update cancels exactly a pending task |
| AiTask.Row.RecoverClaim | backend/app/services/ai_tasks.py:449-481 | The conditional update fails exactly a running task that is unchanged and old enough, with all its running attempts |
| AiTask.Row.StartAttempt | backend/app/workers/ai_tasks.py:603-637 | The second worker transaction numbers and adds an attempt without looking at the status, and remembers status and cycle count |
| AiTask.Row.FinishAttempt | backend/app/workers/ai_tasks.py:670-920 | The third worker transaction judges by the remembered status and cycle count and writes its outcome whatever the row has become |

## Left out

- Permissions, actor assignments, masking and audit records: guards and logging that touch no state modelled here.
- Sessions beyond what a worker and a late screening remember of the rows they loaded; commits, rollbacks, pagination, read-only listings and views.
- Encryption, tokens, object storage, queues and the calls to the AI provider: a worker is a claim, a start, a finish and the persist functions.
- Decoding and parsing of an imported file: its outcome is a parameter of the import.
- Loading of jobs, job versions and resumes: what they yield, or that they are missing, is a parameter.
- Pydantic field limits on lengths and enumerations, except non-empty segment lists, time ranges and the question count, which are modelled as checks.
- Parsing of a stored snapshot's JSON shape: snapshots are typed values, of which the missing references and the hash are checked.
- Sorting of segments by number on reading: segments are kept in the order of their numbers, which is proved to be 1..n.
- Floats and the decimal context: numbers are exact reals, so `round` on floats and `Numeric(5,2)` storage of weights are not modelled.
- Unicode case folding of question texts: a parameter of the duplicate check.
- Integrity errors of the database: the unique indexes of versions, tasks, keys and analysis rows are proved never to be violated by these steps, except an empty hiring key, whose conflict is modelled.
- Hiring.Decide: an analysis of another application and an unknown one are one error, because only one application is in view.
- Coverage.CurrentVersion: looks a version up in its own round, where the code looks in a dictionary of all the application's versions by primary key.
- Questions.ValidateOutline: checks duplicates in a second loop, where the code does so in the first; the same outlines are accepted.
- Reordering of rounds and sequence numbers chosen by the caller: a new round takes the number after the largest one and keeps it.
- Creation, scheduling and deletion of rounds beyond their status moves, and job-side and resume-side AI tasks.
- The forbidden-key scan of comprehensive snapshots: references are typed and have no such field.
- Strings of closed catalogues are datatypes: a reason code outside its catalogue is the value `Unlisted`, and a decision kind is one of the three the request schema admits.
- Error messages, and which of several errors an analysis output is refused with.
