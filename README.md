# AI Smart Resume Evaluation backend: the analysis core, modelled in Dafny

This project models the part of the backend that evaluates resumes with a
generative model:

- **The analysis service**, `backend/services/analysisService.js`. It keeps three
  in-memory tables:
  - a 24-hour result cache keyed by the SHA-256 digest of the prompt;
  - the calls in flight, so that one prompt is sent to the model once at a time;
  - a per-user hourly quota of 50 charged calls.
  The service validates its input and builds the analysis and job-description
  match prompts. It calls the model up to three times, with exponential back-off
  after retryable failures. It digs JSON out of the model's free-form answer, and
  it can drop a resume's cached analysis.
- **The resume controller**, `analyzeResume` and `deleteResume`. Analysing a
  resume first looks in the database for a stored analysis of the same text. It
  then reuses an analysis of the same text from another of the user's uploads,
  deleting analyses whose resume no longer exists. Only after that does it ask
  the service, and it stores the result as a new analysis record. Deleting a
  resume cascades to its analyses, its match history and the cache.
- **The job-description controller**, `analyzeJD` and `deleteJDMatchHistory`.
  Matching a resume against a job description is keyed on the digest of the
  resume text followed by the job description. A match already stored under
  that key is returned; otherwise the service is asked and one history entry is
  created.
- **The error middleware**: `AppError`, `errorHandler` and `notFound`.

The modules are:

- `Text`: JavaScript's `\s`, `trim`, `indexOf`, UTF-16 `length` and decimal
  interpolation.
- `Json`: `JSON.parse` values and falsiness.
- `Hashing`, `ServiceErrors`, `Sanitizer` (`parseAIResponse`), `Retry`
  (`executeAICall`) and `Prompts`.
- `AnalysisService`: a `Service` class whose fields are the three tables. Each
  method is proved equal to a transition function on a `State` value, and the
  properties are lemmas about those functions.
- `Store`: the three MongoDB collections as a `Database` class over sequences.
- `Http`: the response bodies.
- `ResumeController`, `JdMatchController` and `ErrorHandler`.

Every handler is a method on the `Database` and `Service` objects. Each is
proved equal to a function of the old state, and the promises of the source are
lemmas about those functions.

The outside world becomes parameters:

- The clock is an integer `now`, plus `done` for the moment a call ends.
- The model provider is a function from attempt number to reply.
- `JSON.parse` is a function from text to an optional JSON value.
- SHA-256 is an ideal fingerprint: distinct texts have distinct digests.
- The promise of a call in flight is modelled by the provider replies of that
  call. A call that starts records them in the in-flight table under the
  prompt's digest. A caller who joins receives what is recorded there, and its
  outcome is the run on those replies, whatever provider it brought itself.

## Model

| member | source | states |
|---|---|---|
| `Text.Trim` | backend/services/analysisService.js:411 | the result is the input without its leading and trailing `\s` characters: a contiguous slice, with only spaces around it and no space at either end; it is empty exactly when the input is all spaces |
| `Text.TrimIdempotent` | backend/services/analysisService.js:100 | trimming an already trimmed text changes nothing |
| `Text.IndexOf` | backend/services/analysisService.js:146 | the result is the first position at or after `from` where the pattern occurs, and it is absent only when the pattern occurs nowhere there |
| `Text.ExcludesWithoutFirstChar` | backend/services/analysisService.js:146 | a text without the pattern's first character does not include the pattern |
| `Text.Utf16Length` | backend/services/analysisService.js:411 | the length in UTF-16 code units is between the number of characters and twice it, and equals it when every character is in the Basic Multilingual Plane |
| `Text.NatText` | backend/services/analysisService.js:71-74 | the decimal text of a natural number is a non-empty string of digits with no leading zero |
| `Text.NatTextRoundTrip` | backend/services/analysisService.js:74 | reading the decimal text back gives the number |
| `Text.DecimalText` | backend/services/analysisService.js:74 | the decimal text of an integer is non-empty and starts with `-` exactly when the integer is negative |
| `ServiceErrors.NoErrorIsTemporarilyUnavailable` | backend/controllers/resumeController.js:145-147 | no error the service throws carries the code `AI_TEMPORARILY_UNAVAILABLE` that the controllers test for |
| `Sanitizer.FenceSpan` | backend/services/analysisService.js:92-93 | a fenced block is found at the first occurrence of its opener: the captured body is preceded and followed only by spaces, has no space at either end, and ends at the first closing fence after it; none is found only when the opener is absent or no closing fence follows it |
| `Sanitizer.FenceBodyIsTrimmed` | backend/services/analysisService.js:92-100 | trimming a captured body changes nothing |
| `Sanitizer.ReplaceNbsp` | backend/services/analysisService.js:104 | every non-breaking space becomes a space; every other character and the length are kept |
| `Sanitizer.CollapseNewlines` | backend/services/analysisService.js:105 | the definition of the pass: each maximal run of CR/LF becomes one space. It has no contract of its own; the three lemmas below state what it does |
| `Sanitizer.CollapseNewlinesCharacters` | backend/services/analysisService.js:105 | the result holds no CR or LF, and every character other than a space comes from the input |
| `Sanitizer.CollapseKeepsPrefix` | backend/services/analysisService.js:105 | text without line breaks is kept, in order, in front of the collapsed rest; with an empty rest such text is unchanged |
| `Sanitizer.CollapseRun` | backend/services/analysisService.js:105 | a maximal run of CR/LF after text without line breaks becomes exactly one space, and the text after the run is collapsed in turn |
| `Sanitizer.TrailingCommaAt` | backend/services/analysisService.js:106 | a match is a comma followed, after spaces only, by `}` or `]`; no match means one of these fails |
| `Sanitizer.DropCommasFrom` | backend/services/analysisService.js:106 | the pass only deletes commas and spaces: the input is the result with commas and spaces inserted, and the result is no longer than the input |
| `Sanitizer.DropCommasShortensIffMatch` | backend/services/analysisService.js:106 | the pass deletes something exactly when `,\s*([}\]])` matches somewhere in the text |
| `Sanitizer.DropCommasWithoutMatch` | backend/services/analysisService.js:106 | without a match the text is returned unchanged |
| `Sanitizer.TrailingCommaDropped` | backend/services/analysisService.js:106 | `[1,]` is cleaned to `[1]` |
| `Sanitizer.BareKeyAtMatches` | backend/services/analysisService.js:107 | a key match is exactly a match of `([{,]\s*)(\w+)(\s*:)` at that position, with greedy `\s*` and `\w+`, in both directions |
| `Sanitizer.QuoteKeysFrom` | backend/services/analysisService.js:107 | the pass only inserts double quotes: the result is the input with quotes inserted, and no shorter than it |
| `Sanitizer.QuoteKeysLengthensIffMatch` | backend/services/analysisService.js:107 | the pass inserts something exactly when `([{,]\s*)(\w+)(\s*:)` matches somewhere in the text |
| `Sanitizer.QuoteKeysWithoutMatch` | backend/services/analysisService.js:107 | without a match the text is returned unchanged |
| `Sanitizer.BareKeyQuoted` | backend/services/analysisService.js:107 | `{a:1}` is cleaned to `{"a":1}` |
| `Sanitizer.RawCandidate` | backend/services/analysisService.js:92-98 | the definition of the candidate: the body of a ```` ```json ```` fence, else of a plain fence, else the whole answer. It has no contract of its own; `FenceSpan`, `FenceBodyIsTrimmed` and `ParseAIResponse` state what it yields |
| `Sanitizer.Normalize` | backend/services/analysisService.js:103-107 | the definition of the four cleaning passes, in the source's order. It has no contract of its own; `NormalizedHasNoNbspOrLineBreak` and the lemmas of each pass state what it does |
| `Sanitizer.NormalizedHasNoNbspOrLineBreak` | backend/services/analysisService.js:103-107 | after the four cleaning passes no non-breaking space, CR or LF remains |
| `Sanitizer.ParseAIResponse` | backend/services/analysisService.js:90-116 | the result is "no valid JSON found" exactly when the captured candidate is empty; otherwise it is the parser's value on the trimmed, cleaned candidate, or "failed to parse" when the parser rejects it |
| `Sanitizer.EmptyCandidateIsAnError` | backend/services/analysisService.js:96-98 | an empty candidate fails before the parser is consulted |
| `Sanitizer.ParseMessagesHaveNoFour` | backend/services/analysisService.js:97 | neither parse error message contains the digit 4, so neither can read as a 429 |
| `Sanitizer.DoubleCommaKeepsOne` | backend/services/analysisService.js:106 | `[1,,]` is cleaned to `[1,]`: only the comma next to the bracket goes |
| `Sanitizer.QuotingEntersStringValues` | backend/services/analysisService.js:107 | the key pass also rewrites inside string values: `",b:"` becomes `","b":"` |
| `Retry.AttemptResult` | backend/services/analysisService.js:127-140 | the definition of one attempt: a raised error, a blank answer, or the parsed answer. It has no contract of its own; `BlankAnswerNotRetried` and `UnparsableAnswerNotRetried` state its failures |
| `Retry.IsRetryable` | backend/services/analysisService.js:143-146 | the definition of a retryable failure: status 429, 503 or at least 500, or "429" in the message. It has no contract of its own; `NotRetryableWithoutFour`, `ParseMessageNotRetryable` and `QuotaMessageWithoutStatus` state its consequences |
| `Retry.Backoff` | backend/services/analysisService.js:149 | the definition of the wait after attempt i: 1000·2^(i-1) ms. It has no contract of its own; `ExecutionCharacterized` and `TwoOverloadsThenSuccess` state the waits |
| `Retry.RunFrom` | backend/services/analysisService.js:124-172 | the definition of the loop from one attempt on. It has no contract of its own; `ExecutionCharacterized`, `RateLimitedIffLast429` and `RunFromFailsWithCallError` state what it does |
| `Retry.Execution` | backend/services/analysisService.js:121-173 | the definition of a whole run of `executeAICall`, from attempt 1 with no waits. It has no contract of its own; the lemmas about `RunFrom` and the method `ExecuteAICall` state what it does |
| `Retry.RunFromFailsWithCallError` | backend/services/analysisService.js:162-172 | a run that fails ends with `AI_RATE_LIMITED` or `AI_SERVICE_ERROR` and no other error |
| `Retry.FinalError` | backend/services/analysisService.js:162-172 | the error after the last attempt is `AI_RATE_LIMITED` exactly when the last failure had status 429, and `AI_SERVICE_ERROR` otherwise |
| `Retry.ExecuteAICall` | backend/services/analysisService.js:121-173 | the loop's outcome, number of calls and waits are those of the reference run `Execution` |
| `Retry.ExecutionCharacterized` | backend/services/analysisService.js:125-157 | a run makes between one and three calls and stops at the first attempt that succeeds, fails without being retryable, or is the third; its outcome is that attempt's value or the error derived from it; it waits 1000·2^(i) ms before call i+2 |
| `Retry.RateLimitedIffLast429` | backend/services/analysisService.js:162-167 | a run fails with `AI_RATE_LIMITED` exactly when its last attempt failed with status 429 |
| `Retry.BlankAnswerNotRetried` | backend/services/analysisService.js:135-136 | a blank answer is not retried: one call, then `AI_SERVICE_ERROR` |
| `Retry.UnparsableAnswerNotRetried` | backend/services/analysisService.js:139-155 | an answer the parser rejects is not retried: one call, then `AI_SERVICE_ERROR` |
| `Retry.NotRetryableWithoutFour` | backend/services/analysisService.js:143-146 | a failure without a status whose message has no digit 4 is not retryable |
| `Retry.ParseMessageNotRetryable` | backend/services/analysisService.js:143-146 | a parse failure is never retryable |
| `Retry.TwoOverloadsThenSuccess` | backend/services/analysisService.js:143-152 | two 503s, whatever their messages, and then a good answer give the value after three calls and waits of 1000 ms and 2000 ms |
| `Retry.QuotaMessageWithoutStatus` | backend/services/analysisService.js:146 | "429" only in the message is retried to the end, and the run still ends as `AI_SERVICE_ERROR`, not `AI_RATE_LIMITED` |
| `Hashing.GenerateHash` | backend/services/analysisService.js:51 | the definition of the digest as an ideal fingerprint. It has no contract of its own; `MatchKeyIsConcatenation` and `AnalysisAndMatchPromptsDiffer` state what the keys separate |
| `Prompts.CreateAnalysisPrompt` | backend/services/analysisService.js:227-350 | the definition of the analysis prompt: its head, the resume, its tail. It has no contract of its own; the lemmas below state what it determines |
| `Prompts.CreateJDMatchPrompt` | backend/services/analysisService.js:355-403 | the definition of the match prompt: its head, the resume, the delimiter, the job description, its tail. It has no contract of its own; the lemmas below state what it determines |
| `Prompts.AnalysisPromptRoundTrip` | backend/services/analysisService.js:227-350 | the resume text can be read back out of its analysis prompt |
| `Prompts.AnalysisPromptInjective` | backend/services/analysisService.js:227-350 | distinct resumes give distinct analysis prompts |
| `Prompts.MatchPromptRoundTrip` | backend/services/analysisService.js:355-403 | given the resume, the job description can be read back out of the match prompt |
| `Prompts.MatchPromptInjectiveInJobDescription` | backend/services/analysisService.js:355-403 | for one resume, distinct job descriptions give distinct match prompts |
| `Prompts.MatchPromptAmbiguousAcrossResumes` | backend/services/analysisService.js:369-377 | a resume that contains the job-description delimiter renders the same prompt as a different resume and job description pair |
| `Prompts.AnalysisAndMatchPromptsDiffer` | backend/services/analysisService.js:228 | no analysis prompt equals a match prompt, so the two never share a cache key |
| `AnalysisService.CeilDiv` | backend/services/analysisService.js:71 | `Math.ceil(x / y)`: the least integer q with x ≤ q·y |
| `AnalysisService.Refreshed` | backend/services/analysisService.js:57-68 | the definition of the user's quota entry after the refresh. It has no contract of its own; `RefreshedWindow` states what it is |
| `AnalysisService.QuotaVerdict` | backend/services/analysisService.js:70-76 | the quota check throws exactly when the count has reached 50, and then with `AI_LIMIT_REACHED` |
| `AnalysisService.Incremented` | backend/services/analysisService.js:82-85 | the charged user's count goes up by one if the user has an entry; every other entry and the set of users are unchanged |
| `AnalysisService.RefreshedWindow` | backend/services/analysisService.js:57-68 | after the refresh the window ends within the hour and has not ended; a new or expired entry restarts at zero, and an open one is kept as it is |
| `AnalysisService.WaitHintWithinHour` | backend/services/analysisService.js:71-74 | the minutes in the "try again" message are between 0 and 60 |
| `AnalysisService.TooShort` | backend/services/analysisService.js:411 | the definition of "missing, or shorter than the minimum once trimmed", with the length in UTF-16 code units. It has no contract of its own; `SimpleInputError` and `MatchInputError` state when it refuses |
| `AnalysisService.SimpleInputError` | backend/services/analysisService.js:410-416 | a resume whose trimmed length is under 100 is refused with the "too short or empty" message, and only such a resume |
| `AnalysisService.MatchInputError` | backend/services/analysisService.js:425-438 | the resume is checked first (under 100), then the job description (under 50), each with its own message; input passes exactly when both are long enough |
| `AnalysisService.SimpleAnalysis` | backend/services/analysisService.js:410-420 | the definition of `performSimpleAnalysis`: validation, then `Served` for the analysis prompt. It has no contract of its own; `ValidationComesFirst` and the lemmas about `Admit` and `Settled` state what it does |
| `AnalysisService.MatchAnalysis` | backend/services/analysisService.js:425-442 | the definition of `performJDMatchAnalysis`: validation, then `Served` for the match prompt. It has no contract of its own; `ValidationComesFirst` and the lemmas about `Admit` and `Settled` state what it does |
| `AnalysisService.ValidationComesFirst` | backend/services/analysisService.js:410-442 | input that fails validation is refused before the quota is consulted; nothing changes |
| `AnalysisService.Admit` | backend/services/analysisService.js:180-212 | the definition of the synchronous part of a request: quota check, cache lookup with eviction, then join or start. It has no contract of its own; `RejectedIffAtLimit`, `CacheHitIsFree`, `StaleEntryEvicted`, `JoinStartsNothing`, `StartedIff` and `AdmitKeepsCoherent` state what it does |
| `AnalysisService.Settled` | backend/services/analysisService.js:201-218 | the definition of the end of a call. It has no contract of its own; `SettleReleasesAndChargesOnce` and `SettleKeepsCoherent` state what it does |
| `AnalysisService.Resolve` | backend/services/analysisService.js:195-216 | the definition of awaiting an answer: a ready value, a failure, or the run of the promise recorded for a call in flight. It has no contract of its own; `JoinerSharesTheStartersOutcome` states that a joiner's awaited promise yields the starter's outcome |
| `AnalysisService.Served` | backend/services/analysisService.js:178-219 | the definition of a whole request: `Admit`, then the provider call, then `Settled` for a started call. It has no contract of its own; `AnsweredPromptIsCached`, `JoinerSharesTheStartersOutcome` and `QuotaOvershootUnderConcurrency` state what it does |
| `AnalysisService.Cleared` | backend/services/analysisService.js:447-457 | the definition of the cache after `clearAnalysisCache`. It has no contract of its own; `ClearEvictsOnlyTheAnalysis` and `ClearKeepsMatchEntries` state what it does |
| `AnalysisService.RejectedIffAtLimit` | backend/services/analysisService.js:56-77 | a request is refused exactly when the refreshed count has reached the limit; then only the quota entry changes, and the error is `AI_LIMIT_REACHED` |
| `AnalysisService.CacheHitIsFree` | backend/services/analysisService.js:183-190 | an entry younger than 24 hours is returned without a model call; cache and in-flight table are unchanged and nothing is charged |
| `AnalysisService.StaleEntryEvicted` | backend/services/analysisService.js:185-192 | an entry 24 hours old or older is deleted, and the request joins or starts a call |
| `AnalysisService.JoinStartsNothing` | backend/services/analysisService.js:195-198 | a request for a prompt already in flight gets the promise recorded for that call, not one of its own; it starts nothing and charges nothing |
| `AnalysisService.StartedIff` | backend/services/analysisService.js:180-212 | a call starts exactly when the quota allows, no fresh entry exists and no call for the prompt is in flight; the promise of the new call, its provider replies, is then recorded in the in-flight table under the prompt's digest |
| `AnalysisService.SettleReleasesAndChargesOnce` | backend/services/analysisService.js:201-218 | when a call ends, its digest leaves the in-flight table; on success the value is cached with the end time and the starter alone is charged once; on failure the cache and the quota are unchanged |
| `AnalysisService.InitialCoherent` | backend/services/analysisService.js:27-29 | the empty tables are coherent: nothing both cached and in flight, and every quota window ends within the hour |
| `AnalysisService.CoherentLater` | backend/services/analysisService.js:57 | coherence survives the passing of time |
| `AnalysisService.AdmitKeepsCoherent` | backend/services/analysisService.js:180-212 | the synchronous part of a request keeps the tables coherent |
| `AnalysisService.SettleKeepsCoherent` | backend/services/analysisService.js:201-218 | the end of a call keeps the tables coherent |
| `AnalysisService.ClearKeepsCoherent` | backend/services/analysisService.js:447-457 | clearing a cache entry keeps the tables coherent |
| `AnalysisService.WaitHintWithinHourWhenCoherent` | backend/services/analysisService.js:70-76 | in coherent tables the wait a refused request is told is between 0 and 60 minutes |
| `AnalysisService.AnsweredPromptIsCached` | backend/services/analysisService.js:185-205 | once a call has produced a value, the same prompt from any user within 24 hours of the call's end is answered from the cache with that value |
| `AnalysisService.JoinerSharesTheStartersOutcome` | backend/services/analysisService.js:195-218 | a second request for a prompt whose call is in flight joins it: it receives the promise the start recorded, the in-flight table does not change and the second request is not charged. Whatever provider the second request brings, its answer, resolved from the state after the join, is exactly the starter's outcome, and any failure is `AI_RATE_LIMITED` or `AI_SERVICE_ERROR`. When the call ends its digest leaves the table, only the starter is charged, and only on success |
| `AnalysisService.QuotaOvershootUnderConcurrency` | backend/services/analysisService.js:180-206 | the quota is charged when a call ends, so a user at 49 who starts two different prompts before either ends is charged to 51 |
| `AnalysisService.ClearEvictsOnlyTheAnalysis` | backend/services/analysisService.js:447-457 | clearing drops the resume's analysis entry and nothing else, and does nothing for an empty text |
| `AnalysisService.ClearKeepsMatchEntries` | backend/services/analysisService.js:447-457 | clearing a resume's cache never drops a job-description match entry |
| `AnalysisService.Service.constructor` | backend/services/analysisService.js:27-29 | the three tables start empty |
| `AnalysisService.Service.CheckRateLimits` | backend/services/analysisService.js:56-77 | the user's entry is created or refreshed, the error is the quota verdict on it, and the other tables are untouched |
| `AnalysisService.Service.IncrementRateLimits` | backend/services/analysisService.js:82-85 | the quota table becomes `Incremented` of the old one; the other tables are untouched |
| `AnalysisService.Service.Begin` | backend/services/analysisService.js:180-212 | the tables and the admission are those of `Admit` on the old tables: a started call records its promise, and a joining call receives the recorded one |
| `AnalysisService.Service.Settle` | backend/services/analysisService.js:204-217 | the tables become `Settled` of the old ones |
| `AnalysisService.Service.GetAnalysisFromAI` | backend/services/analysisService.js:178-219 | the tables and the answer are those of the reference request `Served` |
| `AnalysisService.Service.PerformSimpleAnalysis` | backend/services/analysisService.js:410-420 | the tables and the answer are those of `SimpleAnalysis`: validation, then the request for the analysis prompt |
| `AnalysisService.Service.PerformJDMatchAnalysis` | backend/services/analysisService.js:425-442 | the tables and the answer are those of `MatchAnalysis`: validation, then the request for the match prompt |
| `AnalysisService.Service.ClearAnalysisCache` | backend/services/analysisService.js:447-457 | the cache becomes `Cleared` of the old one; the other tables are untouched |
| `Store.Storable` | backend/models/ResumeAnalysis.js:19-22 | the definition of what a required `Mixed` path accepts: any value except `null`. It has no contract of its own; `ResumeController.FinishAddsOneRecord` states that a `null` analysis is answered with 500 and stores nothing, and `JdMatchController.MissCreatesOneEntry` that a `null` match result ends in the validation error for `analysisData` |
| `Store.Drop` | backend/controllers/resumeController.js:233-239 | a deletion keeps exactly the documents the filter does not select |
| `Store.DropIds` | backend/controllers/resumeController.js:112 | deleting analyses one id after another keeps exactly those whose id is not among the ids |
| `Store.FindFirst` | backend/controllers/resumeController.js:58 | `findOne`/`findById`: the document found is in the collection and is selected by the filter, and none is found only when the filter selects no document |
| `Store.FindResume` | backend/controllers/resumeController.js:58 | the resume found has the id, and none is found only when no resume has it |
| `Store.FindAnalysis` | backend/controllers/resumeController.js:72 | the analysis found is for the resume and the digest, and none is found only when no such analysis exists |
| `Store.FindMatch` | backend/controllers/jdMatchController.js:39 | the history entry found is for the resume and the key, and none is found only when no such entry exists |
| `Store.FindMatchById` | backend/controllers/jdMatchController.js:101 | the history entry found has the id, and none is found only when no entry has it |
| `Store.Candidates` | backend/controllers/resumeController.js:95 | the candidates are exactly the user's analyses of this digest |
| `Store.CandidatesNewestFirst` | backend/controllers/resumeController.js:95 | when documents were created in time order, the candidates come newest first |
| `Store.WithSnapshot` | backend/controllers/resumeController.js:129-132 | only the resume with the id gets the new analysis snapshot; the others and the order are kept |
| `Store.SnapshotKeepsIds` | backend/controllers/resumeController.js:80-83 | saving a snapshot changes no resume's id |
| `Store.Database.constructor` | backend/controllers/resumeController.js:58 | the database holds the given collections |
| `ResumeController.Caught` | backend/controllers/resumeController.js:140-149 | the definition of the `catch` block by the thrown code. It has no contract of its own; `ServiceErrorStatus` states its answers |
| `ResumeController.ServiceErrorStatus` | backend/controllers/resumeController.js:140-149 | a quota error is answered 429 with its own message, never 503, and every other error is answered 500 with the generic message |
| `ResumeController.FirstLiveCharacterized` | backend/controllers/resumeController.js:99-114 | the scan stops at the first candidate whose resume still exists, and every candidate before it is an orphan |
| `ResumeController.Scan` | backend/controllers/resumeController.js:95-114 | the definition of the scan over the user's other analyses of the same text. It has no contract of its own; `FirstLiveCharacterized`, `ScanDeletesOnlyScannedOrphans` and the method `ScanCandidates` state what it does |
| `ResumeController.Saved` | backend/controllers/resumeController.js:119-149 | the definition of the request once a result is obtained or has failed: the `catch` block, the refusal of a `null` result, or the record created and the result sent. It has no contract of its own; `FinishAddsOneRecord` and `ServiceErrorStatus` state what it does |
| `ResumeController.Finish` | backend/controllers/resumeController.js:116-149 | the definition of the rest of the request after the scan. It has no contract of its own; `ServiceOnlyWithoutLiveResult`, `OneRecordPerAnalysis` and `FinishAddsOneRecord` state what it does |
| `ResumeController.Analysis` | backend/controllers/resumeController.js:56-150 | the definition of a whole `analyzeResume` request. It has no contract of its own; `AccessCheckedFirst`, `DirectHitAnswersFromStore`, `ServiceOnlyWithoutLiveResult` and `OneRecordPerAnalysis` state what it does |
| `ResumeController.Deletion` | backend/controllers/resumeController.js:207-250 | the definition of a whole `deleteResume` request. It has no contract of its own; `DeleteCascades` and `DeleteAccessCheckedFirst` state what it does |
| `ResumeController.AccessCheckedFirst` | backend/controllers/resumeController.js:60-66 | a missing resume gives 404 and another user's resume 401, before anything else and with nothing changed |
| `ResumeController.DirectHitAnswersFromStore` | backend/controllers/resumeController.js:72-90 | a stored analysis of this resume's text is returned with 200; the service is not consulted and no analysis is created |
| `ResumeController.ServiceOnlyWithoutLiveResult` | backend/controllers/resumeController.js:95-119 | the service is asked exactly when the scan found no reusable result, or a falsy one |
| `ResumeController.OneRecordPerAnalysis` | backend/controllers/resumeController.js:116-149 | a 200 after a miss adds exactly one analysis record for this user, resume and digest. The record holds the returned result, which is the newest live candidate's result when that is truthy and otherwise the value the service's answer resolves to. Any other status adds none, and a failed service answer is answered by the `catch` block |
| `ResumeController.FinishAddsOneRecord` | backend/controllers/resumeController.js:116-149 | after the scan, success appends exactly one record and advances the id counter. The record and the response hold the scan's result when truthy, and otherwise the value the service's answer resolves to. Failure leaves the database as it is: a failed service answer is answered by the `catch` block, and a `null` one with 500 |
| `ResumeController.ScanDeletesOnlyScannedOrphans` | backend/controllers/resumeController.js:99-114 | the scan deletes exactly the orphaned candidates it passed before the first live one; the resumes, the match history and the id counter are untouched |
| `ResumeController.DeleteCascades` | backend/controllers/resumeController.js:227-244 | deleting an owned resume removes it with all its analyses and match entries, keeps every other document, clears its cached analysis, and answers 200 |
| `ResumeController.DeleteAccessCheckedFirst` | backend/controllers/resumeController.js:211-217 | a missing resume gives 404 and another user's resume 401, with nothing deleted |
| `ResumeController.ScanCandidates` | backend/controllers/resumeController.js:99-114 | the loop returns the first live candidate's result, or none, and has deleted exactly the candidates before it |
| `ResumeController.AnalyzeResume` | backend/controllers/resumeController.js:56-150 | the database, the service tables and the response are those of the reference request `Analysis` |
| `ResumeController.Complete` | backend/controllers/resumeController.js:116-149 | the database, the service tables and the response are those of `Finish` |
| `ResumeController.Save` | backend/controllers/resumeController.js:119-149 | the database and the response are those of `Saved` on the old database |
| `ResumeController.DeleteResume` | backend/controllers/resumeController.js:207-250 | the database, the cache and the response are those of `Deletion`; the in-flight table and the quota are untouched |
| `ErrorHandler.AppStatus` | backend/middleware/errorHandler.js:7 | the status is "fail" or "error" |
| `ErrorHandler.AppStatusFailIffLeadingFour` | backend/middleware/errorHandler.js:7 | the status is "fail" exactly when the code's decimal text starts with 4 |
| `ErrorHandler.AppStatusOfHttpCodes` | backend/middleware/errorHandler.js:7 | codes 400 to 499 are "fail" and 500 to 599 are "error" |
| `ErrorHandler.Join` | backend/middleware/errorHandler.js:37-38 | no messages join to the empty text and one message to itself |
| `ErrorHandler.AppErrorFields` | backend/middleware/errorHandler.js:3-12 | the definition of the fields of a new `AppError`. It has no contract of its own; `AppErrorKeepsItsCode` and `ErrorObject.App` state what they are |
| `ErrorHandler.Handled` | backend/middleware/errorHandler.js:15-50 | the definition of the error object after the handler's rewrites, in the source's order. It has no contract of its own; `RespondMatchesClassification` states the outcome |
| `ErrorHandler.Respond` | backend/middleware/errorHandler.js:14-58 | the definition of the response the handler sends. It has no contract of its own; `RespondMatchesClassification`, `PlainErrorIs500` and `AppErrorKeepsItsCode` state what it is |
| `ErrorHandler.Classified` | backend/middleware/errorHandler.js:26-50 | an independent definition of the handler's decision, as a priority table read from the highest priority down. It has no contract of its own; `RespondMatchesClassification` proves that `Respond` agrees with it |
| `ErrorHandler.RespondMatchesClassification` | backend/middleware/errorHandler.js:14-58 | the response's code and message are those of the priority table (token expired, bad token, validation, duplicate key, cast, own code or 500); its status is the error's own or "error"; it never reports success |
| `ErrorHandler.RemappedClientErrorKeepsErrorStatus` | backend/middleware/errorHandler.js:16-29 | a cast error is answered 404 but keeps the status "error" |
| `ErrorHandler.PlainErrorIs500` | backend/middleware/errorHandler.js:15-16 | an error with no code, no status and no recognised name is answered 500 "error" with its own message |
| `ErrorHandler.AppErrorKeepsItsCode` | backend/middleware/errorHandler.js:3-12 | an application error is answered with its own code, status and message |
| `ErrorHandler.ErrorObject.constructor` | backend/middleware/errorHandler.js:14 | an error object holds the given fields and is not operational |
| `ErrorHandler.ErrorObject.App` | backend/middleware/errorHandler.js:4-9 | an application error holds its message, its code and the status derived from the code, and is operational |
| `ErrorHandler.HandleError` | backend/middleware/errorHandler.js:14-58 | the error's fields are rewritten as `Handled`, its `isOperational` flag is kept, and the response is `Respond` of the original fields |
| `ErrorHandler.NotFound` | backend/middleware/errorHandler.js:61-64 | a new application error "Not Found - " + URL with code 404 |
| `ErrorHandler.UnknownRouteAnswers404` | backend/middleware/errorHandler.js:61-64 | an unknown route is answered 404 "fail" with the URL in the message |
| `JdMatchController.Delivered` | backend/controllers/jdMatchController.js:14 | the definition of what the client receives: a sent response as it is, and an error thrown inside `asyncHandler` as `errorHandler` answers it. It has no contract of its own; `StatusSetBeforeThrowIsLost`, `ThrownStatusReachesClient`, `RefusalDelivered` and `MatchFailureStatus` state what it yields |
| `JdMatchController.ThrowAfterSettingStatus` | backend/controllers/jdMatchController.js:21-22 | as written, the thrown error carries the message but no status code |
| `JdMatchController.ThrowWithStatus` | backend/controllers/jdMatchController.js:21-22 | corrected, the thrown error carries the status code the handler chose and the message |
| `JdMatchController.StatusSetBeforeThrowIsLost` | backend/controllers/jdMatchController.js:20-23 | as written, whatever status the handler sets before throwing, the client receives 500 |
| `JdMatchController.ThrownStatusReachesClient` | backend/controllers/jdMatchController.js:20-23 | an error that carries its status reaches the client with that status |
| `JdMatchController.Refuse` | backend/controllers/jdMatchController.js:20-23 | a refusal keeps its message; it carries the chosen status only when corrected, and no status as written |
| `JdMatchController.RefusalDelivered` | backend/controllers/jdMatchController.js:20-23 | a refusal with a 4xx status reaches the client as 500 "error" as written, and with that status and "fail" corrected, always with its message |
| `JdMatchController.MatchFailure` | backend/controllers/jdMatchController.js:69-79 | the definition of the `catch` block: a quota error is refused with 429, the unavailable code with 503, and anything else is rethrown. It has no contract of its own; `MatchFailureStatus` states what the client receives |
| `JdMatchController.MatchFailureStatus` | backend/controllers/jdMatchController.js:69-79 | every service error reaches the client with its own message. As written each one is 500 "error"; corrected, a quota error is 429 "fail" and every other one is 500 "error". None becomes 503 |
| `JdMatchController.MatchKey` | backend/controllers/jdMatchController.js:36 | the definition of the key: the digest of the resume text followed directly by the job description. It has no contract of its own; the two lemmas below state what it separates |
| `JdMatchController.MatchKeyIsConcatenation` | backend/controllers/jdMatchController.js:36 | two resume and job-description pairs share a key exactly when their concatenations are equal |
| `JdMatchController.MatchKeyInjectiveForOneResume` | backend/controllers/jdMatchController.js:36 | for one resume, distinct job descriptions have distinct keys |
| `JdMatchController.MatchRequest` | backend/controllers/jdMatchController.js:14-80 | the definition of a whole `analyzeJD` request, for either way of refusing. It has no contract of its own; the lemmas below state what it does |
| `JdMatchController.Matched` | backend/controllers/jdMatchController.js:51-79 | the definition of the request after a key miss: the service call, then `Recorded`. It has no contract of its own; `MissCreatesOneEntry` states what it does |
| `JdMatchController.Recorded` | backend/controllers/jdMatchController.js:55-79 | the definition of the request once the service has answered. It has no contract of its own; `MissCreatesOneEntry` and `MatchFailureStatus` state what it does |
| `JdMatchController.MissingOrForeignResumeRefused` | backend/controllers/jdMatchController.js:19-23 | a missing resume and another user's resume are refused alike, with nothing changed; the client receives 500 "error" as written and 404 "fail" corrected |
| `JdMatchController.JobDescription` | backend/controllers/jdMatchController.js:25-28 | the definition of the job description used: the uploaded file's text when there is a file, the body's `jdText` otherwise. It has no contract of its own; `FileReplacesBodyText` states what it does |
| `JdMatchController.Blank` | backend/controllers/jdMatchController.js:30 | the definition of a missing or all-space job description. It has no contract of its own; `BlankJobDescriptionRefused` and `StoredMatchReturned` state what it decides |
| `JdMatchController.FileReplacesBodyText` | backend/controllers/jdMatchController.js:25-28 | with an uploaded file, the job-description text in the body has no effect |
| `JdMatchController.BlankJobDescriptionRefused` | backend/controllers/jdMatchController.js:30-33 | a missing or all-space job description is refused before any lookup, with nothing changed; the client receives 500 "error" as written and 400 "fail" corrected |
| `JdMatchController.StoredMatchReturned` | backend/controllers/jdMatchController.js:39-49 | an entry stored under the key is returned with 200; the service is not asked and nothing is created |
| `JdMatchController.MissCreatesOneEntry` | backend/controllers/jdMatchController.js:51-79 | a created entry is the only one added. It is for this user and resume, under the key, titled "Analysis vs " + the file name, and it holds the value the service's answer resolves to; it is what is sent with 201. A thrown error adds none: a failed service answer goes to the `catch` block, and a `null` one ends in the validation error for `analysisData` |
| `JdMatchController.AnalyzeJD` | backend/controllers/jdMatchController.js:14-80 | the database, the service tables and the outcome are those of the reference request `MatchRequest` as written, on the old state |
| `JdMatchController.CreateEntry` | backend/controllers/jdMatchController.js:51-79 | the database, the service tables and the outcome are those of `Matched` as written |
| `JdMatchController.Record` | backend/controllers/jdMatchController.js:55-79 | the database and the outcome are those of `Recorded` as written |
| `JdMatchController.HistoryDeletion` | backend/controllers/jdMatchController.js:99-110 | the definition of a whole `deleteJDMatchHistory` request, for either way of refusing. It has no contract of its own; `HistoryDeletionOwnership` states what it does |
| `JdMatchController.HistoryDeletionOwnership` | backend/controllers/jdMatchController.js:99-110 | a missing entry and another user's entry are refused alike, with nothing changed; the client receives 500 "error" as written and 404 "fail" corrected. Otherwise exactly the entry with that id is deleted, and 200 is sent |
| `JdMatchController.DeleteJDMatchHistory` | backend/controllers/jdMatchController.js:99-110 | the database and the outcome are those of `HistoryDeletion` as written |

## Left out

- Logging, the artificial two-second delays, the `development` stack trace in
  error bodies, and `getServiceStatus` are left out. They change nothing the
  client sees apart from timing.
- The model provider, SHA-256, `JSON.parse` and the clock are not implemented;
  each is a parameter. The digest is an ideal fingerprint, so hash collisions
  are not modelled.
- The prompt templates keep their opening words, the headings before each
  embedded text and the `---` delimiters. The rubric and JSON layout prose is
  shortened to a placeholder line. The properties proved depend only on the
  parts kept.
- `getAnalysisFromAI` reads the clock twice: once in the quota check and once
  for the cache age. The model uses one `now` for both.
- The asynchronous interleaving is reduced to two steps: the synchronous
  admission (`Begin`/`Admit`) and the end of a call (`Settle`/`Settled`). The
  handlers run them back to back. A caller that joins a call in flight
  receives the replies recorded for that call and resolves to their run; its
  own provider is not used. `JoinerSharesTheStartersOutcome` proves that a
  joiner admitted after a start resolves to the starter's outcome. The
  in-flight call is not interleaved with other requests between its start and
  its end.
- The ordering of the call's own `cache.set`/`incrementRateLimits` against the
  caller's `finally` block is not modelled. Both happen in `Settled`.
- `analyzeResume` stores the analysis object in `resume.analysis` and then
  sets `analyzedAt` on it. That object is shared with the cached result. The
  model records the snapshot as a separate value, so the aliasing and the
  primitive-result cases are not modelled.
- An id that is not a valid ObjectId, which makes Mongoose throw a CastError,
  is not modelled. Ids are natural numbers and the database never fails.
- Document ids are unique and come from one counter. `createdAt` ties between
  documents are resolved by insertion order.
- `parseAIResponse` passes on whatever value `JSON.parse` returns, without
  checking that it is an object. So does the model.
- The upload path, file reading for job descriptions (the file's text is a
  parameter), `uploadResume`, `getResumeHistory`, `getResumeDetails`,
  `downloadResume`, `getJDMatchHistory`, authentication and validators are
  outside this model.
- `deleteJDMatchHistory` is modelled as a handler. No route in
  `backend/routes` mounts it, so no client can reach it.
- `ExecuteAICall` returns the waits it would perform rather than sleeping.
- The service never throws `AI_TEMPORARILY_UNAVAILABLE`. The
  controllers' branches for it are modelled, and their 503 answers are proved
  unreachable.

## Findings

| source | as written | input that shows it | evidently intended | confidence | as-written member | corrected member |
|---|---|---|---|---|---|---|
| backend/controllers/jdMatchController.js:20-23 | The handler sets `res.status(404)` and then throws a plain `Error`. `errorHandler` answers with the error's own `statusCode`, or 500 when it has none, ignoring the status already set. The 400 at lines 31-32, the 429 and 503 at lines 71-76, and the 404 of `deleteJDMatchHistory` at lines 103-106 go the same way. | `POST /api/resumes/:resumeId/jd-match` with a `jdText` of at least 50 characters and a well-formed ObjectId that matches no resume: the client receives 500 "error". The validation rules at backend/middleware/validators.js:61-66 answer a `jdText` shorter than 50 characters after trimming with 400 first, and a malformed id raises a `CastError`, which backend/middleware/errorHandler.js:26-29 answers with 404. A blank job description reaches line 30 only with such a `jdText` and an uploaded file whose text is blank | the client receives 404 (400, 429) with status "fail", as an `AppError` carrying the code would give | not executed | `JdMatchController.ThrowAfterSettingStatus` (`JdMatchController.StatusSetBeforeThrowIsLost`; `Refuse(AsWritten, …)`, used by `AnalyzeJD` and `DeleteJDMatchHistory`) | `JdMatchController.ThrowWithStatus` (`JdMatchController.ThrownStatusReachesClient`, `JdMatchController.RefusalDelivered`; `Refuse(Corrected, …)`, stated in `MissingOrForeignResumeRefused`, `BlankJobDescriptionRefused`, `MatchFailureStatus` and `HistoryDeletionOwnership`) |
