# Verified model of the resumable AI scan pipeline

A Dafny model of the part of the accessibility scanner that must not lose work, repeat work or invent
results: the command-line pipeline in `tools/ai-scan-cli/src`, which drives an unreliable external
model from state kept in files and may be killed at any moment. Two smaller transformations, of typed-in
URLs and of batch reports, are modelled beside it.

`dafny verify dfyconfig.toml` checks everything.

## How it is built

* **JSON.** `JsonGrammar` is RFC 8259 as trees and their texts; `JsonParser` is `JSON.parse` as a parser
  proved sound and complete for it; `JsonValue` gives values and `JSON.stringify(v, null, 2)`.
  `BraceScanner` and `FencedJson` are the two ways of finding JSON in a messy reply, and `ResultParser`
  what is made of it. The lemma that a proper prefix of an object text never closes serves twice: the
  scanner stops in the right place, and a torn file never parses.
* **Disk.** `Disk` has the files as a map from path to text, three operations, and what a crash or an
  error can leave of each. A write can stop anywhere. `FileSystem` logs its operations, so the methods of
  the managers (`Cache`, `Checkpoint`, `ScanCheckpoint`) and of `BatchProcessor` are proved to carry out
  exactly the operations that the crash analysis talks about.
* **Oracle.** The model's replies, the clock and the fate of every file operation are parameters: a
  session takes an environment that decides all of them, and the theorems hold for every environment.
* **Runs.** `BatchProcessor.Session` gives the events of a session (file operations and accepted
  replies). `CrashSafety` says what the disk may hold and which steps keep it so; `Runs` concludes over
  every sequence of start-ups and sessions, each of any scan, page and level, with a crash at, or in the
  middle of, any operation. The invariant is a *ledger*: the checkpoint of a scan is the record of a list
  of replies heard for that scan, in order of completion, one per batch; and the cache, which all scans
  share, holds replies to the pages its keys name. `Coverage` says what a session
  returns, and `PageCoverage` for which page.
* **Outcomes.** `RetryOutcomes`, `BatchOutcomes` and `MiniOutcomes` say what a request, a batch and a run
  come to in terms of what the outside did alone: which launches failed and with which words, which
  downloads and attempts succeeded, what the reply said.
* **Lock** is a step system over any number of processes and one lock file.
* `Criteria`, `Retry`, `BatchOrganizer`, `MiniBatches`, `MiniBatchProcessor`, `Directory`, `ManualUrls`
  and `BatchReport` follow the files they are named after; `Sequences`, `Ascii` and `Wrappers` are shared.

## What the code does that its documentation does not say

* `has` and `get` of the cache disagree on a file that is JSON but has no usable expiry
  (`Cache.HasAgreesIff`, `Cache.HasDisagrees`); no run of the program leaves such a file.
* `cleanup` deletes a live entry if reading it fails once (`Cache.CleanupInvisibleIff`).
* A scan with an empty URL never resumes: its checkpoint is saved but never accepted
  (`Checkpoint.CheckpointRoundTrip`, `Runs.CheckpointOfEveryRun`).
* A checkpoint is found by scan id alone. A scan that is resumed on a page that has changed, or at another
  level, skips batches that were verified on the other page and drops them from its results
  (`PageCoverage.OtherPageIsSkipped`). Coverage holds for the page at hand exactly as long as the sessions
  of a scan find no other (`PageCoverage.PageConditionIsExact`, `PageCoverage.CoveredForThisPage`).
* A checkpoint that cannot be read once counts as none, and the session overwrites it with an empty one.
  Apart from the removal at the end of a scan, that is the one way to lose recorded progress (`Runs.OpeningResetsIff`, `Runs.EpisodesOnlyAdd`).
* The branch that reports an invalid structure after brace matching is never taken
  (`ResultParser.BracesAlwaysParse`).
* Clearing a scan checkpoint whose file is missing leaves the one in memory
  (`ScanCheckpoint.CheckpointManager.ClearCheckpoint`).
* A resumed run returns only the batches it processed; those of the checkpoint are not in its results,
  and the checkpoint is removed. Coverage is therefore stated as checkpoint plus results
  (`Coverage.EveryBatchOnce`).
* A reply that is an object without the array, or no object at all, is not retried, but one with an
  empty array is, because of the words in the messages (`Retry.IsJsonParseError`).
* A launch that throws is retried like a rate limit, and reported as exhausted rate limits
  (`RetryOutcomes.RateLimitExhaustedIff`).
* The lock needs three assumptions, each shown to be needed by a run that breaks it: one takeover at a
  time, no lock older than 24 hours being judged, and no process that ends, after releasing its lock,
  while another is between reading and checking that lock. A process that dies, or whose write fails,
  while it writes the file blocks the lock until someone removes it by hand (`Lock.TornWriteSticks`,
  `Lock.LeftLockIsTakenIff`).
* In directory mode a file without scans counts as failed but not as processed, and an error while
  writing the failed scans leaves the results written but the totals unchanged
  (`Directory.DirectoryBalances`).
* The level filter, sort and chunk loop exist twice, in `criteria-batch-processor.ts:373-481` and
  `prompt-generator.ts:671-788`, with the same statements. `Criteria` follows the first; what it says holds
  for the second word for word.

## Model

| member | source | states |
|---|---|---|
| JsonParser.IsJsonIffDerived | tools/ai-scan-cli/src/result-parser.ts:770 | The parser standing for `JSON.parse` accepts a text if and only if RFC 8259 derives it (sections 2 to 7): white space, one value, white space. |
| JsonParser.ParseJsonOf | tools/ai-scan-cli/src/result-parser.ts:770 | It accepts every text of a well-formed tree between white space, and gives back exactly that tree. |
| JsonValue.NumeralMeans | tools/ai-scan-cli/src/result-parser.ts:770 | A numeral denotes its whole part plus its fraction, with its sign, times ten to its exponent (section 6 of RFC 8259). |
| JsonValue.EscapeMeans | tools/ai-scan-cli/src/result-parser.ts:770 | A four-digit escape denotes the code unit of its hexadecimal digits (section 7 of RFC 8259). |
| BraceScanner.ExtractJsonByBraceMatching | tools/ai-scan-cli/src/result-parser.ts:171-219 | The loop over `depth`, `inString` and `escapeNext` returns what the specification says: the first candidate that returns to depth 0, if it is JSON. Continuing after a bad candidate never changes the answer. |
| BraceScanner.ObjectCloses | tools/ai-scan-cli/src/result-parser.ts:187-205 | For any object text, whatever its strings hold, the scanner started behind the first brace closes exactly at its end and leaves the continuation untouched. |
| BraceScanner.PrefixStaysOpen | tools/ai-scan-cli/src/result-parser.ts:187-205 | No proper non-empty prefix of an object text ever returns to depth 0. |
| BraceScanner.TornObjectIsNotJson | tools/ai-scan-cli/src/criteria-verification-cache.ts:287-289 | What a torn write leaves of an object text (a proper prefix, possibly with a replacement character for a cut multi-byte character) is never JSON. |
| BraceScanner.FirstCandidateDecides | tools/ai-scan-cli/src/result-parser.ts:200-214 | If the first balanced candidate is not JSON, no longer text from the same brace is. |
| BraceScanner.LaterCandidatesFail | tools/ai-scan-cli/src/result-parser.ts:210-213 | So every later candidate that "keep looking" tries fails as well. |
| BraceScanner.ExtractionIff | tools/ai-scan-cli/src/result-parser.ts:171-219 | Exactly which text is extracted: the one from the first brace of the reply to the first return to depth 0, and only if it is an object text. |
| BraceScanner.ExtractionComplete | tools/ai-scan-cli/src/result-parser.ts:171-219 | Brace-free prefix + object text + any suffix: exactly the object text is returned. |
| BraceScanner.ExtractionSound | tools/ai-scan-cli/src/result-parser.ts:171-219 | Whatever is returned is an object text that begins at the first brace of the reply. |
| FencedJson.JsonHoldsNoFence | tools/ai-scan-cli/src/result-parser.ts:110-116 | A newline followed by a code fence never lies inside JSON (section 7 of RFC 8259 forbids raw newlines in strings). |
| FencedJson.JsonBlockOfWrapped | tools/ai-scan-cli/src/result-parser.ts:104-123 | The json-block strategy finds the wrapped object if and only if the suffix has no newline followed by a fence. |
| FencedJson.FencedRoundTrip | tools/ai-scan-cli/src/result-parser.ts:104-123 | A fenced object text is extracted exactly, however many fences its strings hold, behind any prefix without a json block of its own. |
| FencedJson.FencedIff | tools/ai-scan-cli/src/result-parser.ts:104-136 | With both strategies: behind a fence-free prefix the object is found if and only if the suffix has no newline followed by a fence. |
| FencedJson.RecoverWrapped | tools/ai-scan-cli/src/result-parser.ts:766-801 | Over all strategies together a reply with one json fence parses to the fenced object whatever follows it. |
| FencedJson.RecoverFenced | tools/ai-scan-cli/src/result-parser.ts:766-801 | The same behind any prefix, braces and generic fences included, that opens no json block, when the suffix is clean. |
| FencedJson.RecoverPlainFence | tools/ai-scan-cli/src/result-parser.ts:126-136 | An object in a fence without a language is recovered behind any text without a fence, braces included, if its own strings hold no fence and no later line opens with one. |
| FencedJson.RecoverProse | tools/ai-scan-cli/src/result-parser.ts:766-801 | An object behind brace-free prose is recovered whatever the prose after it says, when the reply has no fence. |
| FencedJson.RecoverBare | tools/ai-scan-cli/src/result-parser.ts:770 | A bare value between white space is its own reply. |
| ResultParser.NormalizeMeans | tools/ai-scan-cli/src/result-parser.ts:369-493 | An entry is kept if and only if it has a non-empty id and a status in one of the five spellings, and then under that id and the status so spelled; confidence is the nearest integer (70 for anything outside 0..100), reasoning the given text, related ids the strings among the given ones, in order. |
| ResultParser.ParseCriteriaVerifications | tools/ai-scan-cli/src/result-parser.ts:521-536 | The loop computes the specification of the image of the valid entries. |
| ResultParser.NormalizeAllIsImage | tools/ai-scan-cli/src/result-parser.ts:521-536 | The result is the order-preserving image of exactly the valid entries: each valid entry once, nothing else. |
| ResultParser.ParseErrorIff | tools/ai-scan-cli/src/result-parser.ts:797-816 | Exactly which of its three errors the parser gives: no JSON recovered; a value that is neither object nor array; an array, or an object whose property is no array. |
| ResultParser.NormalizeStored | tools/ai-scan-cli/src/result-parser.ts:461-493 | Normalising is idempotent: a normalised verification, stored as the program stores it, normalises to itself. |
| ResultParser.NormalizeAllStored | tools/ai-scan-cli/src/result-parser.ts:521-536 | The same for whole arrays. |
| ResultParser.BatchRoundTrip | tools/ai-scan-cli/src/result-parser.ts:766-823 | Serialising any list of normalised verifications as a reply and parsing that reply gives the list back. |
| ResultParser.ReparseIsIdempotent | tools/ai-scan-cli/src/result-parser.ts:766-823 | In particular for what any reply parsed to. |
| ResultParser.FencedReplyParsesAlike | tools/ai-scan-cli/src/result-parser.ts:766-823 | `parseBatchVerificationOutput` of a fenced object text equals that of the object text. |
| JsonValue.StringifyRoundTrip | tools/ai-scan-cli/src/criteria-verification-cache.ts:287 | `JSON.parse(JSON.stringify(v, null, 2))` is `v`, for strings with any characters. |
| Cache.EntryPathInjective | tools/ai-scan-cli/src/criteria-verification-cache.ts:541-544 | Keys with different hash, level or batch number have different file names, decimal printing included. |
| Cache.HasAgreesOverRuns | tools/ai-scan-cli/src/criteria-verification-cache.ts:211-343 | Over every run of writes and cleanups, however each ends, `has` says exactly whether `get` would hit. |
| Cache.HasDisagrees | tools/ai-scan-cli/src/criteria-verification-cache.ts:211-248 | On a file the program never writes, JSON without an expiry, they disagree: `get` hits and `has` denies. |
| Cache.CacheRefines | tools/ai-scan-cli/src/criteria-verification-cache.ts:211-293 | Over any run of writes (complete, refused, or torn anywhere) and cleanups, `get` at time t answers as a timed map: the value last stored for that very key if t is at or before its expiry, else a miss; a torn entry is a miss. |
| Cache.SetStep | tools/ai-scan-cli/src/criteria-verification-cache.ts:265-293 | One write, step by step: what `get` answers afterwards for any key, by how the write ended. |
| Cache.CleanupInvisibleIff | tools/ai-scan-cli/src/criteria-verification-cache.ts:358-404 | At later times `get` answers the same with or without a cleanup, and so does `has`, each if and only if the entry is not a live one whose file the cleanup could delete but not read. |
| Cache.CleanupIff | tools/ai-scan-cli/src/criteria-verification-cache.ts:358-404 | A cleanup removes exactly the entries that a lookup at that time would not return, unless they cannot be deleted; of the other files beside them it leaves only readable ones that have not expired, and it touches nothing else. |
| Cache.StoredIsRemovedIff | tools/ai-scan-cli/src/criteria-verification-cache.ts:275-293 | An entry that was stored outlasts a cleanup that can read and delete it if and only if its days to live have not passed. |
| Cache.TornReads | tools/ai-scan-cli/src/criteria-verification-cache.ts:241-246 | The torn form of any entry reads as unreadable. |
| Cache.CriteriaVerificationCache.constructor | tools/ai-scan-cli/src/criteria-verification-cache.ts:144-157 | A new cache has empty statistics. |
| Cache.CriteriaVerificationCache.GetEntry | tools/ai-scan-cli/src/criteria-verification-cache.ts:211-248 | Answers as specified and keeps the statistics: hits + misses is the number of answers given, hits the number of hits, and the saved tokens the sum over the hits. |
| Cache.CriteriaVerificationCache.SetEntry | tools/ai-scan-cli/src/criteria-verification-cache.ts:265-293 | The file operations of a `set`, for every way its write can end. |
| Cache.CriteriaVerificationCache.Has | tools/ai-scan-cli/src/criteria-verification-cache.ts:328-343 | Answers as specified and changes nothing. |
| Cache.CriteriaVerificationCache.CleanUp | tools/ai-scan-cli/src/criteria-verification-cache.ts:358-404 | The loop over the directory removes exactly the unreadable and the expired entries that can be removed, counts them, and does no other file operation. |
| Checkpoint.CheckpointRoundTrip | tools/ai-scan-cli/src/criteria-checkpoint-manager.ts:168-194 | A saved checkpoint is read back exactly; one with an empty scan id or URL never is. |
| Disk.SaveIsAtomic | tools/ai-scan-cli/src/criteria-checkpoint-manager.ts:286-301 | Whatever interrupts a save, at or inside any file operation, the file is the old one or the complete new one. |
| Disk.SaveApplied | tools/ai-scan-cli/src/criteria-checkpoint-manager.ts:286-301 | A save changes no file but its own and the temporary one; if it fails the checkpoint is unchanged. |
| Disk.FileSystem.SaveAtomically | tools/ai-scan-cli/src/criteria-checkpoint-manager.ts:298-300 | The temporary file is written, then renamed: the operations and their effect, for every failure. |
| Checkpoint.PathsApart | tools/ai-scan-cli/src/criteria-checkpoint-manager.ts:137-139 | Checkpoint, temporary file and cache entries never share a path. |
| Checkpoint.ScansApart | tools/ai-scan-cli/src/criteria-checkpoint-manager.ts:137-139 | Neither do the checkpoints and temporary files of two scans. |
| Checkpoint.IncompleteMeans | tools/ai-scan-cli/src/criteria-checkpoint-manager.ts:520-527 | The incomplete batches are those below the total that are not completed, strictly ascending. |
| Checkpoint.CriteriaCheckpointManager.GetCheckpoint | tools/ai-scan-cli/src/criteria-checkpoint-manager.ts:168-194 | Any failure to read counts as no checkpoint. |
| Checkpoint.CriteriaCheckpointManager.SaveCheckpoint | tools/ai-scan-cli/src/criteria-checkpoint-manager.ts:286-301 | Performs the file operations of an atomic save of the checkpoint with the new time stamp. |
| Checkpoint.CriteriaCheckpointManager.MarkBatchComplete | tools/ai-scan-cli/src/criteria-checkpoint-manager.ts:341-368 | Adds the batch (once, in ascending order), the verifications and the tokens, and saves; without a readable checkpoint nothing happens. |
| Checkpoint.CriteriaCheckpointManager.ClearCheckpoint | tools/ai-scan-cli/src/criteria-checkpoint-manager.ts:469-479 | Removes the file or fails without effect. |
| Checkpoint.CriteriaCheckpointManager.GetIncompleteBatches | tools/ai-scan-cli/src/criteria-checkpoint-manager.ts:520-527 | The loop computes the specified list. |
| Criteria.Compare | tools/ai-scan-cli/src/criteria-batch-processor.ts:420-431 | The comparator computes the comparison of the numeric parts. |
| Criteria.CompareIdsIff | tools/ai-scan-cli/src/criteria-batch-processor.ts:420-431 | It is negative (positive) if and only if the first differing part, missing parts counting as 0, is smaller (greater). |
| Criteria.PartsOfDotted | tools/ai-scan-cli/src/criteria-batch-processor.ts:421-422 | The parts compared are the numbers that the id writes: decimal numbers joined by dots come back as they were. |
| Criteria.CompareIsOrder | tools/ai-scan-cli/src/criteria-batch-processor.ts:420-431 | It is a strict weak order. |
| Criteria.FilterCriteriaByLevel | tools/ai-scan-cli/src/criteria-batch-processor.ts:373-434 | The loop and the sort compute the list of the level, whose members `MembersByRank` names. |
| Criteria.MembersByRank | tools/ai-scan-cli/src/criteria-batch-processor.ts:373-416 | A criterion is in the list of a level if and only if it is in the input and its level has no longer a name than that level (A, AA, AAA), and then as often as in the input. |
| Criteria.LevelsAreCumulative | tools/ai-scan-cli/src/criteria-batch-processor.ts:379-393 | For every input and with no condition: the A list is the AA list's level A part, the AA list the AAA list without level AAA, both in order, and the AAA list has the multiset of the whole input. |
| Criteria.CreateBatches | tools/ai-scan-cli/src/criteria-batch-processor.ts:462-481 | The loop computes the chunks of that list. |
| Criteria.LevelsNest | tools/ai-scan-cli/src/criteria-batch-processor.ts:373-434 | For any two levels of which one ranks no higher: its list is exactly the subsequence of the other's list of that rank. |
| Criteria.BatchesCoverLevel | tools/ai-scan-cli/src/criteria-batch-processor.ts:462-481 | The batches concatenate to the sorted list of the level: every criterion of the level once, ties in input order; none is empty, all are full but the last, and their number is exactly the quotient rounded up. |
| Sequences.SortIsTheStableSort | tools/ai-scan-cli/src/criteria-batch-processor.ts:420-431 | A list is the sorted one if and only if it is sorted and keeps the order of tied elements: `sort` is the only stable sort there is. |
| Sequences.FilterSort | tools/ai-scan-cli/src/criteria-batch-processor.ts:420-431 | Filtering and sorting commute. |
| Sequences.ChunksPartition | tools/ai-scan-cli/src/criteria-batch-processor.ts:470-473 | Chunks concatenate back to the list, none is empty or too long, only the last is short, and there are as many as the quotient rounded up. |
| Sequences.SplitMeans | tools/ai-scan-cli/src/criteria-batch-processor.ts:421-422 | Splitting at separators loses nothing but the separators and leaves none. |
| Sequences.SplitInterleaved | tools/ai-scan-cli/src/criteria-batch-processor.ts:421-422 | Splitting undoes putting any separators between parts that hold none. |
| Sequences.InterleaveSplit | apps/web/src/lib/url-utils.ts:346-347 | Putting the separators back between the pieces gives the text back: it is cut at each of them and nowhere else. |
| Retry.Invoke | tools/ai-scan-cli/src/claude-invoker.ts:64-114 | An invocation returns its last launch, all launches before it having failed; it makes at most M launches and sleeps at most 60000·(2^(M-1) - 1) ms. |
| Retry.InvokeClaudeCode | tools/ai-scan-cli/src/claude-invoker.ts:64-114 | The loop computes it. |
| Retry.Backoff | tools/ai-scan-cli/src/criteria-batch-processor.ts:591-614 | At most (R+1)·M launches, and the closed bound on the sleep; the result, if any, is neither a rate limit nor an exception. |
| Retry.RetryWithBackoff | tools/ai-scan-cli/src/criteria-batch-processor.ts:809-837 | The loop computes the backoff; which launches it retries, and which it does not, `RetryOutcomes` says on their types and messages. |
| Retry.Ask | tools/ai-scan-cli/src/criteria-batch-processor.ts:591-689 | One request makes at most (R+1)·M + J·M launches and sleeps at most 60000·(2^R - 1) + (R+1+J)·60000·(2^(M-1) - 1) ms, for all R, J and M at least 1; an answer is the output of the last launch, as the reader reads it. |
| Retry.AskModel | tools/ai-scan-cli/src/criteria-batch-processor.ts:586-689 | The method with its parse-retry loop computes the request, failure by failure. |
| Retry.BatchBudget | tools/ai-scan-cli/src/criteria-batch-processor.ts:115-138 | With the constants in force: 15 launches and 1,320,000 ms. |
| Retry.BudgetIsTight | tools/ai-scan-cli/src/criteria-batch-processor.ts:591-689 | Both bounds are reached by one concrete sequence of launches. |
| RetryOutcomes.CaughtIff | tools/ai-scan-cli/src/criteria-batch-processor.ts:864-920 | A launch is retried with backoff if and only if it throws, or fails with the type of a rate limit or with one of the four phrases in its message in any case; it counts as a timeout by its type or one of the three phrases. |
| RetryOutcomes.InvokeIs | tools/ai-scan-cli/src/claude-invoker.ts:77-114 | An invocation ends with the first launch that does not fail or the last one allowed, and sleeps exactly the sum of one minute behind a rate limit and five seconds behind any other failure, doubled with every attempt. |
| RetryOutcomes.RateLimitExhaustedIff | tools/ai-scan-cli/src/criteria-batch-processor.ts:591-614 | For all R, J and positive M: a request fails for its rate limit if and only if each of R+1 invocations, one after the other, ends with a rate limit or an exception. |
| RetryOutcomes.AskIs | tools/ai-scan-cli/src/criteria-batch-processor.ts:586-689 | With the constants in force, for every stream of launches: the outcome of a request, its number of launches and its exact sleep, decided by the launches with which its invocations end. Only a reply without JSON or without verifications is asked for again, once. |
| RetryOutcomes.PlainFailureIsFinal | tools/ai-scan-cli/src/criteria-batch-processor.ts:598-635 | Three failures of which the last is no rate limit: exactly three launches, the two delays between them, and the request comes to a timeout or to that very failure. |
| BatchProcessor.ReadReply | tools/ai-scan-cli/src/criteria-batch-processor.ts:638-649 | A reply is accepted only with at least one verification, all of them normalised; `BatchOutcomes.AcceptedIff` and `WholeListIsKept` say exactly when, and that none is lost. |
| BatchProcessor.TokensOfReply | tools/ai-scan-cli/src/criteria-batch-processor.ts:691-695 | The token estimate is the least number whose fourfold covers the characters sent and received. |
| BatchProcessor.Request | tools/ai-scan-cli/src/criteria-batch-processor.ts:562-689 | What a request returns is an accepted reply to that batch which some launch produced. |
| BatchProcessor.CriteriaBatchProcessor.Initialize | tools/ai-scan-cli/src/criteria-batch-processor.ts:247-270 | Start-up deletes what the cleanup of the cache deletes, or nothing if loading the instructions throws. |
| BatchProcessor.CriteriaBatchProcessor.ProcessSingleBatch | tools/ai-scan-cli/src/criteria-batch-processor.ts:517-733 | Cache hit, request, fallback, cache write, checkpoint: the result, the files afterwards and the sequence of file operations are those of the specification, for which `BatchOutcomes` proves that hits are returned, replies returned whole and failures reported. |
| BatchProcessor.CriteriaBatchProcessor.ProcessCriteriaBatches | tools/ai-scan-cli/src/criteria-batch-processor.ts:990-1163 | Opening, the loop over the batches and closing: results, files and operations are those of the specified session, for every outcome of every step. |
| Coverage.ResultsAreIncomplete | tools/ai-scan-cli/src/criteria-batch-processor.ts:1059-1123 | The results of a session are, in order, one per batch that is not skipped. |
| Coverage.EveryBatchOnce | tools/ai-scan-cli/src/criteria-batch-processor.ts:1059-1160 | On every normal return, whatever the page, other scans and earlier sessions left on disk, each batch is either skipped or has exactly one result, never both; results ascend; skipped + processed = total; and the checkpoint file is gone. |
| Coverage.FailuresLeaveNoTrace | tools/ai-scan-cli/src/criteria-batch-processor.ts:767-790 | Every failing path changes neither cache nor checkpoint, and a fallback covers each criterion of the batch once, in order, as NOT_TESTED with no tokens. |
| Coverage.OnlyRepliesAreStored | tools/ai-scan-cli/src/criteria-batch-processor.ts:691-733 | A batch that does anything outside the session heard an accepted reply for this scan, page, level and batch, which some launch said; it stores and returns that reply and does nothing else. |
| Coverage.MarkIsRemembered | tools/ai-scan-cli/src/criteria-checkpoint-manager.ts:341-368 | A mark that can read and save: the checkpoint that loads afterwards is the old one with the batch, its verifications and its tokens added. |
| Coverage.SuccessIsRecorded | tools/ai-scan-cli/src/criteria-batch-processor.ts:707-721 | An accepted reply, when the checkpoint can be read and saved, is in the checkpoint afterwards: exactly that batch, its verifications and its tokens are added. |
| Coverage.SuccessIsCached | tools/ai-scan-cli/src/criteria-batch-processor.ts:698-705 | An accepted reply that is cached is a hit, in any scan of the same page, level and batch, with its verifications until it expires and a miss thereafter, whatever became of the checkpoint. |
| BatchOutcomes.HitIsReturned | tools/ai-scan-cli/src/criteria-batch-processor.ts:535-552 | What one batch stored, any later batch for that page, level and number returns until it expires, with no token, no launch and no file operation, whatever the model would say. |
| BatchOutcomes.HitIff | tools/ai-scan-cli/src/criteria-verification-cache.ts:211-248 | A lookup hits if and only if the file of the key can be read, is JSON with an array of verifications, and has not expired; and it gives that array. |
| BatchOutcomes.EventsIff | tools/ai-scan-cli/src/criteria-batch-processor.ts:535-733 | A batch leaves something behind if and only if nothing was thrown, the lookup misses, there is a prompt and the request ends in an answer; and then it returns that answer. |
| BatchOutcomes.AcceptedIff | tools/ai-scan-cli/src/criteria-batch-processor.ts:638-646 | A reply is accepted if and only if the object recovered from it lists at least one valid entry. |
| BatchOutcomes.WholeListIsKept | tools/ai-scan-cli/src/criteria-batch-processor.ts:638-649 | The verifications of an accepted reply are the normal forms of its valid entries: every one of them, in order, and nothing else. |
| BatchOutcomes.ReplyIsReturned | tools/ai-scan-cli/src/criteria-batch-processor.ts:586-733 | A batch that misses the cache and whose invocations end with a reply that reads as a non-empty list returns the whole list, and stores exactly that reply. |
| BatchOutcomes.SecondReplyIsReturned | tools/ai-scan-cli/src/criteria-batch-processor.ts:651-673 | The same for the reply to the further request, when the first reply has no JSON or no valid entry. |
| BatchOutcomes.ReplyIsReturnedWhole | tools/ai-scan-cli/src/criteria-batch-processor.ts:586-733 | End to end, for every non-empty list of normalised verifications: written down by the model in its first reply, it is what the batch returns. |
| BatchOutcomes.FailuresAreReported | tools/ai-scan-cli/src/criteria-batch-processor.ts:562-689 | A batch that misses the cache reports each of its criteria, in order, as NOT_TESTED with confidence 0 and the reason, if and only if the launches or the prompt give a reason; which reason, and in which words, is decided by the launches with which the invocations end. |
| BatchOutcomes.FailureIsReported | tools/ai-scan-cli/src/criteria-batch-processor.ts:767-790 | The fallback, field by field: id, status, confidence, reasoning and related ids of every criterion, and the single error. |
| BatchOutcomes.CachedBeforeRecorded | tools/ai-scan-cli/src/criteria-batch-processor.ts:697-721 | Wherever the storing of a reply is cut between two operations: if the checkpoint no longer reads as before, the reply is a cache hit already. |
| BatchOutcomes.SessionReturnsIff | tools/ai-scan-cli/src/criteria-batch-processor.ts:1016-1160 | A session returns if and only if it has no batches, or its checkpoint could be read or saved first and removed last; and then a batch has a result if and only if the checkpoint that was read does not have it. |
| BatchOutcomes.EveryCriterionIsBatched | tools/ai-scan-cli/src/criteria-batch-processor.ts:462-481 | The batches of a session hold every configured criterion of its level, by rank, as often as it is configured, and no other; all but the last are full. |
| Coverage.CacheHitIsHeard | tools/ai-scan-cli/src/criteria-batch-processor.ts:535-552 | A cache hit gives the verifications of a reply heard, in whatever scan, for that very page content, level and batch, never of a torn file. |
| Coverage.HasAgreesOnDisk | tools/ai-scan-cli/src/criteria-verification-cache.ts:328-343 | On every disk a run can leave, `has` says exactly whether `get` would hit. |
| CrashSafety.RecordedMeans | tools/ai-scan-cli/src/criteria-checkpoint-manager.ts:353-367 | A record of replies has strictly ascending batches in range: exactly those of its replies. |
| CrashSafety.MarkedIsRecorded | tools/ai-scan-cli/src/criteria-checkpoint-manager.ts:353-367 | Marking a batch appends its reply to the ledger that the checkpoint of its scan records: batches, verifications and tokens together. |
| CrashSafety.SaveIsSafe | tools/ai-scan-cli/src/criteria-checkpoint-manager.ts:286-301 | At every moment of a save, crashes inside a write included, the disk stays sound. |
| CrashSafety.CacheStoreIsSafe | tools/ai-scan-cli/src/criteria-verification-cache.ts:289 | At every moment of a cache write the disk stays sound. |
| CrashSafety.CacheSparesCheckpoints | tools/ai-scan-cli/src/criteria-verification-cache.ts:289 | A cache write, however it ends, leaves what every checkpoint loads as it was. |
| Runs.SessionIsSafe | tools/ai-scan-cli/src/criteria-batch-processor.ts:990-1163 | At every moment of a session of any scan the disk is sound; a resumed session keeps what was recorded as a prefix of the ledger, and no session touches the ledger of another scan. |
| Runs.CleanupIsSafe | tools/ai-scan-cli/src/criteria-batch-processor.ts:263-267 | So it is at every moment of the cleanup at start-up. |
| Runs.EveryRunIsSafe | tools/ai-scan-cli/src/criteria-batch-processor.ts:1024-1155 | Over every run of start-ups and sessions of any scans, pages and levels, with crashes at or inside any file operation: every checkpoint on disk is whole and is the record of replies heard for its scan and accepted, one for each of its batches; every cache entry stems from a heard, accepted reply of its page, level and batch, whole or torn. |
| Runs.CheckpointOfEveryRun | tools/ai-scan-cli/src/criteria-checkpoint-manager.ts:168-194 | After any run a checkpoint file loads if its id and URL are not empty; then its batches strictly ascend within range, its verifications are the concatenation and its tokens the sum over one reply per completed batch. |
| Runs.EpisodesOnlyAdd | tools/ai-scan-cli/src/criteria-batch-processor.ts:1024-1037 | A checkpoint is only added to, wherever its sessions are cut off and even if the page has changed: batches and tokens grow and the old verifications stay a prefix; sessions of other scans and start-ups leave it alone. The one exception is a session of its own scan whose opening read fails and whose initial save succeeds. |
| Runs.OpeningResetsIff | tools/ai-scan-cli/src/criteria-batch-processor.ts:1024-1057 | What the opening of a session makes of a checkpoint that could be loaded: an empty one if reading it fails and the initial save succeeds, and in every other case the same checkpoint; the session goes on unless both fail. |
| Runs.CheckpointStays | tools/ai-scan-cli/src/criteria-batch-processor.ts:1149-1155 | A checkpoint found at the start of an episode is there at every later moment, but for the last step of a session of its own scan, behind all batches. |
| Coverage.ResultsAreHeard | tools/ai-scan-cli/src/criteria-batch-processor.ts:1083-1123 | After every run, each result without an error holds the verifications of a reply heard, in this session or an earlier one of any scan, for that very page content, level and batch. |
| Coverage.HeardFromModel | tools/ai-scan-cli/src/criteria-batch-processor.ts:586-649 | Whatever was heard in a run, some launch in a session of that scan, for that page, level and batch, said. |
| PageCoverage.CheckpointIsForThisPage | tools/ai-scan-cli/src/criteria-checkpoint-manager.ts:168-194 | After any run in which all sessions of a scan found the same page and level, every reply that its checkpoint records is one for that page and level. |
| PageCoverage.SkippedIsForThisPage | tools/ai-scan-cli/src/criteria-batch-processor.ts:1063-1069 | So every batch that a session skips was answered by a reply for its own scan, page and level. |
| PageCoverage.CoveredForThisPage | tools/ai-scan-cli/src/criteria-batch-processor.ts:1059-1160 | A session that then returns leaves no batch open: each is answered by a reply for this page and level, in the checkpoint that was found or else in the results, or is in the results as a failure with its reason. |
| PageCoverage.RunFailuresAreNamed | tools/ai-scan-cli/src/criteria-batch-processor.ts:1108-1128 | Every result with errors is the NOT_TESTED fallback of its batch for a reason, or an empty result for an exception. |
| PageCoverage.OtherPageIsSkipped | tools/ai-scan-cli/src/criteria-batch-processor.ts:1024-1037 | The failing run, for any scan and any other page or level: one batch is accepted and marked there, the process dies, and the next session on this page skips the batch and returns without it, though nothing was ever heard for this page. |
| PageCoverage.PageConditionIsExact | tools/ai-scan-cli/src/criteria-batch-processor.ts:1024-1069 | In every history what a session skips was answered for its own page and level if and only if the sessions of the scan find no other page and level. |
| Lock.LockReadsBack | tools/ai-scan-cli/src/lock-manager.ts:204-217 | A written lock file is read back exactly. |
| Lock.TornLockIsUnreadable | tools/ai-scan-cli/src/lock-manager.ts:204-217 | A lock file caught in the middle of its write reads as nothing. |
| Lock.StepKeepsInv | tools/ai-scan-cli/src/lock-manager.ts:137-192 | Every allowed step keeps: holders and writers own the file, and only the file of a dead process is taken over. |
| Lock.AtMostOneHolder | tools/ai-scan-cli/src/lock-manager.ts:137-192 | Over every interleaving of creating, writing, reading, judging, unlinking, releasing, failing and dying that keeps three assumptions, at most one process holds the lock. |
| Lock.UnwrittenIsNotTaken | tools/ai-scan-cli/src/lock-manager.ts:153-165 | A lock file read before it is written is never stolen. |
| Lock.StuckIsForever | tools/ai-scan-cli/src/lock-manager.ts:153-165 | An unreadable lock file that nobody is writing outlives every run, with no assumption at all, and nobody ever holds the lock again. |
| Lock.TornWriteSticks | tools/ai-scan-cli/src/lock-manager.ts:144-150 | A process that dies, or whose write fails, while it writes the file brings this about, in a run that keeps all assumptions. |
| Lock.DeadOwnersLockIsTaken | tools/ai-scan-cli/src/lock-manager.ts:105-162 | The readable lock of a process that has ended is taken at once by any process that tries, all assumptions kept. |
| Lock.LeftLockIsTakenIff | tools/ai-scan-cli/src/lock-manager.ts:105-217 | A lock that was left behind, by whomever, can ever be held again if and only if its file is readable. |
| Lock.TwoTakeoversBreakIt | tools/ai-scan-cli/src/lock-manager.ts:157-160 | With two takeovers at once two processes hold the lock, though all else is kept. |
| Lock.OldLockBreaksIt | tools/ai-scan-cli/src/lock-manager.ts:111-118 | So they do when a holder outlives 24 hours. |
| Lock.EarlyExitBreaksIt | tools/ai-scan-cli/src/lock-manager.ts:154-158 | So they do when a holder releases and ends between another's reading of its lock and the check. |
| BatchOrganizer.OrganizeBatches | tools/ai-scan-cli/src/batch-organizer.ts:35-78 | The loops compute the two-level chunking. |
| BatchOrganizer.Constrained | tools/ai-scan-cli/src/batch-organizer.ts:46 | The mini-batch size is forced into 1..10. |
| BatchOrganizer.OrganizeConserves | tools/ai-scan-cli/src/batch-organizer.ts:45-78 | The mini-batches one after the other are the input in order; all batches but the last are full, and all mini-batches but the last of each batch; batches and mini-batches are numbered from 1. |
| MiniBatches.AnalyzeMeans | tools/ai-scan-cli/src/mini-batch-processor.ts:402-535 | At most one attempt more than there are retries, exponential delays, the first attempt with results decides, and failure means that every attempt failed. |
| MiniBatches.Pick | tools/ai-scan-cli/src/mini-batch-processor.ts:463-498 | The result carries the id of the site: the one with that id, or the first one renamed. |
| MiniBatches.AnalyzeSiteWithRetry | tools/ai-scan-cli/src/mini-batch-processor.ts:402-535 | The loop computes it. |
| MiniBatches.ProcessMiniBatch | tools/ai-scan-cli/src/mini-batch-processor.ts:314-391 | The two phases compute the specified results and failures, or the exception of the downloader comes out; `MiniOutcomes.MiniOutcomeMeans` says which scan ends where. |
| MiniBatches.MiniConserves | tools/ai-scan-cli/src/mini-batch-processor.ts:314-391 | Each scan of a mini-batch ends as one result or one failure. |
| MiniBatches.EveryScanIsAccountedFor | tools/ai-scan-cli/src/mini-batch-processor.ts:727-766 | From input to output: if nothing is thrown the ids of all results and failures are together the ids of the input, as a multiset, and their number is its length; if an exception ends the run, no id is accounted for more often than it was there. |
| MiniOutcomes.PickIsTaken | tools/ai-scan-cli/src/mini-batch-processor.ts:463-487 | The result of a site is the first one with its id if there is one, and only otherwise the first of all under its id and URL. |
| MiniOutcomes.AnalyzeIff | tools/ai-scan-cli/src/mini-batch-processor.ts:402-535 | A site comes to nothing if and only if none of the attempts up to the last retry yields a result; otherwise to what the first one that yields gives. |
| MiniOutcomes.AnalyzeSleeps | tools/ai-scan-cli/src/mini-batch-processor.ts:543-551 | Exactly how long it sleeps: a minute behind a rate limit and five seconds behind any other failure, doubled each time, and five seconds behind a reply without results. |
| MiniOutcomes.MiniOutcomeMeans | tools/ai-scan-cli/src/mini-batch-processor.ts:314-391 | For every mini-batch: its failures are, in order, the scans whose download failed and then those none of whose attempts yields, with the fields the source gives them; its results are, in order, those of all other scans, each what the first yielding attempt gives. |
| MiniOutcomes.RunMeans | tools/ai-scan-cli/src/mini-batch-processor.ts:727-820 | The same for every mini-batch of a whole run; and where a run ends, and with which exception: behind the last mini-batch, or with the first one that throws or whose results cannot be recorded. |
| MiniBatchProcessor.MiniBatchProcessor.Record | tools/ai-scan-cli/src/mini-batch-processor.ts:804-809 | Successful ids are marked and flushed; the exception, if any, is that of the flush. |
| MiniBatchProcessor.MiniBatchProcessor.ProcessBatchInternal | tools/ai-scan-cli/src/mini-batch-processor.ts:772-820 | The loop computes the specified results and checkpoint actions, exceptions of downloader and flush included. |
| MiniBatchProcessor.MiniBatchProcessor.ProcessAllBatches | tools/ai-scan-cli/src/mini-batch-processor.ts:727-766 | The same over all batches, with an exception when the browser is started, before anything is done, or closed, which happens however the batches end. |
| MiniBatchProcessor.SuccessesAreRecorded | tools/ai-scan-cli/src/mini-batch-processor.ts:804-809 | A resumed run that completes leaves on disk the ids that were there and those of its results, and no other. |
| MiniBatchProcessor.OnlySuccessesAreRecorded | tools/ai-scan-cli/src/mini-batch-processor.ts:804-809 | However a resumed run ends, by an exception, a failed flush or a crash at or inside any file operation: what was on disk still is, and what is new are ids of successful results; after a crash, of mini-batches that were completed before it. |
| MiniBatchProcessor.ResumedOnlyAdds | tools/ai-scan-cli/src/cli.ts:508-556 | Over any number of starts, each filtering its input by the checkpoint it finds and each cut short in any way, the ids on disk only grow, and by ids of successful results only. |
| MiniBatchProcessor.RecordedIsDone | tools/ai-scan-cli/src/cli.ts:514-517 | A scan that one start has recorded is never processed by a later one. |
| ScanCheckpoint.ProgressRoundTrip | tools/ai-scan-cli/src/checkpoint-manager.ts:138-151 | A saved scan checkpoint is read back exactly. |
| ScanCheckpoint.CheckpointManager.LoadCheckpoint | tools/ai-scan-cli/src/checkpoint-manager.ts:65-82 | Reads the file into memory; any failure counts as no checkpoint. |
| ScanCheckpoint.CheckpointManager.MarkProcessed | tools/ai-scan-cli/src/checkpoint-manager.ts:167-169 | Buffers the ids. |
| ScanCheckpoint.CheckpointManager.Flush | tools/ai-scan-cli/src/checkpoint-manager.ts:183-200 | Memory, files and operations of a flush, for each of its four ends. |
| ScanCheckpoint.CheckpointManager.ClearCheckpoint | tools/ai-scan-cli/src/checkpoint-manager.ts:93-103 | Removes the file and forgets the checkpoint; with no file the checkpoint in memory stays; a failure has no effect. |
| ScanCheckpoint.SessionTracks | tools/ai-scan-cli/src/checkpoint-manager.ts:167-200 | Over any acts, memory and buffer together hold exactly the ids found and marked, and the disk lags behind only while something is pending. |
| ScanCheckpoint.SavedIsComplete | tools/ai-scan-cli/src/checkpoint-manager.ts:183-200 | A flush that succeeds brings the disk to the old set plus everything marked, whatever failed before it. |
| ScanCheckpoint.SessionOnlyAdds | tools/ai-scan-cli/src/checkpoint-manager.ts:138-200 | However a session ends, inside a flush included, no id is lost and none is recorded that was not marked. |
| ScanCheckpoint.ChainOnlyAdds | tools/ai-scan-cli/src/checkpoint-manager.ts:138-200 | The same over any number of sessions and crashes. |
| ScanCheckpoint.ResumeIsComplement | tools/ai-scan-cli/src/cli.ts:514-517 | What the resume filter leaves and what it skips are together the input; repetitions in the list of ids, as a retried flush leaves them, change nothing. |
| Directory.ProcessDirectory | tools/ai-scan-cli/src/cli.ts:734-902 | The loop over the files computes the specified statistics, error path by error path. |
| Directory.DirectoryBalances | tools/ai-scan-cli/src/cli.ts:720-902 | After every file, whatever went wrong with it, totalUrls = totalSuccessful + totalFailed; each file is counted once as succeeded or failed; and filesProcessed misses exactly the files without scans that could be moved away at once. |
| Directory.FileTotals | tools/ai-scan-cli/src/cli.ts:734-902 | What one file adds to each total: scans, results, failures and skipped rows if and only if the run over it ended and all its output was written; one success if it also has a result and could be moved, else one failure. |
| Directory.FileErrors | tools/ai-scan-cli/src/cli.ts:734-902 | And to the errors: the reason it does not count, then the errors of moving it, under its name. |
| Directory.DirectoryTotals | tools/ai-scan-cli/src/cli.ts:720-902 | Each total of a directory is the sum over its files. |
| ManualUrls.ParseManualUrls | apps/web/src/lib/url-utils.ts:330-408 | The accepted URLs are the first 50 of the deduplicated normal forms of the valid lines, the errors are the specified ones, and every non-empty line ends in exactly one of the two. |
| ManualUrls.LinesOfJoined | apps/web/src/lib/url-utils.ts:339-349 | Lines joined by semicolons and line ends, in any mixture, come back one by one, trimmed and without the empty ones: the input is cut there and nowhere else. |
| ManualUrls.LinesArePieces | apps/web/src/lib/url-utils.ts:339-349 | Trimming the whole input first changes nothing. |
| ManualUrls.VerdictMeans | apps/web/src/lib/url-utils.ts:356-398 | Which error a line draws, in the order of the checks: 50 URLs accepted before, not valid, no normal form, accepted before. |
| ManualUrls.DedupMeans | apps/web/src/lib/url-utils.ts:389-404 | Deduplication keeps the same elements, each once, in the order of first occurrence. |
| ManualUrls.LineStep | apps/web/src/lib/url-utils.ts:354-405 | One more line is either taken, below the limit, or draws an error and changes nothing. |
| ManualUrls.WantedMeans | apps/web/src/lib/url-utils.ts:354-405 | Accepted URLs are distinct; a candidate is left out only if 50 others occur before it. |
| BatchReport.Aggregate | apps/worker/src/jobs/batch-report.job.ts:221-237 | The running totals equal the sums over the reported breakdowns. |
| BatchReport.SumMeans | apps/worker/src/jobs/batch-report.job.ts:221-237 | Each of the six counts is the sum of that count over the breakdowns. |
| BatchReport.GroupIssues | apps/worker/src/jobs/batch-report.job.ts:279-307 | The loop fills the buckets with the issues of each impact, in order, every field copied, the impact in capitals and missing nodes empty. |
| BatchReport.BucketsPartition | apps/worker/src/jobs/batch-report.job.ts:279-307 | Every issue of known impact, however spelled, lands in exactly one bucket. |
| BatchReport.BucketsMean | apps/worker/src/jobs/batch-report.job.ts:279-307 | Each of the four buckets, by name, holds exactly the issues whose impact is that name in any case, with the impact in capitals and every other field as it was. |
| BatchReport.BreakdownsMean | apps/worker/src/jobs/batch-report.job.ts:273-321 | The report breaks down exactly the scans with a result, in order. |
| BatchReport.TopScansMeans | apps/worker/src/jobs/batch-report.job.ts:262-270 | Listed and omitted pages are together those with critical issues; at most five are listed, the worst first; no omitted page beats a listed one, and none is omitted while there is room. |
| BatchReport.TiesKeepOrder | apps/worker/src/jobs/batch-report.job.ts:262-270 | Equally bad pages are listed in input order. |
| BatchReport.TransformToBatchPdfInput | apps/worker/src/jobs/batch-report.job.ts:219-330 | The whole input: the copied metadata, breakdowns, their sum and the list of worst pages. |

## Left out

- Text is a sequence of Unicode scalar values: a surrogate escape reads as the replacement character, and lengths and token estimates count scalar values, not UTF-16 units.
- Numbers are exact reals; rounding to double precision and overflow to infinity are not modelled. Numbers written to files are naturals.
- Time stamps are milliseconds in files too, not ISO text; the JavaScript date range is not modelled.
- Lower- and upper-casing cover ASCII letters only.
- Checkpoint, cache and lock files of shapes this program never writes, beyond unreadable ones and entries without an expiry: a cached `tokensUsed` that is no number counts as 0, `verifications` that is no array as a failing lookup, a checkpoint with missing counters as no checkpoint.
- `issueEnhancementResult` and `markIssueEnhancementComplete`: the batch processor does not use them.
- Path normalisation by `join`: scan ids with path segments are outside the model. SHA-256 is a function giving 16 characters; collisions are out of scope.
- `entriesCount`, `maxEntries`, `hitRate`, `warmup` and `clearAll` of the cache: overwrites and cleanup make the count inexact, and the limit is never enforced.
- The number of batches of a scan is the same in all its sessions, which the resume path does not check. Page, URL, level, time to live and the criteria themselves may change between sessions; coverage of a page needs what `PageCoverage` says.
- Two processes on the same checkpoint or cache at once: sessions follow one another.
- Prompt generation and the criteria instructions are parameters. Criterion ids with parts that are no decimal numbers are outside the model.
- BatchProcessor.SingleBatch: an unexpected exception strikes before the batch has done anything; every later step of the source catches its own.
- Retry.IsJsonParseError: decided on the kind of error, not by searching its message, because the messages are fixed texts; the wording of parser exceptions is not modelled.
- Lock.AtMostOneHolder: is about one host, because the code never compares the host name, and about process ids that are not reused.
- Lock: methods of the lock manager are steps of a system, not a class, because what matters is how several processes interleave.
- MiniBatches: exceptions of the downloader are modelled per mini-batch, wherever in it they strike. Criteria verification of a result (`performCriteriaVerification`) leaves its id and URL alone and is not part of this model; nor are the browser, progress callbacks, delays between mini-batches and token counts.
- BatchOrganizer.OrganizeBatches: requires a positive batch size; with any other the source's loop does not end.
- `--resume` without a checkpoint file: `flush` throws, which is modelled (`NoCheckpoint`), but the theorems about runs start from a loaded checkpoint.
- `lastBatch` and `lastMiniBatch` of the scan checkpoint are stored but never updated.
- `process.exit`, signal handling, logging, durations and exit codes.
- ManualUrls.ParseManualUrls: validity and normal form of a single URL are parameters; WHATWG URL parsing is not part of this model.
- BatchReport.GroupIssues: an impact that names a property every object has, such as `constructor`, would make the source throw; the database's impact values exclude it.
- The legacy strategies 3 and 4 of `parseClaudeOutput`, the issue and enhancement normalisers, CSV reading and writing, S3, Prisma, queues, web pages and API clients would add only plumbing or easy members.
