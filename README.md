# Brainrot Shorts — a Dafny model of the generation and render core

Brainrot Shorts turns a topic into a short vertical video. An LLM writes a
script of timed beats with a hook. A text-to-speech voice reads it. Word
timestamps become ASS subtitles. ffmpeg then renders a background clip, the
captions, music and sound effects into an MP4. Around this sit:

- a job queue, with cancellation that kills a job's subprocesses;
- quality gates on the hook and on the caption pace;
- an optimisation loop over script attempts;
- pacing metrics, a virality estimate and caption reports;
- a caption auto-fixer that regroups and rewrites subtitle events.

This project models that core in Dafny. There is one module per source file:

| module | source file |
|---|---|
| JobQueue | `app/job_queue.py` |
| RoutesCancel | `app/api/routes_cancel.py` |
| SubprocessManager | `app/subprocess_manager.py` |
| FfmpegFallbacks | `app/ffmpeg_fallbacks.py` |
| Pipeline | `app/pipeline.py` |
| GenerationStrategy | `app/generation_strategy.py` |
| Llm | `app/llm.py` |
| Optimization | `app/optimization.py` |
| QualityGates | `app/quality_gates.py` |
| Metrics | `app/metrics.py` |
| ViralityScore | `app/virality_score.py` |
| CaptionsReport | `app/captions_report.py` |
| CaptionsAutofix | `app/captions_autofix.py` |
| Captions | `app/captions.py` |
| Editor | `app/editor.py`, plus `ffmpeg_filter_path` from `app/utils.py` |
| BeatsEditor | `app/beats_editor.py` |
| HfTypes | `hf_t2v_hunter/hf_t2v_hunter/types.py` |
| HfVram | `hf_t2v_hunter/hf_t2v_hunter/vram_estimator.py` |
| HfFilters | `hf_t2v_hunter/hf_t2v_hunter/filters.py` |
| HfScoring | `hf_t2v_hunter/hf_t2v_hunter/scoring.py` |
| HfDownloader | `hf_t2v_hunter/hf_t2v_hunter/downloader.py` |
| HfCli | `hf_t2v_hunter/hf_t2v_hunter/cli.py` (`parse_weights`) |
| Utils | `app/utils.py` (`clamp`, `generate_job_id`) |
| Tts | `app/tts.py` (`_build_atempo`) |
| EnvUtils | `app/env_utils.py` |
| Downloads | `app/downloads.py` |
| ModelSetup | `app/model_setup.py` |
| CampaignMemory | `app/automation/campaign_memory.py` |
| Continuity | `app/automation/continuity.py` |
| HooksPool | `app/hooks_pool.py` |
| EffectsPlanner | `app/effects_planner.py` |
| Background | `app/background.py` (`build_stitched_background`) |
| AudioMastering | `app/audio_mastering.py` |
| Registry | `app/model_ops/registry.py` |
| Routing | `app/model_ops/routing.py` (`pick_model_paths`, `_benchmark_map`) |
| AssetsManager | `app/assets_manager.py` |
| PresetManager | `app/preset_manager.py` |
| TemplateManager | `app/template_manager.py` |
| AppMain | `app/main.py` (`_apply_preset`, `_apply_unhinged`, the `_enqueue_job` runner) |
| RoutesBeats | `app/api/routes_beats.py` (`render_from_beats`) |
| WatchPending | `app/automation/watch_pending.py` |
| Scheduler | `app/automation/scheduler.py` (`_load_prompts`, `dry_run`, `_run_schedules`) |
| Campaigns | `app/automation/campaigns.py` (`run_campaign`, the summary of `export_campaign_pro`) |
| Validation | `app/validation.py` |
| Variations | `app/variations.py` |

Supporting modules:

- Ass: the ASS time and escaping helpers, which two source files define alike.
- JsonText: the brace span of the LLM-output parsers.
- Json: the values `json.loads` and `yaml.safe_load` return, with truthiness, `in`, indexing, iteration and `str()`.
- Models: the request and script records.
- Text: Python's string operations on ASCII text.
- Num, Sorting, Jobs, Wrappers: small shared helpers.

How the source's shapes are modelled:

- Stateful objects are classes whose methods carry `modifies` clauses: the job queue, the subprocess registry, the pipeline run, the attempts table, the beats store, the preset and template stores, the pending-batch table and the campaign tables.
- Loops are methods with invariants. Each is proved equal to a recursive specification function, and the source's promises are proved about those functions as lemmas.
- Callables the core receives are function-valued parameters. These are the job body, the LLM backends, ffmpeg, the hook rewriter, the script generator and the plugins.
- Floats are `real`, so rounding happens only where the model writes it out.

## Model

| member | source | states |
|---|---|---|
| JobQueue.JobQueue.constructor | app/job_queue.py:9-13 | max_workers is clamped to at least 1; the queue is empty, with no threads, no jobs, and not running |
| JobQueue.JobQueue.Start | app/job_queue.py:15-22 | a second start spawns nothing; the first adds max_workers threads and sets running |
| JobQueue.JobQueue.Stop | app/job_queue.py:24-27 | one None sentinel per started thread is appended at the tail of the queue, and nothing else changes |
| JobQueue.JobQueue.Enqueue | app/job_queue.py:29-31 | the job's state becomes "queued" and the job goes to the FIFO tail; `Valid` is kept |
| JobQueue.JobQueue.WorkerStep | app/job_queue.py:33-51 | a sentinel ends the worker; a job is run as RunTask says; task_done is counted once either way; fn is called only for a job that is not cancelled |
| JobQueue.CancelledNeverRuns | app/job_queue.py:40-45 | a cancelled job ends "error" with the cancel log line, whatever its fn would do |
| JobQueue.FnSeesRunning | app/job_queue.py:40-46 | fn only ever sees the job in state "running", so the earlier status does not matter |
| JobQueue.RaisedIsError | app/job_queue.py:46-49 | an exception from fn leaves the job in "error" with exactly one new log line carrying the exception |
| RoutesCancel.Cancelled | app/api/routes_cancel.py:26-28 | the cancelled state: the flag set, status "error", the user-cancel line appended to the logs |
| RoutesCancel.CancelBeforeStartSkipsFn | app/api/routes_cancel.py:26 | a job cancelled before a worker dequeues it is never run: the worker sees the flag (job_queue.py:42) |
| RoutesCancel.CancelJob | app/api/routes_cancel.py:20-36 | an unknown id is a 404 and changes nothing; otherwise the job is flagged and put in "error" with one log line, the manager kills the job's processes, the killed count is returned and the project status becomes "error" |
| Jobs.ProjectStore.UpdateStatus | app/project_manager.py:49-61 | an SQL UPDATE: the project's status is set when it has a row, a job without a project row adds none, and no other project changes (StatusSet) |
| Jobs.StatusSet | app/project_manager.py:49-61 | the projects keep their keys; the job's row, when there is one, gets the status, and every other row keeps its own |
| SubprocessManager.WithoutPid | app/subprocess_manager.py:67-68 | the entries of the other pids, in order; the pid is absent afterwards |
| SubprocessManager.RegisterThenDeregister | app/subprocess_manager.py:55-70 | registering a pid the job does not hold and then deregistering it gives back the registry it started from |
| SubprocessManager.DeregisterAfterRegister | app/subprocess_manager.py:57-70 | deregistering a pid undoes registering it, whatever else the job holds |
| SubprocessManager.CountKilledBound | app/subprocess_manager.py:80-83 | the killed count never exceeds the snapshot's size, and equals it when every kill succeeds |
| SubprocessManager.SubprocessManager.KillPid | app/subprocess_manager.py:88-93 | True exactly when the kill did not raise |
| SubprocessManager.EffectiveTimeout | app/subprocess_manager.py:30 | the timeout given, else the manager's default |
| SubprocessManager.TimeoutMessage | app/subprocess_manager.py:63 | "Subprocess timed out after ", the rendered seconds, "s: ", then the argument list's repr |
| SubprocessManager.SubprocessManager.Run | app/subprocess_manager.py:29-75 | a Popen failure propagates with nothing registered or killed; otherwise the process is registered only when a job id is given and deregistered however communicate() ends; a timeout kills the process group and gives RuntimeError with the timeout message, or the kill's own exception when the kill raises; a non-zero exit gives CalledProcessError; success exactly on exit code 0 |
| SubprocessManager.SubprocessManager.CancelJob | app/subprocess_manager.py:77-86 | every process of the job's snapshot is killed, the successes are counted and the whole job key is removed |
| FfmpegFallbacks.FirstSuccess | app/ffmpeg_fallbacks.py:11-22 | the index of the attempt that returns: it succeeds and every attempt before it raises; None exactly when every attempt raises |
| FfmpegFallbacks.RunAttempts | app/ffmpeg_fallbacks.py:6-24 | attempts run strictly in order; the first that returns gives its name and nothing after it runs; the log shows exactly the invoked prefix; when all raise, a RuntimeError carries the last error |
| Optimization.EstimateMetrics | app/optimization.py:197-205 | words per second of at least one second and beats per ten seconds of at least one unit, stated as products |
| Optimization.MetricsMatchVirality | app/optimization.py:74-77 | the attempt's estimate is the one its virality estimate is computed from |
| Optimization.SelectionScore | app/optimization.py:216-224 | at most the hook score, and equal to it exactly when both rates are within bounds |
| Optimization.PassesIffUnpenalised | app/optimization.py:208-224 | passing the thresholds is a good enough hook with nothing to penalise |
| Optimization.RewriteBelow | app/optimization.py:177-194 | below the minimum, the first candidate becomes the hook, the first beat's text and on-screen text, and the voiceover is re-joined; otherwise, or with no candidate, the script is kept |
| Optimization.RewriteIdempotent | app/optimization.py:178-180 | a hook that already scores well enough is never rewritten again |
| Optimization.Assess | app/optimization.py:74-78 | pass is exactly the thresholds; the hook score is in [0, 100] and the selection score (the virality estimate) in [43, 100] |
| Optimization.Evaluate | app/optimization.py:74-115 | one attempt record: its number and script, pass exactly when the thresholds hold, and the score bounds |
| Optimization.ScriptAtSteps | app/optimization.py:45-72 | a hook_only attempt is the previous attempt's script through the hook rewrite; a script_and_hook attempt is a fresh script through it |
| Optimization.FirstRaise | app/optimization.py:45-69 | the earliest attempt whose run_generation_strategy call raises (hook_only calls it at the first attempt only), or none when no attempt up to n raises |
| Optimization.BestIsEarliestMax | app/optimization.py:117-121 | with no passing attempt, the best is the earliest of the highest selection scores |
| Optimization.BestIsPass | app/optimization.py:117-119 | a passing last attempt is the one kept |
| Optimization.SavedRows | app/optimization.py:96-105 | after saving, every attempt has its row, keyed by job and attempt number, unselected and with the attempt's hook score and reasons |
| Optimization.SavedTouchesNoOther | app/optimization.py:96-105 | saving the attempts changes no row other than those attempts' own |
| Optimization.AttemptTable.SaveAttempt | app/optimization.py:227-255 | INSERT OR REPLACE of the attempt's row with selected = 0 |
| Optimization.Marked | app/optimization.py:258-268 | the same keys; within the job exactly the chosen attempt is flagged; other jobs' rows and all scores and reasons are untouched |
| Optimization.AttemptTable.MarkSelected | app/optimization.py:258-268 | the table becomes Marked of the old rows |
| Optimization.NextScript | app/optimization.py:45-72 | hook_only generates once and then reuses and rewrites the same script; the other modes generate afresh; hook_only and script_and_hook pass the script through the hook rewrite; a generation call that raises gives its exception, exactly when the attempt's call raises |
| Optimization.TryAttempt | app/optimization.py:45-121 | one loop pass: the attempt is built, scored, saved unselected and weighed against the best so far, keeping the loop state (LoopState) one attempt further; or its generation call raises exactly when that attempt's call raises, with that call's exception, and nothing changes |
| Optimization.RecordAttempt | app/optimization.py:74-121 | an attempt that raised nothing is scored, saved unselected and weighed against the best so far, and the loop state (LoopState) moves one attempt further |
| Optimization.RunLoop | app/optimization.py:41-121 | LoopOutcome: at most optimization_max_attempts attempts run in order and stop at the first pass or at the first generation call that raises, with that exception; each attempt is saved unselected; the best is tracked as the source does; one generation per attempt, hook_only generating once |
| Optimization.Optimize | app/optimization.py:21-143 | the attempts are exactly RunAttemptsWith; it fails exactly when there is no attempt slot ("Optimization failed to produce a script") or a generation call raises (that exception, with the attempts before it saved and the beats store untouched); otherwise the best is BestOf, the chosen row is marked and the chosen script's beats, voiceover, hook and title are written back (see Findings) |
| Optimization.PublishedFiles | app/beats_editor.py:64-71 | with the job directory, script.json holds the chosen beats, hook and title; other jobs' files are untouched; without it nothing is written |
| Optimization.Publish | app/optimization.py:126-129 | the beats row is replaced, the directories are unchanged and script.json becomes PublishedFiles of the old files |
| Optimization.RunOptimization | app/optimization.py:21-143 | run_optimization with score_hook, _maybe_rewrite_hook and the virality estimate: it fails exactly with no attempt slot or a raising generation call, and otherwise marks and writes back the best attempt (see Findings) |
| Optimization.StopAtPlanned | app/optimization.py:41-119 | the loop's attempts are the planned ones up to and including the first pass |
| Optimization.LoopDone | app/optimization.py:41-121 | a loop that ran out of attempts or passed, with no raise, holds exactly RunAttemptsWith and raised nothing |
| Optimization.LoopRaised | app/optimization.py:45-69 | a loop whose next generation call raises after n attempts that did not pass holds exactly RunAttemptsWith and raises that call's exception |
| Optimization.RaisedCut | app/optimization.py:45-69 | when attempt n + 1 is the first whose generation call raises and none of the n before passes, the loop evaluates exactly those n and raises that call's exception |
| Optimization.AliasedSelectionDiffers | app/optimization.py:57-129 | in hook_only mode with two failing attempts, the first is selected but the source returns the second attempt's hook |
| Metrics.ScoreMonotone | app/metrics.py:28-42 | curiosity, numbers and shock words never lower the score; complexity never raises it |
| Metrics.Reasons | app/metrics.py:19-46 | at least one reason; the baseline reason alone exactly when no adjustment applies; any other reason is present exactly when its adjustment applies |
| Metrics.ScoreValue | app/metrics.py:44 | the raw score clamped to [0, 100], and the raw score itself when it is already in range |
| Metrics.ScoreOrder | app/metrics.py:44 | a higher raw score never gives a lower clamped score |
| Metrics.ScoreHook | app/metrics.py:13-47 | the score is in [0, 100]; the baseline reason alone exactly when no signal applies to the stripped, lowercased hook; the curiosity reason exactly when a curiosity word occurs; the numbers reason exactly when a digit occurs |
| Metrics.ScoreHookNormalized | app/metrics.py:14 | case and surrounding whitespace of the hook never change its score |
| Metrics.MetricsDuration | app/metrics.py:55-62 | always positive, and the probed duration whenever that is positive |
| Metrics.TotalSeconds | app/metrics.py:80 | at least 1 and at least the duration |
| Metrics.Bucket | app/metrics.py:85-92 | the bucket lies within the histogram, and a timestamp inside it is counted in its own second |
| Metrics.PerSecond | app/metrics.py:89-93 | each timestamp lands in exactly one clamped bucket, so the buckets sum to the number of timestamps |
| Metrics.BeatHistograms | app/metrics.py:81-87 | beat density and cut frequency are filled side by side, come out equal and sum to the number of beats |
| Metrics.ComputeMetrics | app/metrics.py:50-111 | histograms of TotalSeconds(duration) buckets; beat density equals cut frequency; each bucket counts its beats or word starts, and the buckets sum to the number of beats and words; the averages are 0 for no beats or no words; the suggestions are Suggestions of the histograms |
| Metrics.FindRanges | app/metrics.py:131-142 | the loop's result is exactly Runs(flags) |
| Metrics.RunsAreMaximal | app/metrics.py:131-142 | Runs(flags) are non-empty in-range runs of True, strictly ordered, each preceded and followed by False or an end, and together they cover every True flag |
| Metrics.SlowLinesEmpty | app/metrics.py:116-121 | no slow line exactly when no run of beatless seconds lasts 3 s or more |
| Metrics.DenseLinesEmpty | app/metrics.py:117-124 | no dense line exactly when no run of over-6-word seconds lasts 2 s or more |
| Metrics.Suggestions | app/metrics.py:114-128 | at least one line; exactly ["Pacing looks balanced."] when no beatless run lasts 3 s or more and no over-6-words run lasts 2 s or more |
| ViralityScore.ScoreRange | app/virality_score.py:134-141 | 100 with "within target range." inside the bounds; otherwise a score in [60, 100] with "too low." or "too high." by side |
| ViralityScore.ScoreRangeFartherLow | app/virality_score.py:137-139 | moving further below the range never raises the score |
| ViralityScore.ScoreRangeFartherHigh | app/virality_score.py:140-141 | moving further above the range never raises the score |
| ViralityScore.WeightedScore | app/virality_score.py:144-149 | within half a point of the weighted total, and in [0, 100] when every part is |
| ViralityScore.WeightedScoreOfEqualParts | app/virality_score.py:145 | equal parts give that value back, because the weights sum to 1 |
| ViralityScore.CaptionStability | app/virality_score.py:125-131 | 90 for no words; otherwise in [0, 100], 100 when no word is short and 0 when every word is |
| ViralityScore.Avg | app/virality_score.py:112-115 | 0 for an empty series, otherwise the mean times the length is the sum |
| ViralityScore.AvgPer10s | app/virality_score.py:118-122 | ten times the mean |
| ViralityScore.BeatsPer10s | app/virality_score.py:106-109 | the beats per ten seconds of at least one second, stated as a product |
| ViralityScore.SlowIntervals | app/virality_score.py:156-158 | at most one line per run, and none exactly when no beatless run lasts 3 s or more |
| ViralityScore.DenseIntervals | app/virality_score.py:159-161 | at most one line per run, and none exactly when no over-6-words run lasts 2 s or more |
| ViralityScore.ProblemIntervals | app/virality_score.py:152-162 | no problem intervals exactly when the metrics suggestions say the pacing is balanced |
| ViralityScore.HookMessages | app/virality_score.py:78-94 | one message per hook reason, in order |
| ViralityScore.Rate | app/virality_score.py:80-81 | count / max(1, per), stated as a product |
| ViralityScore.EstimateFloor | app/virality_score.py:85-93 | with stability 85 and both range scores at least 60, the weighted score is in [43, 100] |
| ViralityScore.ScoreRates | app/virality_score.py:83-98 | the score is in [43, 100] and carries the hook score and both rates; the reasons are the hook's messages, then the beats/10s range reason, then the words/sec range reason |
| ViralityScore.EstimateVirality | app/virality_score.py:77-103 | the score is in [43, 100]; the hook score is score_hook's; the beat rate is Rate of the beats over duration / 10 and the word rate Rate of the voiceover's words over the duration; the reasons are the hook's messages followed by the beats/10s and then the words/sec range reasons of those rates |
| QualityGates.CountAtMostPeak | app/quality_gates.py:74-81 | no second holds more words than the busiest one |
| QualityGates.PeakIsMax | app/quality_gates.py:74-81 | the peak is 0 exactly when there are no words; otherwise it is the count of some word's second and no second holds more |
| QualityGates.CountSeconds | app/quality_gates.py:75-78 | every word's truncated second is a key; each key counts exactly the words of its second (at least one); no words means no keys |
| QualityGates.MaxWps | app/quality_gates.py:74-81 | the count of the busiest second, 0.0 for no words |
| QualityGates.Tries | app/quality_gates.py:23-56 | range(max_retries + 1) has max(0, max_retries + 1) attempts |
| QualityGates.CaptionGateWith | app/quality_gates.py:48-66 | the loop's words and attempts are exactly CaptionGateFrom for any compression step |
| QualityGates.CaptionGate | app/quality_gates.py:48-66 | the same with compress_words at the limit |
| QualityGates.GateAttempts | app/quality_gates.py:56-65 | attempts are numbered from 0; attempt k measures the words compressed k times; never more than the retries allow; every attempt but the last was over the limit |
| QualityGates.GateOutcome | app/quality_gates.py:59-66 | a gate that stopped within the limit returns the words it measured last; one that ran out returns the words compressed once per attempt |
| QualityGates.GateWithin | app/quality_gates.py:65 | a step that only drops words gives a gate that only drops words |
| QualityGates.CaptionGateWithin | app/quality_gates.py:48-66 | the caption gate returns a sub-multiset of its input |
| QualityGates.NextHook | app/quality_gates.py:26-34 | the gate moves on exactly when the score is below the minimum and the rewrite returned candidates, and then to the first candidate |
| QualityGates.HookGateWith | app/quality_gates.py:12-45 | the loop's script and attempts are exactly HookGateFrom for any scorer and hook update |
| QualityGates.HookGate | app/quality_gates.py:12-45 | the same with score_hook and the real hook, first-beat and voiceover update, starting from the stripped hook |
| QualityGates.HookAttempts | app/quality_gates.py:23-34 | at most max_retries + 1 attempts; the first scores the stripped hook; each attempt records its own hook's score; each later attempt scores the candidate the one before moved on to; an early stop is a good score or a failed or empty rewrite |
| QualityGates.HookGateScript | app/quality_gates.py:34-45 | the script comes back untouched when no rewrite was taken; otherwise it carries the last hook taken, including a candidate taken on the final attempt and never scored |
| CaptionsReport.EstimateDuration | app/captions_report.py:71-76 | the latest word end; with no words, the latest beat plus 2 s; with neither, 30 s |
| CaptionsReport.Histogram | app/captions_report.py:79-86 | one count per second of the duration, each counting the start times clamped into it |
| CaptionsReport.WordsPerSecond | app/captions_report.py:79-86 | the histogram of the word starts, of max(1, ceil(duration)) buckets summing to the number of words |
| CaptionsReport.InSecond | app/captions_report.py:59 | the bucket holds only words of that second and every word of it |
| CaptionsReport.EveryAt | app/captions_report.py:66 | bucket[::stride] has ceil(n / stride) items, the i-th being item i * stride |
| CaptionsReport.Compressed | app/captions_report.py:46-68 | no words, or a peak within the limit, gives the words back; otherwise the result is sorted by start |
| CaptionsReport.CompressWords | app/captions_report.py:46-68 | the loop's result is exactly Compressed |
| CaptionsReport.KeepSeconds | app/captions_report.py:57-66 | the per-second loop keeps exactly Kept: small buckets whole and large ones strided |
| CaptionsReport.CompressedWithin | app/captions_report.py:46-68 | compress_words returns a sub-multiset of its input |
| CaptionsReport.ThinBound | app/captions_report.py:62-66 | a thinned bucket is never larger, and an over-limit bucket keeps at most ceil(limit) words |
| CaptionsReport.StrideBound | app/captions_report.py:65-66 | striding by ceil(n / m) leaves at most ceil(m) and at most n words |
| CaptionsReport.LineLengths | app/captions_report.py:92-97 | one length per non-blank beat, each in [1, 48] |
| CaptionsReport.AvgCharsPerLine | app/captions_report.py:89-100 | the mean of the capped lengths, 0 with no non-blank beat, and in [0, 48] |
| CaptionsReport.LongFlags | app/captions_report.py:106-108 | one flag per beat, set exactly when the stripped text has 9 or more words |
| CaptionsReport.LongestRunExists | app/captions_report.py:103-113 | some run of set flags has the longest length |
| CaptionsReport.LongestRunMaximal | app/captions_report.py:103-113 | no run of set flags is longer than the longest |
| CaptionsReport.MaxConsecutiveLong | app/captions_report.py:103-113 | the loop returns the longest run of long beats |
| CaptionsReport.Shown | app/captions_report.py:120-123 | one on-screen time per beat, each at least 0.5 s |
| CaptionsReport.ShownDurations | app/captions_report.py:120-123 | the loop gives exactly Shown |
| CaptionsReport.CaptionOnScreen | app/captions_report.py:116-124 | 0 for no beats; otherwise the mean of Shown over the sorted beat times, at least 0.5 s |
| CaptionsReport.MeanAtLeast | app/captions_report.py:124 | a mean of values at least lo is at least lo |
| CaptionsReport.Suggestions | app/captions_report.py:127-137 | the spike line exactly when a second has more than 5 words; the long-lines line exactly when the average exceeds 28; the long-runs line exactly when 3 or more long beats run together; only the healthy line otherwise |
| CaptionsReport.BuildReport | app/captions_report.py:8-43 | the duration estimate, the histogram summing to the number of words, the longest long run, the mean capped length of the non-empty lines (0 without any), in [0, 48], the mean on-screen time of the time-ordered beats over the estimated duration (0 without beats, at least 0.5 s with them), and the suggestions of those values |
| CaptionsAutofix.CandidateIs | app/captions_autofix.py:209 | f"{current} {word}".strip() is the word alone on an empty line, and the line, a space and the word otherwise |
| CaptionsAutofix.FinishWrapped | app/captions_autofix.py:215-221 | where the loop stops, after every word or at the early break, the kept lines are wrapped |
| CaptionsAutofix.WrapLines | app/captions_autofix.py:202-221 | [""] exactly for a text with no words; otherwise one or two non-empty lines, each within the width unless it is a single word, reading in order as a prefix of the words; a text that fits is one line |
| CaptionsAutofix.FlushEvent | app/captions_autofix.py:184-199 | nothing for words that join to blank text; otherwise exactly one event appended, starting at start, reading as the stripped joined words, ending at max(last_end, start + target), with its text wrapped |
| CaptionsAutofix.KeptStep | app/captions_autofix.py:87-90 | one more input word grows the kept words by that word, stripped, unless it is blank |
| CaptionsAutofix.GroupSkip | app/captions_autofix.py:88-90 | a blank word changes nothing |
| CaptionsAutofix.GroupOverflow | app/captions_autofix.py:93-100 | a word that would make the open block longer than twice the width flushes the block, with that word's end as last_end, and opens a block of its own |
| CaptionsAutofix.GroupAppend | app/captions_autofix.py:91-101 | a word that fits joins the open block |
| CaptionsAutofix.GroupClose | app/captions_autofix.py:102-109 | flushing the whole open block with its own last_end closes it |
| CaptionsAutofix.CloseBlock | app/captions_autofix.py:102-106 | one more event, no open words, and the block closed with its last_end |
| CaptionsAutofix.AddWord | app/captions_autofix.py:87-106 | one pass of the loop keeps the grouping state and every event wrapped |
| CaptionsAutofix.GroupDone | app/captions_autofix.py:108-110 | after the final flush the closed blocks are exactly the kept words, each with its event |
| CaptionsAutofix.GroupWords | app/captions_autofix.py:76-110 | the non-blank words, stripped, are cut in order into blocks; each block gives one wrapped event that starts at its first word, reads as its words, ends at max(last_end, start + target) and stays within twice the width unless it is one word; each last_end is the block's own last end or, after an overflow, the next word's end |
| CaptionsAutofix.TotalDurationAtLeast | app/captions_autofix.py:56 | every event counts at least 0.01 s |
| CaptionsAutofix.AvgWpsShape | app/captions_autofix.py:55-57 | the rate is never negative, and for some events it is the words over the summed durations |
| CaptionsAutofix.LongestLineIsMax | app/captions_autofix.py:60 | the longest line is as long as some line and no line is longer |
| CaptionsAutofix.MaxLineLenIsMax | app/captions_autofix.py:58-60 | max_len bounds every line of every event and is reached by one, or is 0 for no events |
| CaptionsAutofix.ReportSuggestions | app/captions_autofix.py:61-67 | the rate line exactly when the rate is over the limit; the length line exactly when a line is too long; the healthy line exactly when neither |
| CaptionsAutofix.BuildReport | app/captions_autofix.py:54-73 | the event count, the average rate, the longest line found by the loop, and the suggestions of those |
| CaptionsAutofix.ReplyLines | app/captions_autofix.py:128-131 | None exactly when generate_text raised; a reply without a brace span gives no lines |
| CaptionsAutofix.RewriteTextFallback | app/captions_autofix.py:136-138 | a blank rewrite falls back to the event's own lines with no \N left; otherwise the text is the stripped rewrite |
| CaptionsAutofix.RewriteAll | app/captions_autofix.py:134-141 | one updated event per event, with the same times, the new text and that text wrapped |
| CaptionsAutofix.RewriteEvents | app/captions_autofix.py:113-143 | the events come back unchanged when the model call raises or the count of lines differs; otherwise each event is rewritten as RewriteAll says |
| Captions.PreviewWords | app/captions.py:138-147 | at most the input's words, each starting within [0, preview_duration] |
| Captions.PreviewMembers | app/captions.py:138-147 | a word is in the preview exactly when it is the shift of an input word that starts inside the window |
| Captions.PreviewAllInside | app/captions.py:139-147 | when every word starts inside the window, the preview is every word shifted, in order |
| Captions.StepBreak | app/captions.py:153-158 | a pause of more than 0.8 s closes the open span, and the word opens the next one |
| Captions.StepJoin | app/captions.py:157-158 | with no pause the word joins the open span |
| Captions.StepFirst | app/captions.py:149-151 | the first word opens the first span |
| Captions.GroupKaraoke | app/captions.py:148-160 | the spans hold every word exactly once, in order; each span runs from its first word's start to its last word's end with no pause inside; consecutive spans are separated by a pause; no words, no spans |
| Captions.DurCentis | app/captions.py:189 | at least 1, and the rounded length in centiseconds whenever the word lasts 0.015 s or more |
| Captions.PiecesAt | app/captions.py:187-193 | piece k of an event is the piece of word k |
| Captions.Dialogue | app/captions.py:171-173 | "Dialogue: 0,", the start time, ",", the end time, ",Default,,0,0,0,," and the text; both time fields read back as the event's times |
| Captions.KaraokeEvent | app/captions.py:184-195 | the loop gives exactly the event of the span: its pieces joined by spaces, from its start to its end |
| Captions.ClipSegment | app/captions.py:165-169 | None exactly when the segment lies wholly outside the window; otherwise times within [0, duration], unclipped ends shifted by the window start |
| Captions.SegmentLinesAll | app/captions.py:161-173 | without a window every segment gives one event with its own times and escaped text |
| Captions.SegmentEvents | app/captions.py:161-173 | the loop gives exactly the shown segments' events, at most one per segment |
| Captions.KaraokeLines | app/captions.py:152-160 | one karaoke event per span, in order |
| Captions.BuildEvents | app/captions.py:136-173 | the words are cut to the preview window first; when words remain they are grouped into karaoke events, otherwise each shown segment gives one event |
| Ass.AssTimeAsWritten | app/captions.py:8-14 | as written: minutes and seconds below 60, centiseconds up to 100, and the fields within half a centisecond of the clamped time |
| Ass.FieldsAsWritten | app/captions_autofix.py:224-230 | the field arithmetic of _format_ass_time gives minutes and seconds below 60 and centiseconds in [0, 100] |
| Ass.AssTimeOf | app/captions.py:8-14 | the intended fields: minutes and seconds below 60, centiseconds below 100, within half a centisecond of the clamped time |
| Ass.Pad2 | app/captions.py:14 | the digits of n, two of them below 100 and three from 100 to 999 |
| Ass.RenderParse | app/captions.py:14 | rendering fields as H:MM:SS.cc and reading them back gives the fields |
| Ass.FormatParse | app/captions.py:8-14 | the intended time reads back as its fields, with a two-digit centisecond part |
| Ass.CentisOverflow | app/captions.py:13 | 59.996 s gives the fields 0:00:59 and 100 centiseconds as written, a three-digit field, where the intended time is 0:01:00.00 |
| Ass.EscapeEscapes | app/captions.py:18 | replacing a brace by backslash-brace escapes every such brace |
| Ass.StripKeepsEscaped | app/captions.py:18 | stripping keeps every brace escaped |
| Ass.EscapeAssEscapes | app/captions.py:17-18 | escaped text has no newline, and every brace in it is escaped |
| JsonText.JsonSpanNone | app/llm.py:33-37 | no object is found exactly when a brace is missing or the last `}` comes before the first `{` |
| JsonText.JsonSpanShape | app/llm.py:34-38 | a found span starts with `{`, ends with `}`, lies inside the reply, with no `{` before it and no `}` after it |
| JsonText.JsonSpanOf | app/captions_autofix.py:237-243 | text without `{` before an object and without `}` after it yields exactly that object |
| BeatsEditor.BeatsStore.constructor | app/beats_editor.py:20-51 | a fresh store has no rows, no files and no job directories |
| BeatsEditor.BeatsStore.GetBeats | app/beats_editor.py:20-51 | a stored row wins; with no row and no file the beats are empty; it fails exactly when there is no row and the script file does not parse |
| BeatsEditor.BeatsStore.UpdateBeats | app/beats_editor.py:54-83 | the voiceover joins the non-empty beat texts; the row is replaced; the file is rewritten only when the job directory exists, keeping the old hook and title unless new ones are given; reading afterwards returns the new beats |
| Sorting.InsertPos | app/captions_report.py:67 | the insertion point comes after every key not larger and before every larger key, so equal keys keep their order |
| Sorting.InsertBy | app/captions_report.py:67 | inserting keeps the sequence sorted and adds exactly the one element |
| Sorting.SortBy | app/captions_report.py:67 | the result is a sorted permutation of the input |
| Sorting.SortSorted | app/captions_report.py:67 | sorting an already sorted sequence leaves it unchanged (stability) |
| Models.DefaultRequest | app/models.py:24-30 | a request with a topic of at least three characters and the default fields is well formed |
| Models.VoiceoverWords | app/optimization.py:191-193 | splitting the joined voiceover gives back the non-empty beat texts |
| Models.WithHook | app/optimization.py:187-193 | the hook is set, the first beat's text and on-screen text become the hook, the other beats are unchanged and the voiceover is re-joined |
| Models.WithHookTwice | app/quality_gates.py:37-44 | setting a hook twice is the same as setting the second one |
| Text.TrimLeftSpec | app/llm.py:100-101 | `strip` from the left drops only whitespace and stops at the first non-whitespace character |
| Text.StripTwice | app/llm.py:100-101 | stripping is idempotent |
| Text.WordsOfJoin | app/captions_autofix.py:193-203 | splitting words joined by single spaces gives the words back |
| Text.Find | app/llm.py:34 | `find` returns -1 exactly when the character is absent, otherwise its first position |
| Text.RFind | app/llm.py:35 | `rfind` returns -1 exactly when the character is absent, otherwise its last position |
| Text.NatToStringValue | app/captions.py:13 | the decimal rendering of a number reads back as that number |
| Pipeline.NormalizeDuration | app/pipeline.py:33-38 | the target is the requested duration, or the probed voice duration when that is longer; never below either positive one |
| Pipeline.WindowMembers | app/pipeline.py:218-222 | a time is in the preview window exactly when some beat time inside the window, shifted by the window start, equals it; every such time lies in 0..duration |
| Pipeline.WindowAscending | app/pipeline.py:218-222 | shifting ascending beat times into the window keeps them ascending |
| Pipeline.WindowKeepsAll | app/pipeline.py:216-222 | when every time lies in the window, all of them are kept, each shifted by the start |
| Pipeline.MissingNamesSkippedStage | app/pipeline.py:105-300 | the run stops with a missing-file error exactly when a skipped step's artifact is absent, and the error names the first such step |
| Pipeline.AllStepsNeedNothing | app/pipeline.py:62 | with no steps given, all four run and nothing needs to be on disk |
| Pipeline.ExpectedAgrees | app/pipeline.py:216-320 | the expected validation duration is bound exactly when the render step is listed or preview mode is off, and then equals the intended value |
| Pipeline.PreviewWithoutRenderUnbound | app/pipeline.py:217-319 | a preview run with the render step skipped reaches validation with no preview duration bound |
| Pipeline.PlannedScriptVoice | app/pipeline.py:70-147 | script generation and the hook gate are called exactly when the script step runs (the gate only when enabled); voice synthesis exactly when the voice step runs |
| Pipeline.PlannedCaptions | app/pipeline.py:156-185 | transcription runs exactly when the captions step runs, and the caption gate only when it is also enabled |
| Pipeline.PlannedRender | app/pipeline.py:215-310 | the editor renders exactly when the render step runs, always with the chosen subtitles and target; thumbnails only for a non-preview render |
| Pipeline.PreviewRenderTimes | app/pipeline.py:216-279 | in preview mode every beat, zoom and shake time passed to the editor is a source time inside the window shifted to 0..preview duration |
| Pipeline.PlannedEndsWithValidation | app/pipeline.py:316-333 | the run always ends by validating the output against the expected duration; the virality score follows only when validation passes outside preview mode |
| Pipeline.PipelineRun.constructor | app/pipeline.py:49-61 | a run starts from the given job state and disk with no calls made |
| Pipeline.PipelineRun.Update | app/pipeline.py:26-30 | sets the progress and appends a non-empty message to the log |
| Pipeline.PipelineRun.ScriptStage | app/pipeline.py:70-133 | the script step's calls and writes happen when it runs; without it a missing or unreadable script.json is an error |
| Pipeline.PipelineRun.VoiceStage | app/pipeline.py:135-147 | progress 15 is logged, the voice is synthesised when the step runs, and a missing voice.wav is an error otherwise |
| Pipeline.PipelineRun.CaptionsStage | app/pipeline.py:155-185 | transcription, subtitles and autofix when the step runs, with progress 60 or 62; a missing subtitles.ass is an error otherwise |
| Pipeline.PipelineRun.RenderStage | app/pipeline.py:214-310 | the render and thumbnail calls when the step runs; a missing output is an error otherwise |
| Pipeline.PipelineRun.Finish | app/pipeline.py:316-333 | validation decides the outcome: progress 100 and "Done." when it passes, progress 99 and the failure message otherwise |
| Pipeline.PipelineRun.Run | app/pipeline.py:49-334 | a missing template fails before anything happens; a missing artifact fails with FileNotFoundError; otherwise exactly the planned calls are made and the run succeeds iff validation passes, returning the output file |
| Pipeline.PipelineRun.Staged | app/pipeline.py:70-334 | the calls made are always a prefix of the plan, the whole plan when nothing is missing, and success means the output exists with "Done." logged |
| Pipeline.PipelineRun.Front | app/pipeline.py:70-147 | the script and voice stages stop at the first missing artifact and otherwise make exactly their planned calls |
| Pipeline.PipelineRun.Later | app/pipeline.py:155-334 | captions, background, render and finish stop at the first missing artifact and otherwise make exactly their planned calls |
| Pipeline.PipelineRun.Middle | app/pipeline.py:191 | logs progress 70 and selects the background clip |
| Pipeline.AfterVoice | app/pipeline.py:155-334 | the stages after the voice fail exactly where the whole run's first missing artifact says, and complete the plan otherwise |
| Pipeline.PlanPrefixes | app/pipeline.py:70-334 | the plan is the concatenation of the stages' calls in source order |
| GenerationStrategy.Estimates | app/generation_strategy.py:118-119 | one virality estimate per candidate, in order |
| GenerationStrategy.EarliestBest | app/generation_strategy.py:128-129 | the chosen index holds a maximal score and no earlier index has that score (a later tie does not replace it) |
| GenerationStrategy.EarliestMaxUnique | app/generation_strategy.py:128-129 | the earliest maximum is unique, so the selection is determined by the scores |
| GenerationStrategy.SelectBestCandidate | app/generation_strategy.py:112-133 | no candidates raise ValueError; otherwise the one-based selected index is the earliest best score, the chosen script is that candidate, and every candidate is reported with its score |
| GenerationStrategy.FirstFresh | app/generation_strategy.py:217-228 | the first hook whose stripped text is non-empty, not banned and not used, and none before it is; none exactly when no hook qualifies |
| GenerationStrategy.SelectHookFirstFresh | app/generation_strategy.py:217-228 | the top hooks are tried before the others; the fallback is returned exactly when no hook qualifies |
| GenerationStrategy.SeedFor | app/generation_strategy.py:98-99 | candidate idx gets seed + idx, and no seed when none was given |
| GenerationStrategy.CandidatesSpec | app/generation_strategy.py:86-109 | candidate generation succeeds iff every call succeeds, giving the scripts in order; otherwise the first failure's error propagates |
| GenerationStrategy.CandidatesErrSticks | app/generation_strategy.py:96-109 | after a failure no later candidate changes the outcome |
| GenerationStrategy.GenerateCandidates | app/generation_strategy.py:86-109 | the loop computes the candidate specification |
| GenerationStrategy.KeepAllowed | app/generation_strategy.py:177 | keeps exactly the candidates campaign memory allows |
| GenerationStrategy.Kept | app/generation_strategy.py:176-181 | with memory and some allowed candidate only allowed ones remain; otherwise all candidates remain |
| GenerationStrategy.RetryBounds | app/generation_strategy.py:196-209 | one to three generations; a single one without memory; the result is the last call's; every earlier call was rejected by memory; an early stop means the script is allowed |
| GenerationStrategy.RetrySkip | app/generation_strategy.py:196-209 | rejected attempts only lead to the next one |
| GenerationStrategy.GenerateWithRetries | app/generation_strategy.py:194-209 | the loop computes the retry specification |
| GenerationStrategy.FromCandidates | app/generation_strategy.py:165-192 | a generation error propagates; otherwise the earliest best of the kept candidates is chosen, and the violation note is set exactly when memory rejects them all |
| GenerationStrategy.RunGenerationStrategy | app/generation_strategy.py:136-214 | the hook pool is reported with the memory-selected hook under hook-first mode; candidate selection or the retry loop decides the script; the violation note is set exactly as the source sets it |
| Llm.ExtractJson | app/llm.py:33-39 | fails with ValueError exactly when a brace is missing or the last `}` precedes the first `{`; otherwise the payload runs from the first `{` to the last `}` |
| Llm.NeedsRetime | app/llm.py:111-117 | retiming is needed exactly when the beat times are not non-negative and strictly increasing |
| Llm.RetimedWellTimed | app/llm.py:118-121 | retimed beats sit at index × 2.2 seconds, strictly increasing, with every other field unchanged |
| Llm.RetimeAll | app/llm.py:118-121 | the loop computes the retimed beats |
| Llm.ConvertedStripped | app/llm.py:93-106 | converted beats have stripped text and on-screen text |
| Llm.ConvertedAsRaw | app/llm.py:93-106 | converting beats that are already clean gives them back unchanged |
| Llm.ConvertBeats | app/llm.py:93-106 | the loop computes the conversion of the raw beats, skipping the malformed ones |
| Llm.NormalizedBeatsSpec | app/llm.py:107-121 | the normalised beats are never empty and always well timed: the hook-or-title fallback beat when nothing converts, the converted beats when already well timed, and otherwise the same texts retimed |
| Llm.NormalizedBeatsStable | app/llm.py:92-121 | normalising already normalised beats changes nothing |
| Llm.NormalizeScript | app/llm.py:92-129 | the method computes the normalised script, filling an empty voiceover and keywords |
| Llm.ApplySafeRewrites | app/llm.py:132-138 | the loop replaces each forbidden word present by its safe rewrite, or by nothing |
| Llm.RewrittenClean | app/llm.py:134-137 | text containing no forbidden word is returned unchanged |
| Llm.RewrittenIdentity | app/llm.py:134-137 | words that rewrite to themselves leave the text unchanged |
| Llm.RewriteScript | app/llm.py:212-230 | rewriting keeps the number of beats, their times, their emphasis and the keywords |
| Llm.ForcedHookKept | app/llm.py:204-230 | a forced hook without forbidden words survives the rewrites as the hook and as the first beat's text and on-screen text, and beat times are kept |
| Llm.Backends | app/llm.py:148-150 | the configured backend comes first, with transformers as a second only after llama_cpp |
| Llm.Paths | app/llm.py:152 | the given model paths, or one default path when none are given |
| Llm.TriesLength | app/llm.py:154-155 | every backend is tried with every path |
| Llm.TriesMembers | app/llm.py:154-155 | a backend and path are tried exactly when both are listed |
| Llm.TriesFirst | app/llm.py:154-155 | all paths of the first backend come before any other backend |
| Llm.FirstOk | app/llm.py:154-164 | the first successful attempt; none exactly when every attempt fails |
| Llm.OutcomeFirstOk | app/llm.py:154-165 | the loop's outcome is the first success, or the last failure when all fail |
| Llm.OutcomeSettled | app/llm.py:157-160 | once an attempt succeeds, later attempts cannot change the outcome |
| Llm.SettleSpec | app/llm.py:154-165 | the first success is returned; otherwise RuntimeError carrying the last error |
| Llm.TryPaths | app/llm.py:155-164 | the inner loop over paths computes the specified outcome |
| Llm.TryInOrder | app/llm.py:154-165 | the nested loops compute the settled outcome over all tries in order |
| Llm.GenerateText | app/llm.py:141-165 | text generation returns the first backend/path that answers, otherwise "Failed to generate text" with the last error |
| Llm.UnknownBackendFails | app/llm.py:158-165 | an unknown configured backend always fails with a RuntimeError naming it |
| Llm.GenerateScript | app/llm.py:168-238 | script generation settles the attempts over all tries in order, failing with "Failed to generate script" and the last error |
| Llm.ScriptAttemptSpec | app/llm.py:194-233 | a successful attempt came from a known backend whose reply, after at most one JSON retry, parsed and normalised, and is the plugins' result on the hook-forced, rewritten script; an unknown backend fails |
| Editor.FilterPathRoundTrip | app/utils.py:48-50 | ffmpeg's filter parser reads an escaped path back as the path with backslashes turned into slashes; a path with neither character is unchanged |
| Editor.ReplaceEscapedSpec | app/utils.py:50 | escaping the colons of a backslash-free path is undone by the filter parser |
| Editor.Punches | app/editor.py:113-117 | one punch for each of the first 24 zoom beats |
| Editor.ShakeTerms | app/editor.py:128-135 | one shake term for each of the first 20 shake beats |
| Editor.VideoFiltersShape | app/editor.py:99-149 | scale, zoompan with base zoom 1 + 0.02 × drift and at most 24 punches of 0.35 s, a shaking crop exactly when the shake strength is positive and there are shake beats (at most 20 terms of 0.25 s, at least 1 px) or the plain crop, setsar, and the subtitles filter last |
| Editor.BuildVideoFilters | app/editor.py:99-149 | the punch loop and the rest of the chain compute the filter text |
| Editor.UniformBetween | app/editor.py:461-471 | a uniform draw between two bounds stays between them |
| Editor.Candidates | app/editor.py:462 | the hotspot candidates are exactly the dict entries |
| Editor.PickHotspotStartBounds | app/editor.py:454-473 | the chosen start never leaves 0..max_start |
| Editor.HotspotWindowInside | app/editor.py:465-472 | a chosen hotspot longer than the target that fits the clip yields a start whose whole window lies in the hotspot |
| Editor.TrimCoversTarget | app/editor.py:50-70 | the clip is trimmed exactly when its probed duration is positive, longer than the target and the mode is not single_clip_loop; a trimmed window always covers the whole target inside the clip |
| Editor.SelectMusicBed | app/editor.py:73-83 | "none" or no music files give no bed; "random" picks one of the files; a named bed is used exactly when it exists |
| Editor.BeatSfx | app/editor.py:266-275 | each beat gets a whoosh when there are any, and a boom when there are any and its index is a multiple of 3 |
| Editor.ThirdBeatsClosed | app/editor.py:272 | beats 0, 3, 6, … make ceil(n / 3) booms |
| Editor.SfxCount | app/editor.py:263-275 | one whoosh per beat and one boom per third beat, when the pack has them |
| Editor.InputArgsAt | app/editor.py:269-274 | sound effect k is passed as "-i" followed by its file |
| Editor.IndexedAt | app/editor.py:255-275 | sound effects are numbered consecutively from the first free input, in argument order, each with its beat's delay in milliseconds |
| Editor.AddBeatSfx | app/editor.py:267-275 | one beat's iteration adds its specified inputs and indices |
| Editor.AddSfx | app/editor.py:262-275 | the sound-effect loop adds every beat's inputs, numbered from the first free input |
| Editor.AddInputs | app/editor.py:255-275 | music, when chosen, is input 2 and the sound effects follow |
| Editor.IndexOf | app/editor.py:357 | `list.index`: the first position holding the value |
| Editor.WithVf | app/editor.py:355-360 | only the value after the first "-vf" and the last argument change; the length is kept |
| Editor.WithVfTwice | app/editor.py:355-360 | patching a patched command again equals patching the original with the later values |
| Editor.MainArgsVf | app/editor.py:247-334 | the main command has a "-vf" whose position is fixed by the background and inputs |
| Editor.MainArgsPatch | app/editor.py:308-360 | patching the main command gives the main command with the new filters and output and nothing else changed |
| Editor.Ladder | app/editor.py:398-404 | render_video hands exactly five attempts to run_attempts |
| Editor.LadderShape | app/editor.py:335-404 | the attempts are primary, simple, plain, plain_then_subs and fps_normalized in that order; each ends by writing the output; each after the first reruns the main command changing only the filters and the output; plain_then_subs renders to render_plain.mp4 and burns the subtitles from it |
| Editor.RungFailureSpec | app/editor.py:368-392 | an attempt fails exactly when one of its commands fails |
| Editor.Attempts | app/editor.py:398-405 | each attempt carries its name and the failure of its commands |
| Editor.InputsNoVf | app/editor.py:247-275 | no input argument reads "-vf" when no file name does |
| Editor.RunAttemptsRunsLadder | app/ffmpeg_fallbacks.py:6-24 | the generic fallback runner, applied to the five attempts, ends as the ladder specifies |
| Editor.BuildMainArgs | app/editor.py:244-334 | the main command is assembled from the inputs, the filters and the tail, and has a patchable "-vf" |
| Editor.RunLadder | app/editor.py:405 | running the attempts ends in the first attempt all of whose commands succeed (every earlier one failed), or the last attempt's error when all fail, with the log of the attempts made |
| Editor.RenderVideo | app/editor.py:176-405 | render_video builds the main command and runs the fallback ladder to the outcome RunLadder states |
| HfTypes.DefaultConfig | hf_t2v_hunter/hf_t2v_hunter/types.py:9-32 | the defaults are strict VRAM without over-VRAM, diffusers required and NSFW off, with weights for exactly downloads, likes, recency and quality |
| HfTypes.WeightFileIgnoresCase | hf_t2v_hunter/hf_t2v_hunter/types.py:69 | two names that lower to the same text are both weight files or neither: the extension match ignores case |
| HfTypes.WeightFiles | hf_t2v_hunter/hf_t2v_hunter/types.py:68-69 | every file it keeps is a sibling with a weight extension |
| HfTypes.TotalWeightBytes | hf_t2v_hunter/hf_t2v_hunter/types.py:57-71 | 0 when no sibling has a weight extension, so 0 for no siblings; never negative when no size is |
| HfTypes.TotalIsSumOfWeightFiles | hf_t2v_hunter/hf_t2v_hunter/types.py:67-71 | the total is the sum of the sizes of exactly the siblings with a weight extension |
| HfTypes.TotalWeightAppend | hf_t2v_hunter/hf_t2v_hunter/types.py:67-71 | the total over two lists of files is the sum of their totals |
| HfTypes.TotalWeightStep | hf_t2v_hunter/hf_t2v_hunter/types.py:68-70 | one more sibling adds its size exactly when its name has a weight extension |
| HfTypes.NonWeightAddsNothing | hf_t2v_hunter/hf_t2v_hunter/types.py:69-70 | a file without a weight extension changes the total nowhere in the list |
| HfVram.ContainsAnyWitness | hf_t2v_hunter/hf_t2v_hunter/vram_estimator.py:111-115 | `_contains_hint` holds exactly when some hint occurs in the text |
| HfVram.ReasonsSpec | hf_t2v_hunter/hf_t2v_hunter/vram_estimator.py:61-75 | each reason code is in the list exactly when its condition holds; nothing else is; the list is empty exactly when no condition holds; a VRAM code is present exactly when one of the four VRAM conditions holds |
| HfVram.ReasonsNoDup | hf_t2v_hunter/hf_t2v_hunter/vram_estimator.py:61-75 | no reason code is appended twice |
| HfVram.EstimateVramReasons | hf_t2v_hunter/hf_t2v_hunter/vram_estimator.py:55-75 | weights_too_large iff the weights exceed max_model_size_gb unquantized; requires_high_vram_hint iff a high hint occurs; heavy_architecture iff a heavy family occurs with no low-VRAM hint and no quantization; not_diffusers_compatible iff not diffusers; unknown_requirements iff no weight bytes and no readme; no other code, none twice |
| HfVram.EstimateVramVerdict | hf_t2v_hunter/hf_t2v_hunter/vram_estimator.py:59-98 | required_gb is 1.5 times the weight size when there are weights and None otherwise; the hints gain "quantized" exactly for quantized files; compatible iff neither strict mode (without allow_over_vram) meets a VRAM condition nor require_diffusers meets a non-diffusers model |
| HfVram.QuantizedLargeCompatible | hf_t2v_hunter/tests/test_vram_estimator.py:33-38 | a quantized diffusers model with weights and no high-VRAM hint is compatible with no reasons, however large, and is hinted "quantized" |
| HfVram.StrictRejectsVramReason | hf_t2v_hunter/hf_t2v_hunter/vram_estimator.py:80-88 | strict mode without allow_over_vram rejects a model with any VRAM reason code |
| HfVram.TooLargeUnquantized | hf_t2v_hunter/hf_t2v_hunter/vram_estimator.py:61-62 | unquantized weights over the size limit add weights_too_large, which strict mode rejects |
| HfFilters.HardCodesApart | hf_t2v_hunter/hf_t2v_hunter/filters.py:53-91 | no hard-filter code is a VRAM code or not_diffusers_compatible |
| HfFilters.HardReasons | hf_t2v_hunter/hf_t2v_hunter/filters.py:49-82 | every hard reason is one of the nine hard-filter codes |
| HfFilters.FileNames | hf_t2v_hunter/hf_t2v_hunter/filters.py:84 | one name per sibling, in order |
| HfFilters.OnlyIn | hf_t2v_hunter/hf_t2v_hunter/filters.py:92 | a reason is kept exactly when it is in the estimate and is a VRAM code |
| HfFilters.DropVramReasons | hf_t2v_hunter/hf_t2v_hunter/filters.py:92-100 | removing each VRAM reason with `list.remove` leaves the hard reasons followed by the estimate's reasons that are not VRAM codes |
| HfFilters.FilterAndEstimate | hf_t2v_hunter/hf_t2v_hunter/filters.py:48-108 | the verdict, reasons and estimate are FilterVerdict's: compatible iff (allow_over_vram or the estimate allows it) and no hard reason and not rejected by require_diffusers |
| HfFilters.ScreenAll | hf_t2v_hunter/hf_t2v_hunter/filters.py:111-125 | one entry per model, in order, each with score 0, no reasons, the estimate, and filtered out exactly when not compatible |
| HfFilters.ApplyFilters | hf_t2v_hunter/hf_t2v_hunter/filters.py:111-125 | the loop builds exactly ScreenAll's list |
| HfFilters.MissingLicenseBlocks | hf_t2v_hunter/hf_t2v_hunter/filters.py:70-73 | a model without a license is incompatible, with missing_license among its reasons |
| HfFilters.NsfwBlocked | hf_t2v_hunter/hf_t2v_hunter/filters.py:66-68 | an NSFW tag, in any case, makes the model incompatible with nsfw_blocked unless allow_nsfw |
| HfFilters.HardReasonBlocks | hf_t2v_hunter/hf_t2v_hunter/filters.py:102-103 | any hard reason makes the model incompatible, whatever allow_over_vram says |
| HfFilters.OverVramDropsVramCodes | hf_t2v_hunter/hf_t2v_hunter/filters.py:95-106 | with allow_over_vram no VRAM code is left among the reasons, and the model is compatible iff no hard reason fired and require_diffusers does not reject it |
| HfFilters.RequireDiffusersBlocks | hf_t2v_hunter/hf_t2v_hunter/filters.py:105-106 | require_diffusers rejects a model whose estimate says not_diffusers_compatible |
| HfCli.Entry | hf_t2v_hunter/hf_t2v_hunter/cli.py:19-26 | an item without "=" is skipped; otherwise the key is the stripped text before the first "=" and the value is float() of the rest |
| HfCli.ParseWeights | hf_t2v_hunter/hf_t2v_hunter/cli.py:17-27 | the loop builds exactly the dict Weights describes |
| HfCli.SkippedItem | hf_t2v_hunter/hf_t2v_hunter/cli.py:20-26 | an item without "=" or with a value float() rejects leaves the dict unchanged |
| HfCli.LaterOverrides | hf_t2v_hunter/hf_t2v_hunter/cli.py:24 | an item that parses sets its key to its value over any earlier one, and no other key changes |
| HfCli.KeysStripped | hf_t2v_hunter/hf_t2v_hunter/cli.py:22-24 | every key of the dict is stripped |
| HfCli.KeysFromItems | hf_t2v_hunter/hf_t2v_hunter/cli.py:19-24 | every key comes from an item that parses |
| HfCli.LastWins | hf_t2v_hunter/hf_t2v_hunter/cli.py:18-27 | a key's value is that of the last item that parses to the key |
| HfScoring.Normalize | hf_t2v_hunter/hf_t2v_hunter/scoring.py:56-59 | 0 when max_value <= 0; never above 1; not negative when log1p(value) is not; exactly 1 when log1p(value) reaches log1p(max_value) |
| HfScoring.NormalizeTop | hf_t2v_hunter/hf_t2v_hunter/scoring.py:18-24 | the unfiltered model with the most downloads (or likes) normalises to 1 |
| HfScoring.NormalizeMonotone | hf_t2v_hunter/hf_t2v_hunter/scoring.py:59 | a larger count never normalises lower, for a monotone log1p |
| HfScoring.RecencyOfDays | hf_t2v_hunter/hf_t2v_hunter/scoring.py:68-72 | in [0.2, 1]; 1 up to 30 days; 0.2 past 30 days once recency_days is reached |
| HfScoring.RecencyMonotone | hf_t2v_hunter/hf_t2v_hunter/scoring.py:67-72 | an older model never scores higher on recency |
| HfScoring.RecencyScore | hf_t2v_hunter/hf_t2v_hunter/scoring.py:62-72 | in [0.2, 1]; 0.2 without a modification time; 1 when it is less than 31 days old |
| HfScoring.QualityScore | hf_t2v_hunter/hf_t2v_hunter/scoring.py:75-102 | in [0, 1]; 1 when all six checks pass, 0 when none does; at most four reasons |
| HfScoring.QualityReasonsSpec | hf_t2v_hunter/hf_t2v_hunter/scoring.py:80-94 | each quality reason is given exactly when its check passes |
| HfScoring.GradeSpec | hf_t2v_hunter/hf_t2v_hunter/scoring.py:105-110 | strong exactly from 0.9, solid exactly in [0.6, 0.9), weak exactly below 0.6 |
| HfScoring.BuildReason | hf_t2v_hunter/hf_t2v_hunter/scoring.py:105-110 | a single reason that starts with the component's name and adds a grade to it |
| HfScoring.Penalized | hf_t2v_hunter/hf_t2v_hunter/scoring.py:42-48 | a penalty never leaves the score below 0; penalties never raise it; no penalty keeps it; both take 25 points from a score of at least 25 |
| HfScoring.ScoreReasonsSpec | hf_t2v_hunter/hf_t2v_hunter/scoring.py:37-48 | each penalty reason is present exactly when its penalty applies, after the three grades and the quality reasons |
| HfScoring.DefaultWeights | hf_t2v_hunter/hf_t2v_hunter/types.py:25-32 | the default weights are non-negative and sum to exactly 1 |
| HfScoring.TotalBounds | hf_t2v_hunter/hf_t2v_hunter/scoring.py:28-34 | components in [0, 1] under non-negative weights summing to at most 1 give a total in [0, 1] |
| HfScoring.ScoreBounds | hf_t2v_hunter/hf_t2v_hunter/scoring.py:21-48 | under such weights every score lies in [0, 100] |
| HfScoring.ApplyPenalties | hf_t2v_hunter/hf_t2v_hunter/scoring.py:42-48 | the score is Penalized's and each applying penalty appends its reason in order |
| HfScoring.ScoreOne | hf_t2v_hunter/hf_t2v_hunter/scoring.py:22-51 | one loop pass gives the score and reasons ItemScore describes |
| HfScoring.Unfiltered | hf_t2v_hunter/hf_t2v_hunter/scoring.py:14 | only entries not filtered out, from the input; empty exactly when every entry is filtered out |
| HfScoring.Rescored | hf_t2v_hunter/hf_t2v_hunter/scoring.py:21-51 | a filtered-out entry is untouched; any entry keeps its model, estimate and flag |
| HfScoring.RescoreAll | hf_t2v_hunter/hf_t2v_hunter/scoring.py:21-51 | the in-place loop rescores each unfiltered entry where it stands |
| HfScoring.NothingKept | hf_t2v_hunter/hf_t2v_hunter/scoring.py:14-16 | with no unfiltered entry the list comes back unchanged |
| HfScoring.RankedByScore | hf_t2v_hunter/hf_t2v_hunter/scoring.py:11-53 | otherwise the result has every entry, sorted by score highest first, and each filtered-out entry is in it unchanged |
| HfScoring.RankModels | hf_t2v_hunter/hf_t2v_hunter/scoring.py:11-53 | rank_models returns Ranking: the screened list, rescored and stably sorted by score descending |
| HfDownloader.SelectedSpec | hf_t2v_hunter/hf_t2v_hunter/downloader.py:40 | only the first top_n unfiltered models are considered, in order |
| HfDownloader.DownloadModels | hf_t2v_hunter/hf_t2v_hunter/downloader.py:34-91 | the loop builds exactly the report Planned describes for the selected models |
| HfDownloader.OverBudgetSkipped | hf_t2v_hunter/hf_t2v_hunter/downloader.py:43-47 | a model whose projected total exceeds max_disk_gb is skipped with max_disk_gb_exceeded, and nothing else changes |
| HfDownloader.FailedDownloadSkipped | hf_t2v_hunter/hf_t2v_hunter/downloader.py:51-60 | a failed download is skipped with the exception's text; the downloads and total_bytes are unchanged |
| HfDownloader.TotalIsSumOfDownloads | hf_t2v_hunter/hf_t2v_hunter/downloader.py:81-91 | total_bytes is the sum of the downloaded sizes |
| HfDownloader.EveryItemAccounted | hf_t2v_hunter/hf_t2v_hunter/downloader.py:41-89 | every selected model ends up downloaded or skipped, once |
| HfDownloader.WithinBudget | hf_t2v_hunter/hf_t2v_hunter/downloader.py:43-89 | once anything is downloaded, total_bytes stays within max_disk_gb |
| HfDownloader.DownloadedFromItems | hf_t2v_hunter/hf_t2v_hunter/downloader.py:49-88 | every downloaded entry is a selected model, with its weight size, the path the hub gave and its model_info.json beside it |
| Utils.GenerateJobId | app/utils.py:10-11 | a job id is the first 12 lower-case hex digits of the UUID |
| Utils.Clamp | app/utils.py:77-78 | the result is at least minimum and, when minimum <= maximum, at most maximum; a value in range is unchanged, one below is raised to minimum, one above is lowered to maximum |
| Utils.ClampIdempotent | app/utils.py:77-78 | clamping an already clamped value changes nothing |
| Utils.ClampMonotone | app/utils.py:77-78 | clamping keeps the order of its inputs |
| Tts.BuildAtempo | app/tts.py:8-20 | the two loops build exactly the chain Atempo describes: empty within 0.01 of speed 1, otherwise the parts joined by commas |
| Tts.FactorsSpec | app/tts.py:11-19 | every atempo factor lies in [0.5, 2.0], the range of one filter, and the factors multiply to the speed |
| Tts.PartLabels | app/tts.py:13-19 | the parts and the factors match one to one: every part but the last is the literal atempo=2.0 or atempo=0.5 of its factor, and the last is the formatted remainder |
| Tts.OneDirection | app/tts.py:13-18 | only one of the two loops appends: the chain's fixed parts are all 2.0 or all 0.5 |
| Tts.InRangeSingleFilter | app/tts.py:9-20 | a speed in [0.5, 2.0] that is not within 0.01 of 1 is one filter, atempo with the speed formatted |
| EnvUtils.EscapeByChar | app/env_utils.py:51 | the two chained replaces escape each backslash and each double quote on its own; the backslash the quote's escape adds is not doubled |
| EnvUtils.EscapeRoundTrip | app/env_utils.py:51 | a reader that takes the character after each backslash literally gets the escaped value back |
| EnvUtils.FormatEnvValue | app/env_utils.py:45-52 | the empty value and a value without whitespace, "#" or ";" are written unchanged; any other value is wrapped in double quotes, and the text between them unescapes to the value |
| EnvUtils.SplitLines | app/env_utils.py:23 | no line splitlines returns holds a line break |
| EnvUtils.SplitJoined | app/env_utils.py:23-42 | the text written ("\n".join(lines) + "\n") reads back through splitlines as the same lines, when there is at least one line and no line holds a break |
| EnvUtils.Existing | app/env_utils.py:24-31 | each key of `existing` indexes a line of the file that assigns that key |
| EnvUtils.ExistingIsLast | app/env_utils.py:24-31 | every key the file assigns is in `existing`, at its last assignment |
| EnvUtils.WriteEnv | app/env_utils.py:19-42 | the two loops write exactly WrittenText: the file's lines, rewritten by the updates, joined by newlines with a final one |
| EnvUtils.RewriteClosedForm | app/env_utils.py:35-40 | the updates loop gives the file's lines, each targeted one replaced by its update's line, followed by the lines of the keys the file did not assign |
| EnvUtils.RewrittenSpec | app/env_utils.py:24-40 | lines that assign no updated key are kept in place (blanks, comments and lines without "=" among them); the last assignment of an updated key becomes key=formatted value; the other updates are appended after the file's lines, and nothing else is appended |
| EnvUtils.WrittenReadsBack | app/env_utils.py:23-42 | with no line break in the keys and values, the file written reads back as the rewritten lines |
| EnvUtils.AppliedSpec | app/env_utils.py:12-16 | after the updates, a key with an empty value is absent from os.environ, a key with a value holds it, and every other variable is unchanged |
| EnvUtils.AppliedIdempotent | app/env_utils.py:12-16 | applying the same updates to os.environ twice is applying them once |
| EnvUtils.Env.ApplyEnvUpdates | app/env_utils.py:8-16 | empty updates change neither the file nor os.environ; otherwise the file holds WrittenText and os.environ the applied updates |
| Downloads.ReplaceRuns | app/downloads.py:13 | the substitution leaves only characters of [A-Za-z0-9._-], and changes nothing in text made of them alone |
| Downloads.SanitizeName | app/downloads.py:12-15 | the name is non-empty, at most 80 characters, made of [A-Za-z0-9._-] only, and does not start with "-" |
| Downloads.SanitizeFixed | app/downloads.py:12-15 | a name that is already clean (non-empty, at most 80 allowed characters, no "-" at either end) is kept as it is |
| Downloads.SanitizeFallback | app/downloads.py:13-14 | text with no letter, digit, "." or "_" becomes "model" |
| Downloads.PathName | app/downloads.py:20 | Path(...).name is a single component: no "/" in it, and never "." |
| Downloads.PathNameTrailingSlash | app/downloads.py:20 | a trailing "/" does not change the name |
| Downloads.PathNameLast | app/downloads.py:20 | the name of dir/name is name |
| Downloads.StemSuffix | app/downloads.py:41 | a name is its stem followed by its suffix, and a non-empty name has a non-empty stem |
| Downloads.FilenameFromUrl | app/downloads.py:18-23 | the file name is non-empty and has no "/": the last component of the URL's path, or "file.bin" when the path has none |
| Downloads.ValidateUrl | app/downloads.py:26-29 | a URL passes exactly when its scheme is http or https; otherwise ValueError names the scheme |
| Downloads.ValidateUrlCases | app/downloads.py:26-29 | http:// and https:// URLs pass; text without ":", ftp: and file: URLs are rejected |
| Downloads.UniqueFilename | app/downloads.py:40-48 | the loop ends with the first of name, stem_1+suffix, stem_2+suffix, … that is neither in `seen` nor a file of the directory: every name tried before it is taken. It is added to `seen` |
| Downloads.Percent | app/downloads.py:67-70 | the progress during a transfer lies in [0, 99], and is the truncated percentage while fewer bytes than the total have arrived |
| Downloads.PercentMonotone | app/downloads.py:67-70 | more bytes never lower the progress |
| Downloads.DownloadJob.DownloadFile | app/downloads.py:51-72 | a URL that fails validation changes nothing; otherwise the file is written, the Content-Length joins the running total, downloaded_bytes grows by the bytes read, and the progress is the percentage of the last chunk while the total is known |
| Downloads.DownloadJob.DownloadOne | app/downloads.py:103-113 | a URL's pass succeeds exactly when the URL is valid, adds its bytes and keeps the progress at most 99; its only error is ValueError, because the unique name is never on disk and the FileExistsError check cannot fire |
| Downloads.DownloadJob.DownloadNamed | app/downloads.py:105-113 | a name already on disk without `overwrite` raises FileExistsError and changes nothing; otherwise the pass succeeds exactly when the URL is valid, fails only with ValueError, adds the bytes read and the file, and a .zip name adds the archive's files |
| Downloads.DownloadJob.RunDownload | app/downloads.py:80-117 | no usable URL raises ValueError and changes nothing; the run succeeds exactly when every URL is valid, ends with progress 100, has counted every byte, and returns the sanitized output directory name; no run raises FileExistsError, whatever `overwrite` is |
| Downloads.Usable | app/downloads.py:81 | every URL kept is non-empty and is a stripped input URL |
| ModelSetup.RecommendedIdsDistinct | app/model_setup.py:19-52 | the three recommended models have distinct ids |
| ModelSetup.GetRecommended | app/model_setup.py:73-77 | the result is a recommended model with the id, and it is None exactly when no recommended model has the id |
| ModelSetup.SortSpec | app/model_setup.py:83 | sorted() returns the same entries, each as often, in str order |
| ModelSetup.SortFirst | app/model_setup.py:83-85 | the first entry of sorted() is an entry of the input that comes before every other one |
| ModelSetup.SortedUnique | app/model_setup.py:83 | two sorted orderings of the same entries are the same list, so sorted() does not depend on the order glob yields them |
| ModelSetup.UpdatesDistinct | app/model_setup.py:81-95 | the update keys are distinct, as dict keys are |
| ModelSetup.LlmUpdates | app/model_setup.py:82-87 | an LLM sets nothing without a .gguf entry; otherwise LLM_MODEL_PATH is the path of the .gguf first in name order, LLM_MODEL_PATHS the paths of all .gguf entries in name order joined by ",", and LLM_BACKEND is llama_cpp |
| ModelSetup.PiperUpdates | app/model_setup.py:92-95 | a Piper voice sets nothing without a .onnx entry; otherwise PIPER_MODEL_PATH is the path of the .onnx first in name order |
| ModelSetup.ListingOrderIrrelevant | app/model_setup.py:80-95 | the updates depend only on which entries the directory holds, not on the order it lists them |
| ModelSetup.ApplyDownload | app/model_setup.py:80-98 | the updates are the ones DownloadUpdates describes; with none, neither .env nor the environment changes; otherwise .env holds WrittenText and the environment the applied updates |
| ModelSetup.FoundIsFirstUpdate | app/model_setup.py:101-116 | an existing directory counts as installed exactly when apply_download would set a variable for it, and the path reported is the first variable's value |
| ModelSetup.SetupName | app/model_setup.py:124-126 | the name is made of lower-case letters, digits, "-" and "_", has no "-" at either end, and is no longer than the input |
| ModelSetup.SetupNameIdempotent | app/model_setup.py:124-126 | sanitizing a sanitized name changes nothing |
| ModelSetup.RecommendedDownloadable | app/model_setup.py:19-52 | every recommended model has a name and a usable URL, so a download of it succeeds in naming its directory |
| ModelSetup.MistralNotListedAfterDownload | app/model_setup.py:102 | as written, the recommended Mistral model downloaded with a .gguf is configured by apply_download but listed as not installed, because the two sanitizers disagree on case |
| ModelSetup.InstalledAfterDownload | app/model_setup.py:101-116 | looking in the directory the download used, a recommended model is listed as installed exactly when apply_download configured it, with the path it configured |
| ModelSetup.ListRecommended | app/model_setup.py:55-70 | one entry per recommended model, in order, carrying its fields, whether it is installed, and the resolved path or ""; it uses the corrected lookup (ResolveInstalled), not the as-written one that ModelSetup.MistralNotListedAfterDownload exhibits |
| CampaignMemory.NormalizePhrase | app/automation/campaign_memory.py:96-97 | the normalized phrase is lower-case and has no whitespace at either end |
| CampaignMemory.NormalizeWords | app/automation/campaign_memory.py:96-97 | normalizing keeps the lower-cased words of the text, in order, and nothing else |
| CampaignMemory.NormalizeIdempotent | app/automation/campaign_memory.py:96-97 | normalizing a normalized phrase changes nothing |
| CampaignMemory.DedupedSpec | app/automation/campaign_memory.py:100-108 | the deduplicated list holds exactly the items of the input, each once |
| CampaignMemory.DedupedNoDup | app/automation/campaign_memory.py:100-108 | a list without repeats comes back unchanged |
| CampaignMemory.DedupeIdempotent | app/automation/campaign_memory.py:100-108 | deduplicating twice is deduplicating once |
| CampaignMemory.Dedupe | app/automation/campaign_memory.py:100-108 | the loop with its seen set returns the items at their first occurrence, in order |
| CampaignMemory.OneBeatFacts | app/automation/campaign_memory.py:70-76 | one beat adds nothing when its stripped text is blank, else its normalized text once if it states something and once more if it holds a digit |
| CampaignMemory.CollectBeatFacts | app/automation/campaign_memory.py:69-76 | the beats loop collects, beat by beat, the normalized text once for a statement and once more for a digit, and nothing for a blank beat |
| CampaignMemory.ExtractFacts | app/automation/campaign_memory.py:67-80 | the facts are the beat facts followed by the normalized keywords, deduplicated and cut to 20 |
| CampaignMemory.BeatsFactsComplete | app/automation/campaign_memory.py:69-76 | a non-blank beat that contains " is ", " are ", " was " or " were ", or a digit, contributes its normalized text |
| CampaignMemory.FactsSpec | app/automation/campaign_memory.py:67-80 | at most 20 facts, no repeats, each the normalized text of a beat or a keyword; with at most 20 distinct candidates none is lost |
| CampaignMemory.IsScriptAllowed | app/automation/campaign_memory.py:83-93 | a script is allowed exactly when its stripped hook is neither used nor banned and no beat's normalized text is banned |
| CampaignMemory.AddFactsSpec | app/automation/campaign_memory.py:55-58 | for facts without repeats, the loop appends them all as used and bans exactly the old bans plus the facts already used |
| CampaignMemory.UpdatedSpec | app/automation/campaign_memory.py:43-64 | the stored lists have no repeats; the hooks are the old ones plus a non-empty hook, the facts the old ones plus the extracted ones, and the bans the old ones plus a hook or fact that was already used |
| CampaignMemory.NotAllowedAgain | app/automation/campaign_memory.py:43-93 | after a script with a stripped non-empty hook is remembered, the same script is no longer allowed |
| CampaignMemory.MemoryStore.ResetMemory | app/automation/campaign_memory.py:37-40 | the campaign's row becomes the default memory and no other row changes |
| CampaignMemory.ApplyFacts | app/automation/campaign_memory.py:55-58 | the facts loop appends every fact to the used facts and bans, once, each fact that was already used |
| CampaignMemory.MemoryStore.UpdateFromScript | app/automation/campaign_memory.py:43-64 | the stored and returned memory is the update of the campaign's memory (or the default one) by the script, and no other row changes |
| Continuity.ContextAvoids | app/automation/continuity.py:15-22 | the context's hooks and banned phrases are the memory's when there is one and the metadata's (or none) otherwise; a theme that is not given or empty falls back to the metadata's |
| Continuity.ContextNumbers | app/automation/continuity.py:23-24 | the title suffix is "Part " and the part index written out, the call to action "Follow for part " and the next index; both read back as those numbers, and the suffix is non-empty with no whitespace at either end |
| Continuity.CtaNamesNextPart | app/automation/continuity.py:23-24 | the call to action of part i names the number in the title suffix of part i+1 |
| Continuity.ScrubbedClean | app/automation/continuity.py:32-36 | a stripped text that contains none of the banned phrases passes the removal loop unchanged |
| Continuity.ScrubbedStripped | app/automation/continuity.py:32-36 | once a non-empty phrase has been removed the text has no whitespace at either end |
| Continuity.ApplySeriesPostprocess | app/automation/continuity.py:28-61 | an empty context returns the script unchanged; otherwise the result is the post-processed script the lemmas below describe |
| Continuity.PostprocessBeats | app/automation/continuity.py:42-57 | a call to action appends exactly one beat, at the last beat's time plus 2.0 or at 0.0 when there are no beats, speaking and showing the call to action; the other beats keep their times, and all but the first keep everything |
| Continuity.TitleHasSuffix | app/automation/continuity.py:46-48 | with a title suffix, the title contains it afterwards |
| Continuity.TitleSuffixOnce | app/automation/continuity.py:46-48 | a title that already contains the suffix is not extended |
| Continuity.ReusedHookSuffixed | app/automation/continuity.py:38-44 | an unused hook stays as the removal loop left it; a used, clean, non-empty hook becomes the hook, a space and the suffix, ends with the suffix, and the first beat speaks and shows it |
| Continuity.VoiceoverEndsWithCta | app/automation/continuity.py:49-60 | the voiceover is the stripped join of the non-empty beat texts, and with a call to action that text is the last one joined |
| Continuity.BuiltContextMarksPart | app/automation/continuity.py:8-61 | under a context built for a part, the title contains the part's suffix and exactly one beat, the call to action, is appended |
| Continuity.UpdateCampaignMemory | app/automation/continuity.py:64-73 | the returned metadata is the old one with the hook and the keywords appended and each list deduplicated |
| Continuity.UpdatedMetaSpec | app/automation/continuity.py:64-84 | the hooks and keywords have no repeats and are exactly the old ones plus the script's non-empty hook and keywords; the theme and banned phrases are kept |
| Continuity.UpdatedMetaTwice | app/automation/continuity.py:64-84 | remembering the same script a second time changes nothing |
| HooksPool.CleanHooksSpec | app/hooks_pool.py:26 | the cleaned hooks are non-empty and stripped, each the stripped form of an item, and every item with text is among them |
| HooksPool.GenerateHooksSpec | app/hooks_pool.py:10-27 | at most `count` hooks, none without a brace span in the reply, each non-empty, stripped and the stripped form of a decoded item |
| HooksPool.ClarityScore | app/hooks_pool.py:54-65 | 0 for text without words, otherwise within [-10, 15] |
| HooksPool.ClarityBest | app/hooks_pool.py:54-65 | one to twelve words of at most ten characters, with no "," or ";", score the best clarity, 15 |
| HooksPool.ClarityLongCapped | app/hooks_pool.py:63-65 | more than twelve words never score above 10 |
| HooksPool.ScoreOne | app/hooks_pool.py:32-46 | an entry keeps the hook and its reasons; in the score-only mode the clarity is None and the score is the hook score; in the clarity mode the clarity score is recorded and the score is at most 100; every score lies in [-10, 100] |
| HooksPool.ScoreHooks | app/hooks_pool.py:30-47 | one entry per hook, in order, each the entry for that hook |
| HooksPool.SelectTopSpec | app/hooks_pool.py:50-51 | at most `pick` entries (all of them when there are fewer), each taken from the input, highest score first |
| HooksPool.SelectTopBest | app/hooks_pool.py:50-51 | every entry left out scores no more than every entry kept |
| EffectsPlanner.ImpactScore | app/effects_planner.py:42-53 | the impact score lies in [0, 7]; it is at least 3 with emphasis and at most 4 without |
| EffectsPlanner.ZoomWorthy | app/effects_planner.py:42-53 | a beat scores 2 or more exactly when it is emphasized, holds an impact word, or has "!" or "?" and is upper-case text longer than 3 |
| EffectsPlanner.ScoreBeats | app/effects_planner.py:12-24 | one entry per beat, in order: its time, its stripped text, that text's impact score and whether it is emphasized |
| EffectsPlanner.ClampedRate | app/effects_planner.py:11 | the impact rate is clamped to [0, 1], and a rate inside that range is kept |
| EffectsPlanner.ImpactCount | app/effects_planner.py:27 | at least one impact when there are beats, none otherwise, and never more than there are beats |
| EffectsPlanner.PlanEffects | app/effects_planner.py:10-39 | the plan is the clamped rate, the shake and zoom times and the entries sorted by score |
| EffectsPlanner.PlanShape | app/effects_planner.py:11-36 | the scores are the beats' entries, each once, highest score first; there are impact-count shake times, in ascending order |
| EffectsPlanner.HighScoringSpec | app/effects_planner.py:29 | the filter keeps every entry that scores 2 or more, as often as it occurs, and nothing else |
| EffectsPlanner.ZoomSpec | app/effects_planner.py:29 | the zoom times are ascending, and are the times of exactly the entries that score 2 or more |
| EffectsPlanner.ShakeBest | app/effects_planner.py:26-28 | the shake times are the times of the first impact-count entries by score, and no entry left out scores more than one shaken |
| EffectsPlanner.TimesPermutation | app/effects_planner.py:28-34 | sorting the entries by time reorders their times and changes none |
| Background.StitchTotal | app/background.py:45-63 | the segments together never last longer than the time that remained to cover |
| Background.StitchStopsWhenCovered | app/background.py:47 | a segment is cut only while more than 0.1 s of the target is still uncovered by the ones before it |
| Background.StitchDistinct | app/background.py:46-49 | each segment comes from a clip at or after the current index, and with distinct clips no clip gives two segments |
| Background.StitchWindows | app/background.py:53-61 | with draws in [0, 1], every segment lasts more than 0.1 s and at most 6 s and starts between 0 and max(0, clip duration - segment length) |
| Background.AllInputArgsAt | app/background.py:69-71 | segment j's "-ss start -t duration -i path" arguments sit at positions 6j to 6j+5 of the inputs |
| Background.ConcatPartShape | app/background.py:79-80 | the concat part reads one "[v…]" label per segment and ends with the [bg] label |
| Background.CommandShape | app/background.py:68-92 | the command is ffmpeg -y, then six input arguments per segment in order, then the filter graph, the [bg] map, -an and the output path |
| Background.StitchCommand | app/background.py:68-92 | the argument and filter-part loops compute that command |
| Background.BuildStitchedBackground | app/background.py:39-94 | no clips raise FileNotFoundError; no segments raise ValueError; otherwise the result holds the segments of the stitching loop, the output path and the command |
| Background.StitchedCoversTarget | app/background.py:44-66 | a stitched background lasts at most the target, uses each of its distinct clips at most once, and stops once 0.1 s or less remains |
| AudioMastering.Strength | app/audio_mastering.py:47 | the ducking strength is clamped to [0, 1]: kept inside it, 0 below it, 1 above it |
| AudioMastering.Sidechain | app/audio_mastering.py:46-51 | the compressor's threshold lies in [0.07, 0.12], its ratio in [4, 12], its attack in [15, 35] ms and its release in [150, 300] ms; strengths at or beyond the ends give the end settings |
| AudioMastering.SidechainMonotone | app/audio_mastering.py:47-51 | a stronger ducking never lowers the ratio, attack or release nor raises the threshold |
| AudioMastering.PresetStagesSpec | app/audio_mastering.py:55-68 | "clean" and "aggressive", in any case, pick their own stages, and every other preset the hype stages |
| AudioMastering.MasteringFallback | app/audio_mastering.py:56-68 | an unknown or empty preset gives the hype chain |
| AudioMastering.MasteringIgnoresCase | app/audio_mastering.py:56 | a preset and its lower-case form give the same chain |
| AudioMastering.MasteringEndsWithLoudnorm | app/audio_mastering.py:69-70 | every chain ends with loudness normalisation to -14 LUFS |
| AudioMastering.MusicGain | app/audio_mastering.py:23 | the music gain is 0.3 lowered by a tenth of the ducking strength, never below 0.1 and at most 0.3 for a non-negative strength |
| AudioMastering.LeadFilters | app/audio_mastering.py:15-29 | the voice filter comes first, followed by the music and ducking filters only when there is music |
| AudioMastering.SfxFiltersAt | app/audio_mastering.py:32-35 | effect k's filter is built from its own index and delay |
| AudioMastering.SfxLabels | app/audio_mastering.py:32-36 | one "[sfx<index>]" label per effect, in order |
| AudioMastering.SfxChains | app/audio_mastering.py:32-36 | the sound-effect loop computes those filters and labels |
| AudioMastering.MixInputsSpec | app/audio_mastering.py:21-36 | the mix reads the voice, the ducked music exactly when there is music, then each effect: 1 + (music ? 1 : 0) + the number of effects streams |
| AudioMastering.MixFilterCounts | app/audio_mastering.py:38-39 | amix is given the number of streams it reads and its output is labelled [mix] |
| AudioMastering.BuildAudioFilterComplex | app/audio_mastering.py:6-43 | the steps compute the graph: voice, music, effects, mix and mastering, joined by ";" |
| AudioMastering.EndsWithAout | app/audio_mastering.py:42-43 | a graph whose last filter masters the mix ends with the loudness stage and the [aout] label |
| AudioMastering.AudioGraphShape | app/audio_mastering.py:15-43 | the graph has 3 filters, plus 2 with music, plus one per effect; the voice filter is first and the joined graph ends with the [aout] label |
| Registry.ModelList.AddModel | app/model_ops/registry.py:51-71 | the list becomes `Added` of the old list: unchanged for an empty path or one already present, else the new entry appended |
| Registry.AddedSpec | app/model_ops/registry.py:52-71 | an empty stripped path and a path already present add nothing; otherwise the entry is appended with the stripped path, the name or else the path's stem, and the role or "general" |
| Registry.AddAllExtends | app/model_ops/registry.py:68-71 | adding models never changes or reorders the entries already in the list |
| Registry.AddAllNoDup | app/model_ops/registry.py:68-70 | a list without repeated paths keeps none after any number of additions |
| Registry.AddAllPaths | app/model_ops/registry.py:52-71 | every path the list held and every non-empty stripped path offered is present afterwards |
| Registry.FirstWins | app/model_ops/registry.py:35-71 | the first source to offer a new path decides its entry; later offers of that path are ignored |
| Registry.PathFromItems | app/model_ops/registry.py:51-71 | an entry that was not in the list comes from an offered item with that stripped path |
| Registry.AddEach | app/model_ops/registry.py:35-36 | adding items one by one gives `AddAll` of them, in order |
| Registry.LoadRegistry | app/model_ops/registry.py:8-48 | the stored lists (empty without a readable registry.json) extended by the LLM sources in order (hook, script, model paths, default model, .gguf files), the whisper directories with role "asr" and the .onnx voices with role "tts" |
| Registry.HookModelFirst | app/model_ops/registry.py:21-36 | without registry.json a configured hook model is the first LLM entry, with role "hook" |
| Registry.AddAllSplit | app/model_ops/registry.py:35-36 | adding a list in two parts is the same as adding it whole |
| Routing.ForRole | app/model_ops/routing.py:75 | the entries whose role is the requested one or "general", and none exactly when no entry has either role |
| Routing.ManualPathSpec | app/model_ops/routing.py:86-89 | the manual path is that of the first candidate whose name or path is the manual name, or the name itself when none matches |
| Routing.BenchmarkMap | app/model_ops/routing.py:126-132 | the loop computes the map of LLM benchmarks |
| Routing.BenchMapKeys | app/model_ops/routing.py:128-131 | a name is in the benchmark map exactly when an LLM benchmark has it; other tools' benchmarks are skipped |
| Routing.BenchMapLast | app/model_ops/routing.py:131 | a name maps to the tokens per second of the last LLM benchmark with that name |
| Routing.SpeedOf | app/model_ops/routing.py:112-113 | the speed is never 0: a missing or zero measurement counts as 0.1 |
| Routing.FindManual | app/model_ops/routing.py:86-89 | the manual loop returns that manual path |
| Routing.CandidatePaths | app/model_ops/routing.py:123 | the fallback loop returns the candidates' non-empty paths in order |
| Routing.ScoreCandidates | app/model_ops/routing.py:93-120 | the scoring loop computes the scored list: empty paths and models needing more VRAM than is known to be available are skipped |
| Routing.NonEmptyPaths | app/model_ops/routing.py:123 | a path is in the fallback exactly when it is non-empty and some candidate has it |
| Routing.PickModelPaths | app/model_ops/routing.py:68-123 | the method computes `PickedPaths`: the manual path, else the ranked paths, else the fallback |
| Routing.Selected | app/model_ops/routing.py:62-63 | the selected model is the first picked path, and none exactly when nothing is picked |
| Routing.CandidatesRole | app/model_ops/routing.py:75-77 | when some LLM entry has the role or "general", every candidate does; when none does, every LLM entry is a candidate |
| Routing.ManualSingle | app/model_ops/routing.py:79-89 | manual routing applies only to the hook and script roles and returns exactly one path |
| Routing.ScoredSound | app/model_ops/routing.py:94-120 | every scored path belongs to a candidate with a non-empty path that fits the available VRAM |
| Routing.ScoredComplete | app/model_ops/routing.py:94-120 | every such candidate is scored |
| Routing.RankedOrder | app/model_ops/routing.py:122 | the ranking only reorders the scored list, highest score first |
| Routing.Ranked | app/model_ops/routing.py:91-123 | without a manual choice and with an eligible candidate, the result is the ranked scored list's paths |
| Routing.RankedEligible | app/model_ops/routing.py:94-123 | then every picked path is an eligible candidate's: never one needing more VRAM than is available |
| Routing.Fallback | app/model_ops/routing.py:123 | with no eligible candidate, the result is every non-empty candidate path |
| Routing.FastestPrefersMeasured | app/model_ops/routing.py:113-115 | under "fastest" a benchmarked model outranks an unbenchmarked one exactly when it runs above 0.1 tokens per second |
| AssetsManager.NormalizeType | app/assets_manager.py:169-172 | a name is accepted exactly when it is one of bg_clips, music, sfx and fonts, as that type; any other is a ValueError |
| AssetsManager.ResolvedInside | app/assets_manager.py:31-41 | an accepted path lies inside the resolved assets directory and has no empty, "." or ".." segment |
| AssetsManager.ResolveAccepts | app/assets_manager.py:35-41 | a normalised path that is not absolute, has no ":" and no ".." segment is accepted |
| AssetsManager.ResolveRejects | app/assets_manager.py:35-36 | a normalised path starting with "/" or holding ":" is an invalid path |
| AssetsManager.ParentBlocked | app/assets_manager.py:37-40 | "../name" from a directory not itself named `name` resolves outside it and is blocked as path traversal |
| AssetsManager.BackslashesAreSlashes | app/assets_manager.py:32 | a path with backslashes resolves as the same path with slashes |
| AssetsManager.AssetsPrefixDropped | app/assets_manager.py:32-34 | "assets/" + x resolves as x |
| AssetsManager.NormalizedTagsSpec | app/assets_manager.py:124 | the stored tags are sorted, each once, and exactly the stripped forms of the non-blank given tags |
| AssetsManager.TagStore.SetTags | app/assets_manager.py:122-133 | the path's one row (path is the table's primary key, app/db.py:31-36) is replaced by the type text as given and the normalised tags, whatever type it had; no other path's row changes |
| AssetsManager.TagStore.TagsForType | app/assets_manager.py:183-195 | the map holds exactly the paths whose row has the type, each with the tags get_tags gives for it |
| AssetsManager.TagStore.GetTagsForType | app/assets_manager.py:136-138 | an unknown type name is a ValueError; otherwise the map holds exactly the paths whose row has that type, each with its get_tags tags |
| AssetsManager.SetThenGet | app/assets_manager.py:108-133 | after set_tags, get_tags gives the normalised tags under that type and [] under every other type; every other path's tags are unchanged |
| AssetsManager.RetagMovesPath | app/assets_manager.py:122-133 | tagging a path as music and then as sfx leaves it out of the music tags map, with get_tags(p, "music") == [], and in the sfx map with the second tags |
| AssetsManager.CollectSpec | app/assets_manager.py:49-70 | the collected assets are exactly those of the files with one of the type's extensions (in lower case), nested files only for sound effects, each with its path's tags |
| AssetsManager.FilterQuery | app/assets_manager.py:74-79 | an asset is kept exactly when the term is in its lower-cased name or in one of its lower-cased tags |
| AssetsManager.SortByNameSpec | app/assets_manager.py:80 | the sort only reorders the assets, by lower-cased name |
| AssetsManager.CollectFiles | app/assets_manager.py:48-66 | the listing loop collects the type's files |
| AssetsManager.AttachTags | app/assets_manager.py:68-70 | the tagging loop gives each file its path's tags, or none |
| AssetsManager.CollectTagged | app/assets_manager.py:48-70 | collecting and then tagging is the collected list with tags |
| AssetsManager.ListAssets | app/assets_manager.py:44-80 | the steps compute `Listing`: the type check, the collection, the tags, the query filter and the sort |
| AssetsManager.ListingSpec | app/assets_manager.py:44-80 | an unknown type is an error; otherwise the listing is sorted by lower-cased name and holds exactly the type's files that match a non-empty query in their name or a tag |
| Json.In | app/main.py:173 | `key in v` tests an object's keys and raises TypeError exactly for None, a bool or a number |
| Json.Index | app/main.py:174 | `v[key]` gives an object's field and raises for any other value |
| Json.StrList | app/automation/watch_pending.py:13 | a list of strings becomes a list value with the same strings in the same order |
| Json.Elements | app/automation/campaigns.py:111 | iterating a list gives its items, and iterating raises exactly for None, a bool or a number |
| Json.FromSpan | app/variations.py:94-103 | no brace span, or a span the decoder rejects, gives {}; otherwise the decoded span |
| Json.SortedKeys | app/preset_manager.py:29 | the keys come out sorted, each key of the dict once |
| Json.SortedKeysUnique | app/preset_manager.py:29 | only one list of the keys is sorted, so the order is fixed |
| PresetManager.PresetManager.constructor | app/preset_manager.py:9-10 | the manager holds the given preset file |
| PresetManager.PresetManager.ListPresets | app/preset_manager.py:27-29 | the presets are the loaded values in the order of their sorted names, one per name |
| PresetManager.PresetManager.Upsert | app/preset_manager.py:31-38 | a blank stripped name raises ValueError and leaves the file alone; otherwise the preset is returned and the file becomes the loaded presets with this one stored under its name |
| PresetManager.PresetManager.Delete | app/preset_manager.py:40-44 | the file loses that name when it held it and is not rewritten otherwise |
| PresetManager.PresetManager.Get | app/preset_manager.py:46-48 | get finds a preset exactly when the loaded presets hold the name, and returns that preset |
| PresetManager.UnusableIsEmpty | app/preset_manager.py:12-19 | a missing file, text that does not parse and JSON that is not an object all load as no presets |
| PresetManager.UpsertRejectsBlank | app/preset_manager.py:33-35 | upsert raises ValueError exactly when the name is missing or strips to nothing |
| PresetManager.UpsertThenGet | app/preset_manager.py:31-48 | after an upsert, get returns the preset under its name and any other name is unchanged |
| PresetManager.UpsertOverUnusable | app/preset_manager.py:12-38 | an upsert over an unusable file keeps only the new preset |
| PresetManager.DeleteThenGet | app/preset_manager.py:40-48 | after a delete, get returns None for that name and any other name is unchanged |
| PresetManager.DeleteIdempotent | app/preset_manager.py:40-44 | a second delete of the same name changes nothing, and deleting an absent name writes nothing |
| TemplateManager.CheckRequired | app/template_manager.py:58-61 | when the check passes, every required key is `in` the data, and for an object every key is one of its fields |
| TemplateManager.CheckRequiredFirstMissing | app/template_manager.py:59-61 | an object lacking a required key fails with "Template missing" and the first key it lacks |
| TemplateManager.CheckRequiredAll | app/template_manager.py:59-61 | an object holding every key passes the check |
| TemplateManager.WordsOf | app/template_manager.py:69 | forbidden words are str() of a list's items, a string's characters or an object's keys, and iterating any other value raises |
| TemplateManager.RewritesOf | app/template_manager.py:70 | safe rewrites succeed exactly for an object, with the same keys and each value turned into a string |
| TemplateManager.Validate | app/template_manager.py:57-71 | a template comes only from an object that holds every required key |
| TemplateManager.NonObjectRejected | app/template_manager.py:57-71 | a value that is not an object never validates |
| TemplateManager.MissingKeyRejected | app/template_manager.py:58-61 | an object lacking a required key raises "Template missing" for the first key it lacks |
| TemplateManager.ValidObject | app/template_manager.py:57-71 | an object with every required key validates exactly when its forbidden words are iterable and its rewrites are an object; name and system prompt are str() of the data's, and absent lists and rewrites give empty ones |
| TemplateManager.Contribution | app/template_manager.py:30-40 | a file yields a template exactly when its suffix is .json, .yaml or .yml, its content parses to a truthy value and that value validates |
| TemplateManager.Store | app/template_manager.py:40 | storing a template keeps each name once and every name listed in the order it first arrived |
| TemplateManager.Scan | app/template_manager.py:30-40 | the templates the loop collects are keyed consistently with their first-arrival order |
| TemplateManager.ContributionsSnoc | app/template_manager.py:30-40 | the files visited so far plus one more give the earlier outcomes plus that file's outcome |
| TemplateManager.LaterFileWins | app/template_manager.py:30-40 | a file's template is the one loaded under its name unless a later file offers the same name |
| TemplateManager.LoadedFromAFile | app/template_manager.py:30-40 | every loaded template was offered by some file and is loaded under its own name |
| TemplateManager.TemplateManager.constructor | app/template_manager.py:22-24 | a new manager holds no templates |
| TemplateManager.TemplateManager.Load | app/template_manager.py:26-40 | load clears the templates; a missing directory leaves them empty, and otherwise the templates are what the files offer, visited in sorted name order |
| TemplateManager.TemplateManager.ListTemplates | app/template_manager.py:73-74 | the templates come back in the order their names were first loaded |
| TemplateManager.TemplateManager.Get | app/template_manager.py:76-77 | get returns None exactly for a name no loaded template has, and the template otherwise |
| AppMain.MergeObject | app/main.py:135-174 | for an object preset the copy never raises; each listed key the preset has takes the preset's value, every other key keeps the dumped value, and no other key appears |
| AppMain.ApplyPreset | app/main.py:129-175 | the copy loop computes `Applied`: no name, an unknown name or a falsy preset gives the request back, a `key in preset` or `preset[key]` that raises gives that error, and otherwise the merged dump is validated into a new request |
| AppMain.AppliedUnchanged | app/main.py:129-134 | no preset name, no stored preset or a falsy one leaves the request unchanged |
| AppMain.AppliedObject | app/main.py:135-175 | with a stored object preset, the new request is built from the dump with exactly the listed keys the preset has taken from it, every other dumped key kept, and nothing else added |
| AppMain.ApplyUnhinged | app/main.py:178-191 | the unhinged request still passes the request's validation |
| AppMain.NotUnhingedUnchanged | app/main.py:179-180 | a request that is not unhinged is returned unchanged |
| AppMain.UnhingedBounds | app/main.py:182-185 | speech speed lands in [1.25, 2.0], zoom in [0.7, 1.0], shake in [0.6, 1.0] and drift in [0.5, 1.0], none below what the request asked for |
| AppMain.UnhingedStyle | app/main.py:186-190 | music "none" becomes "random" and any other choice stays; captions become tiktok_pop, sound effects the default pack, and the topic gets the unhinged suffix |
| AppMain.UnhingedKeepsTheRest | app/main.py:181-191 | no field other than those eight changes |
| AppMain.UnhingedTwice | app/main.py:178-191 | a second pass changes only the topic, which gets the suffix again |
| AppMain.Runner | app/main.py:227-261 | the job ends "done" with its output URLs added when the pipeline returns, and "error" with an "ERROR: " log line when it raises; the project's status follows the job's |
| AppMain.DoneUrlsByMode | app/main.py:241-247 | a preview run publishes only the preview URL, and a final run publishes the video and both thumbnails |
| RoutesBeats.Steps | app/api/routes_beats.py:55-63 | the steps hold "voice" and "captions" exactly when their flags are set, and "render" when its flag is set or neither of the others is; they keep the order voice, captions, render, and are ["render"] when no flag is set |
| RoutesBeats.RenderModeText | app/api/routes_beats.py:53 | the render mode is "preview" exactly in preview mode |
| RoutesBeats.RenderFromBeatsRoute | app/api/routes_beats.py:36-71 | a missing request.json is a 404 and an unparsable one a 400, a saved request that is not an object raises TypeError on the first item assignment (a server error, not an HTTP status), all with the jobs untouched; otherwise the saved request with the four preview fields overwritten is queued under the same id with the steps "voice" and "captions" exactly when their flags are set and "render" exactly when its flag is set or neither other one is, no other step, in that order, without saving the request or creating a project, and the job has a state |
| WatchPending.PendingItems | app/automation/watch_pending.py:26-54 | the listed items are exactly the pending batches, each with the prompts and overrides its payload holds |
| WatchPending.PendingStore.constructor | app/automation/watch_pending.py:11-23 | a new table holds no batch |
| WatchPending.PendingStore.CreatePending | app/automation/watch_pending.py:11-23 | an id already in the table violates its primary key and changes nothing; otherwise a pending batch with the prompts and the overrides (or {}) is stored under the id, which is returned |
| WatchPending.PendingStore.ListPending | app/automation/watch_pending.py:26-54 | the items are the pending batches, each once, newest first |
| WatchPending.PendingStore.ApprovePending | app/automation/watch_pending.py:57-76 | an unknown or no longer pending batch gives ([], {}) and changes nothing; a pending one becomes approved and returns its prompts and overrides, a falsy overrides as {} |
| WatchPending.PendingStore.DeletePending | app/automation/watch_pending.py:79-85 | the batch becomes deleted whatever its status, and an unknown id changes nothing |
| WatchPending.ListedOnlyWhilePending | app/automation/watch_pending.py:26-85 | an approved or deleted batch is no longer listed |
| WatchPending.CreatedReadsBack | app/automation/watch_pending.py:11-76 | what create_pending stores lists and approves as the same prompts and overrides |
| WatchPending.UnparsableIsEmpty | app/automation/watch_pending.py:38-76 | a payload that does not parse lists and approves as no prompts and no overrides |
| Scheduler.NonBlank | app/automation/scheduler.py:176 | the kept lines are stripped and non-empty, and there are no more of them than lines |
| Scheduler.FirstField | app/automation/scheduler.py:172 | the first column holds no comma |
| Scheduler.StripKeepsOut | app/automation/scheduler.py:172 | stripping a line adds no character, so a comma-free column stays comma-free |
| Scheduler.FirstColumns | app/automation/scheduler.py:170-175 | each CSV prompt is stripped, non-empty and comma-free, at most one per line |
| Scheduler.LoadPrompts | app/automation/scheduler.py:162-176 | a path that does not exist gives no prompts; reading raises exactly for a directory, which the empty path is |
| Scheduler.CsvPrompts | app/automation/scheduler.py:166-175 | a .csv file drops a first line mentioning "prompt" in any case and keeps the stripped first column of every other non-blank line |
| Scheduler.TextPrompts | app/automation/scheduler.py:176 | any other file gives its stripped non-blank lines in order |
| Scheduler.FirstColumnsOfPlainLines | app/automation/scheduler.py:170-176 | on stripped, comma-free lines the CSV column changes nothing |
| Scheduler.DryRun | app/automation/scheduler.py:136-159 | the loop computes `DryTasks`: the tasks in list order and their summed counts, or the first exception a prompt file raises |
| Scheduler.DryTasksStep | app/automation/scheduler.py:140-158 | one more schedule is skipped, raises, or adds its task |
| Scheduler.DryTasksStopAt | app/automation/scheduler.py:140-158 | once a prefix of the schedules raises, the whole dry run raises the same |
| Scheduler.DryTasksOfEligible | app/automation/scheduler.py:140-145 | disabled and non-daily schedules are skipped: there is one task per enabled daily schedule, in order |
| Scheduler.TaskCounts | app/automation/scheduler.py:148-156 | a task counts at most the schedule's daily count when that is not negative, previews at most three prompts, and carries the schedule's id and preset |
| Scheduler.TotalBounds | app/automation/scheduler.py:158-159 | the total is at least each task's count |
| Scheduler.TotalNonNegative | app/automation/scheduler.py:158-159 | the total is never negative |
| Scheduler.QueuePrompts | app/automation/scheduler.py:122-128 | the queued jobs grow by one per planned prompt until a prompt fails validation; the stamped schedules and tasks are untouched |
| Scheduler.RunSchedules | app/automation/scheduler.py:92-133 | the loop computes `Passed`: each schedule is visited in order until an exception ends the pass |
| Scheduler.QueueEach | app/automation/scheduler.py:122-128 | the inner loop computes `QueuePrompts` |
| Scheduler.NoSourceRaises | app/automation/scheduler.py:115-116 | an enabled daily schedule without a source path raises IsADirectoryError in the dry run and in a pass that reaches it while it is due |
| Scheduler.SkippedSchedule | app/automation/scheduler.py:100-114 | a disabled, non-daily or not yet due schedule changes nothing |
| Scheduler.QueuedRequests | app/automation/scheduler.py:122-126 | each queued job is a valid default request for its prompt, with the schedule's preset, the next generated id and the schedule's id |
| Scheduler.DueScheduleRuns | app/automation/scheduler.py:115-133 | a due enabled daily schedule whose prompts load and are long enough queues all its planned prompts, is stamped once, and reports its daily count as its number of tasks |
| Scheduler.QueueLongPrompts | app/automation/scheduler.py:122-126 | prompts of at least three characters all queue without failing |
| Campaigns.MetadataOf | app/automation/campaigns.py:104 | truthy metadata is kept and anything else becomes {} |
| Campaigns.PromptsOf | app/automation/campaigns.py:104-111 | metadata without prompts raises "Campaign has no prompts", metadata that is not a dict raises AttributeError, and otherwise the prompts are what iterating metadata["prompts"] gives |
| Campaigns.TruthyElements | app/automation/campaigns.py:105-111 | a truthy list or string of prompts gives at least one prompt |
| Campaigns.PresetValues | app/automation/campaigns.py:119 | the preset's values are its entries other than "name" |
| Campaigns.PayloadPrecedence | app/automation/campaigns.py:112-120 | preset values win over the overrides, which win over the prompt and the campaign's preset name, and no other key enters the payload |
| Campaigns.Calls | app/automation/campaigns.py:111-133 | the loop makes at most one call per prompt, and one for every prompt unless a request fails to build |
| Campaigns.JobIds | app/automation/campaigns.py:133-135 | the returned ids are the queued jobs' ids, in order |
| Campaigns.CampaignStore.constructor | app/automation/campaigns.py:94-135 | a new store holds no campaign and no campaign job |
| Campaigns.CampaignStore.RunCampaign | app/automation/campaigns.py:94-135 | a missing campaign raises "Campaign not found" and one without prompts raises too, both changing nothing; otherwise the calls of `Calls` are queued and recorded, and the campaign becomes "running" and the job ids are returned unless a request failed to build |
| Campaigns.CampaignStore.QueueAll | app/automation/campaigns.py:111-133 | the loop computes `Calls` and records each queued job's row |
| Campaigns.CampaignStore.ExportSummary | app/automation/campaigns.py:162-215 | a missing campaign raises "Campaign not found"; otherwise the loop computes `SummaryOf`: the parts, the best part and the common issues |
| Campaigns.CallsStep | app/automation/campaigns.py:111-133 | one more prompt either ends the run with its error or adds its call |
| Campaigns.RowsSnoc | app/automation/campaigns.py:132 | recording one more job adds its row with its part number |
| Campaigns.UnionUpdate | app/automation/campaigns.py:132 | recording a row into the table after the earlier rows is the same as adding it to those rows |
| Campaigns.CallsStopAt | app/automation/campaigns.py:111-133 | once a prefix of the prompts fails, the whole run fails the same way with the same calls |
| Campaigns.CallsNumbered | app/automation/campaigns.py:111-131 | job k is prompt k's request, grouped under the campaign as "Part k+1", with the series context of part k+1 and the k-th new id |
| Campaigns.RowsNumbered | app/automation/campaigns.py:132 | with distinct job ids, job k is recorded with order index and series number k+1 |
| Campaigns.PartsOf | app/automation/campaigns.py:175-190 | there is at most one part per job |
| Campaigns.CountReasons | app/automation/campaigns.py:195-196 | the inner loop adds one part's reasons to the tally |
| Campaigns.TallyCounts | app/automation/campaigns.py:195-196 | the issues dict counts each reason as often as it occurs and lists each reason once |
| Campaigns.BestIsFirstMax | app/automation/campaigns.py:191-194 | best_part is the first part with the highest score when that score is above -1, and None when no part scores above -1 |
| Campaigns.CommonTopFive | app/automation/campaigns.py:211 | common_issues holds at most five issues, each one that occurred, most frequent first, and no issue left out occurred more often than one listed |
| Campaigns.SortedInCounts | app/automation/campaigns.py:211 | every sorted issue has a count |
| Campaigns.CommonFromOrder | app/automation/campaigns.py:211 | every common issue is a key of the issues dict |
| Campaigns.CommonDescending | app/automation/campaigns.py:211 | the sorted issues run from most to least frequent |
| Campaigns.CommonBeatsRest | app/automation/campaigns.py:211 | no issue past the first five is more frequent than one of them |
| Campaigns.SummaryIssues | app/automation/campaigns.py:169-211 | the summary's common issues are at most five reasons of the existing parts, and none left out occurs more often than one listed |
| Validation.Get | app/validation.py:44-47 | `.get` reads a dict's key with its default and raises exactly on anything but a dict |
| Validation.FirstOr | app/validation.py:44 | falsy streams read as {}, and a non-empty list gives its first item |
| Validation.ValidateOutput | app/validation.py:9-82 | a missing file fails with exists=False and nothing else; otherwise ok holds exactly when the probe reads, the size is 1080x1920, the duration is within 0.25 s and the loudness verdict passes, and the checks record the resolution and duration or the probe's exception, and the measurement or the loudness exception |
| Validation.LoudnessOutOfRange | app/validation.py:74-77 | a measurement without input_i fails, and one with it passes exactly when input_i lies in [-22, -8] |
| Validation.NoLoudnessJsonPasses | app/validation.py:91-99 | output without a brace span, or whose span does not parse, measures as {} and passes the loudness check |
| Validation.EmptyProbeFails | app/validation.py:43-53 | a probe that prints nothing reads as 0x0 with duration 0 and fails the size check |
| Validation.ProbedFields | app/validation.py:43-47 | a probe whose JSON lists a first stream with width and height and a format with a duration reads back those values |
| Variations.ChoiceOr | app/variations.py:20-28 | a choice from a non-empty list is one of its entries, and an empty list keeps the base value |
| Variations.BuildVariationRequests | app/variations.py:12-43 | exactly `count` variations (none below one), variation k built from the k-th draws |
| Variations.VariationKeeps | app/variations.py:19-41 | a variation keeps every field of the base except topic, seed, voice, caption style and music; it adds the variation suffix to the topic, takes voice and style from non-empty lists, changes the music only on a draw above 0.5, and stays a valid request |
| Variations.StrippedTexts | app/variations.py:56 | each text is str() of its item, stripped |
| Variations.NonEmpty | app/variations.py:56 | the kept texts are exactly the non-empty ones |
| Variations.ListAt | app/variations.py:55 | a dict without the key gives no items |
| Variations.RewriteHook | app/variations.py:46-56 | a failing LLM call is its exception; otherwise at most five candidates, each non-empty and stripped |
| Variations.PrefixIn | app/variations.py:56 | a slice's items come from the list |
| Variations.StrippedAll | app/variations.py:56 | every stripped text is stripped clean |
| Variations.NoJsonNoCandidates | app/variations.py:94-103 | a reply without JSON, or whose JSON does not parse, gives no candidates |
| Variations.CleanCandidatesKept | app/variations.py:53-56 | candidates that are already stripped non-empty strings come back unchanged, the first five of them |
| Variations.NonEmptyKeeps | app/variations.py:56 | a list with no empty text is kept whole |
| Variations.ScoredOf | app/variations.py:72-80 | a scored text carries score_hook's score |
| Variations.ScoredAll | app/variations.py:72-80 | every text is scored, in order |
| Variations.GenerateVariants | app/variations.py:59-91 | the method computes `VariantsOf`: the reply's hooks and titles, scored, and the picks |
| Variations.PickBest | app/variations.py:82-89 | the nested loops and their breaks compute `PicksOf` |
| Variations.ScoreAll | app/variations.py:72-80 | the scoring loop computes `ScoredAll` |
| Variations.PicksSpec | app/variations.py:82-89 | at most `pick` picks, and exactly min(pick, hooks) when there are titles; each pick pairs the next best hook with a best-scoring title, and no hook left out scores higher than one picked |
| Variations.TextsSpec | app/variations.py:69-70 | the kept texts are stripped and never more than the limit |
| Variations.AssembleSpec | app/variations.py:72-91 | hooks and titles carry score_hook's scores, at most `pick` picks are made, and each pairs one of the hooks with one of the titles |
| Variations.VariantsSpec | app/variations.py:59-91 | generate_variants keeps at most num_hooks stripped hooks and num_titles titles and makes at most `pick` picks, each from them; a failing LLM call is its exception |
| Text.TakePy | app/automation/scheduler.py:149 | `xs[:n]` is a prefix of xs: n items (or all) for n >= 0, and all but the last -n for a negative n |

## Left out

Behaviour of the modelled files that the model does not capture:

- Threads, locks and the blocking `queue.get()`: `JobQueue.JobQueue.WorkerStep` is one worker pass, and it requires a non-empty queue instead of blocking.
- TypeError messages follow CPython 3.11 and later (`Json.StrIndexError`, `Json.StrAssignError`); older versions word the string-index message differently.
- `log_cb` callbacks and log-file writes are not modelled. The pipeline's job log is modelled; the log file it mirrors is not.
- Process spawning and killing (`Popen`, `os.killpg`, `taskkill`) are outcome parameters of `SubprocessManager.SubprocessManager.Run`: `Popen` raising, the exit code, the timeout, and the kill raising inside the timeout handler. `{timeout:.0f}` and the repr of the argument list are function parameters.
- `SubprocessManager.SubprocessManager.KillPid` and `CancelJob` take whether each kill raises as a parameter; `communicate()` raising anything other than `TimeoutExpired` is not modelled.
- `generate_text`, the job body `fn` and the LLM backends are parameters. An exception from any of them is an `Err` outcome or an empty candidate list, as the source's `except` clauses treat it. `rewrite_hook` is modelled as `Variations.RewriteHook`; the optimization loop takes its candidate list as a parameter.
- Floating point: numbers are exact reals. `round(…, 2)` on report and metadata fields is not applied. `int(round(…))` is applied where the value matters: ASS centiseconds, the `\k` durations, caption stability and the weighted score.
- `Llm.RetimedWellTimed`: beats are retimed to exactly index × 2.2 rather than `round(index * 2.2, 2)`.
- `CaptionsAutofix.BuildReport`: the average rate is not rounded to two decimals.
- `CaptionsReport.BuildReport`: its fields are the values before `round(…, 2)`.
- `Optimization.EstimateMetrics`: the estimates are not rounded to two decimals.
- Text is ASCII only. `Text.Strip` and `Text.Words` treat only ASCII whitespace as whitespace; Python's `str.split()` and `str.strip()` also treat non-ASCII spaces (U+0085, U+00A0, U+2000–U+200A, …) as whitespace.
- `Text.Lower` lowers `A`–`Z` only, where Python's `str.lower()` also lowers non-ASCII letters.
- `%.2f`-style formatting of numbers in ffmpeg arguments is a `Format` parameter of the Editor. So is the printing of floats in the zoom expression.
- Random draws (`random.Random(seed)`: `choice`, `uniform`) are parameters: the chosen index and a draw in [0, 1].
- JSON decoding (`json.loads`) is a decoder parameter, and so is building a `ScriptOutput` from a dict. Only a missing title or hook is modelled as a validation error.
- File and database persistence are maps, or are left out: `write_json` of attempts and candidates, `save_hook_pool`, the attempts and beats tables, and `script.json`. Only the beats table, `script.json` in the beats editor and the pipeline's artifact set are modelled.
- llm.py: prompt construction (`_build_user_prompt`) and the two backends' own code are not modelled.
- generation_strategy.py: the hook pool (`generate_hook_pool`), campaign memory (`get_memory`, `is_script_allowed`) and the virality scorer are parameters. An empty pool hook `""` means no forced hook.
- generation_strategy.py: the final `raise ValueError("Failed to generate script")` cannot be reached after three attempts, so it is not modelled.
- editor.py: `pick_background_clip`, `_load_clip_metadata` and `_prepare_smoothed_loop` are not modelled, because they probe media and run ffmpeg.
- editor.py: `render_thumbnails`, `_build_audio_filters` and `select_sfx_pack`'s directory globbing are not modelled. The sound-effect pack and the audio graph (modelled on its own as `AudioMastering`) are parameters.
- pipeline.py: the media probe behind `_normalize_duration` is a parameter (the voice duration). The stage bodies are recorded as calls: background stitching, transcription, thumbnails, validation and the virality score.
- `Pipeline.PipelineRun.Run` promises its result only for runs in which every stage call returns. An exception raised inside a stage call (generation, synthesis, transcription, a gate, the render, validation's probe) is not modelled; it propagates to the job runner, whose handling is `JobQueue.RaisedIsError`.
- `Pipeline.PipelineRun.Staged`: the same, every stage call is taken to return.
- `Pipeline.PipelineRun.Later`: the same, every stage call is taken to return.
- `Optimization.SelectionScore` models `_selection_score`, which optimization.py defines but its loop never calls. The loop ranks attempts by the virality estimate's score, and so does the model.
- hf_t2v_hunter: `math.log1p` is the parameter `log1p`, of which the model assumes only that it is positive on positive arguments (the type `HfScoring.Log1p`); `datetime.now()` is the parameter `now`, in seconds, like a card's modification time, and time zones are not modelled.
- hf_t2v_hunter: `round(required, 2)` on required_gb and float rounding in `(total_bytes + size_bytes) / 1024**3` are not applied; the numbers are exact reals. `int(round(total * 100))` is `Num.Round`.
- hf_t2v_hunter: the estimate's hints dict is the set of its keys that are set to True; `str(card_data)` is a string field of the card, present when card_data is a dict.
- hf_t2v_hunter: `rank_models` writes the new score and reasons into the very entries of its input list; the model returns the rescored list and does not model that the caller's objects change too.
- hf_t2v_hunter: `snapshot_download` is the parameter `fetch`, keyed by repository id. Creating the destination directories, the target directory name and writing model_info.json (with its timestamp) are not modelled; the info path is recorded. `list_downloaded` reads the disk and is not modelled.
- tts.py: `{remaining:.3f}` is the parameter `fmt`. The Piper and ffmpeg calls of `synthesize_voice` are not modelled.
- Tts.BuildAtempo: requires a positive speed. For a speed of 0 or less the source's second loop never ends; the request model bounds the speed to [0.5, 2.0].
- env_utils.py: the .env file is its text, or none when it is missing; reading and writing it cannot fail. The updates dict is a sequence in insertion order, with each key once. Whitespace is ASCII whitespace.
- downloads.py: the network is the parameter `respond` (the Content-Length header and the sizes of the non-empty reads); a failing `urlopen`, a read error and the log lines are not modelled. The output directory is the set of its file names, and `extracted` names the files a zip archive adds.
- downloads.py: `_safe_output_dir` resolves paths on disk; whether it accepts the directory is the parameter `outputAllowed`.
- Downloads.UrlPath: follows `urlsplit` for the scheme, the //netloc, the query, the fragment and `;params`. It does not remove tabs and newlines, reject malformed IPv6 hosts or percent-decode.
- Downloads.Stem: `Path.stem` and `Path.suffix` use the rule of Python 3.12 and earlier. A dot at index 0 or at the end starts no suffix.
- Downloads.Percent: `int(downloaded / total * 100)` is computed on exact reals, not floats.
- utils.py: `uuid4()` is the parameter `uuidHex`. `clamp` on integers is `Num.Clamp`. The file, JSON and subprocess helpers are I/O; `run_subprocess` is `SubprocessManager.SubprocessManager.Run`.
- model_setup.py: a directory is its listing: whether it exists, the names of the entries directly in it, and the parent of the first `model.bin` that `rglob` finds (rglob's order is the file system's). `str.isalnum()` and `str.lower()` are ASCII. `settings.BASE_DIR / ".env"` is the `EnvUtils.Env` object.
- campaign_memory.py: the campaign_memory table is a map from campaign id to memory. A row whose JSON does not parse, a memory missing one of its three lists and the `updated_at` timestamp are not modelled.
- continuity.py: the context dict is `Option<SeriesContext>`, None for an empty dict; a key the context lacks reads as an empty list or "". The script, the metadata and its lists are changed in place in the source; the model returns the new values and does not model that the caller's objects change too. pipeline.py's call of the post-processing (lines 98-102) is not part of the Pipeline model.
- hooks_pool.py: the LLM call of `generate_hooks` is its reply, a parameter; `json.loads` and `.get("hooks", [])` are the parameter `decodeHooks`, and `str(item)` of an item that is not a string is not modelled. The mode is the request's `HookSelectionMode`. The generation strategy takes the pool `generate_hook_pool` builds from these as a parameter.
- effects_planner.py: the beats are the script's beats; `str()` and `float()` of other value types and writing `effects_plan.json` are not modelled. `str.isupper()` and `str.lower()` are ASCII. The pipeline hands the plan's times to the Editor as its `Effects` parameter.
- background.py: `select_clips` (listing, tag filter and shuffle) is not modelled; its clip list is a parameter. The probed durations, the hotspots (empty outside the assets directory) and each segment's random draws are the `Probe` parameter. `round(…, 2)` on the segment fields is not applied, `{:.2f}` is the parameter `fixed`, and the command is returned rather than run. background.py's `_pick_hotspot_start` is the same as editor.py's and is modelled once, as `Editor.PickHotspotStart`.
- audio_mastering.py: the float formats `:.2f`, `:.1f` and `:.0f` are the `Decimals` parameter; `str()` of an integer is `Text.IntToString`. The Editor takes the graph as a string parameter, and `_build_audio_filters`, which passes the graph's filters through the plugins, is not modelled.
- registry.py: registry.json is its decoded lists, or none when it is missing or does not decode; a stored entry is taken to have every field. The directory scans are their sorted results, parameters. `float()` of a quality that is not a number is not modelled.
- routing.py: `get_routing_config` and `save_routing_config` read and write the database and are not modelled; the configuration is a parameter. `_available_vram_gb` asks torch and is the parameter `availableVram`; a model file's size is the parameter `sizeGb`. `float()` of a VRAM value that is not a number is not modelled.
- assets_manager.py: a path is its segments, and `resolve()` is applied lexically: symbolic links are not followed. The listing of a type's directory is a parameter (the files, with whether each is in a subdirectory); the asset_tags table is a map to decoded tag lists, and a row that does not decode is not modelled. `get_metadata`, `_detect_type`, `_asset_dir`, `get_hotspots` and `set_hotspots` read the disk, run the probe or store the hotspots as given, and are not modelled.
- ModelSetup.ResolveInstalled: looks in the directory the download writes to, as the finding below corrects; `ModelSetup.ResolveInstalledAsWritten` is the source's lookup.
- hf_t2v_hunter: the hub search, the validators, the reports and the CLI commands other than `parse_weights` are outside this model. `float()` is the parameter `parseFloat`.

- Json: a number, a list and a dict carry the text `str()` gives for them as parsed; the model does not compute it.
- main.py: `model_dump` and `GenerateRequest(**merged)` are the parameters `dump` and `build`. The endpoints, the job id generator, writing request.json, the projects table, `_read_title` and the path and thumbnail columns of the final `update_status` are not modelled. The runner's pipeline call is its outcome, a parameter.
- routes_beats.py: the get and put beats routes pass straight through to `BeatsEditor.GetBeats` and `UpdateBeats`, which are modelled there. `str()` of a float is the parameter `repr`.
- WatchPending.PendingStore.ListPending: the order among batches with equal timestamps is not stated. The batch id and `utcnow` are parameters, and `datetime(created_at)` is the parameter `seconds`.
- preset_manager.py: presets.json is the `PresetFile` datatype (its decoded presets, or none when it is missing or does not decode). The temporary-file write of `_save` and `json.dumps` are not modelled.
- template_manager.py: json and yaml parsing is the outcome `Option<Value>`, and a missing PyYAML parses as None. The templates directory is a map from file name to text.
- scheduler.py: the clock `now`, `datetime.fromisoformat` (`parseIso`) and `generate_job_id` (`newId`) are parameters, and the schedules are the list `list_schedules` returns. Paths are compared as strings, and request validation is only the topic's minimum length of 3.
- scheduler.py: `create_schedule`, `list_schedules`, `get_scheduler_status`, the `run_scheduler` loop and its tick, `_should_scan`, the log lines, the report's job ids and the `last_run` timestamps are not modelled; only which schedules are stamped is.
- campaigns.py: the campaign tables are maps, `newId` is a parameter and `GenerateRequest(**payload)` is the parameter `build`. The job order is a parameter. The series context reads only string and string-list metadata.
- campaigns.py: `export_campaign`, the zip and file writes, `build_publish_pack`, `build_report` and `update_campaign_metadata` are not modelled.
- Campaigns.CampaignStore.ExportSummary: a `virality_score` that is present but None, where the source's comparison raises TypeError, is not modelled.
- validation.py: the `run_subprocess` outcomes are `Result<string>`; `json.loads`, `int()` and `float()` are parameters, and `str(exc)` is kept as the error. File existence is the parameter `present`. `write_validation` is not modelled, and the pipeline takes the validation verdict as a parameter of its own.
- variations.py: the random draws are indices taken modulo the list's length; `available_voices` and the globs are lists. The request rebuild is a record update, and `Variations.VariationKeeps` proves it stays valid. `str()` of a non-string is `Json.Display`.

## Findings

| source | as written | input that shows it | evidently intended | confidence | as-written member | corrected member |
|---|---|---|---|---|---|---|
| app/optimization.py:57-129 | in hook_only mode every attempt stores the one `base_script` object, and `_maybe_rewrite_hook` mutates it in place, so `best_attempt["script"]` is the last attempt's script whichever attempt was selected, and `update_beats` saves that script | hook_only, 2 attempts, minimum hook score 100, base hook "x" rewritten to "7" then back to "x": attempt 1 (hook "7") is selected, but the returned script has hook "x" | return and save the selected attempt's own script | not executed | Optimization.AliasedSelectionDiffers | Optimization.Optimize |
| app/captions.py:13 and app/captions_autofix.py:229 | `_format_ass_time` rounds the fraction of the seconds to centiseconds without carrying, so a fraction of .995 or more prints 100 centiseconds | 59.996 s prints "0:00:59.100" | carry the rounding into the seconds: "0:01:00.00" | not executed | Ass.CentisOverflow | Ass.FormatParse |
| app/pipeline.py:319 | `preview_duration` is assigned only inside `if "render" in steps`, so a preview run whose steps skip render reads an unbound name at validation | preview mode with steps ["voice"], and script.json, subtitles.ass and preview.mp4 on disk | validate a preview against the requested preview duration | not executed | Pipeline.PreviewWithoutRenderUnbound | Pipeline.ExpectedAgrees |
| app/model_setup.py:102 | `_resolve_installed` looks for a recommended model under model_setup's `_sanitize_name(model.name)`, which lower-cases; the download route stores it under the `_sanitize_name(model.name)` of downloads.py, which keeps the case | the Mistral model, downloaded with its .gguf on a case-sensitive file system: it is stored in llm/Mistral-7B-Instruct-Q4 and apply_download configures it, but the list looks in llm/mistral-7b-instruct-q4 and reports it not installed (the Piper voice likewise) | look in the directory the download wrote | not executed; holds on case-sensitive file systems | ModelSetup.MistralNotListedAfterDownload | ModelSetup.InstalledAfterDownload |
