# Visual dubbing pipeline, modelled in Dafny

This project models the core of a video-dubbing and lip-sync pipeline on AWS. A job
object dropped into S3 starts a Step Functions state machine with these stages:

1. Transcribe the source video, then poll until the transcription is done.
2. In parallel, translate the transcript sentence by sentence and cut voice samples of
   2 to 10 seconds out of the source audio.
3. Send one text-to-speech job per translated sentence to a SageMaker endpoint, then poll
   until every output file exists.
4. Concatenate the dubbed audio, fit it to the length of the source, and send a lip-sync
   ("retalking") job, then poll until the output video exists.

The model also covers three smaller parts:

- the retalking endpoint's request and response handling (`input_fn`, `predict`,
  `output_fn`, and the S3 URI helpers);
- the fine-tuning script that fills a training YAML template from hyperparameters;
- the archive filters used when models are packed and unpacked.

Modules:

- `Values`: the JSON envelopes passed between stages, and the `Result` of a handler. A
  Python exception is an `Error`: `KeyError`, `TypeError`, `AttributeError`, `ValueError`
  and so on.
- `Strs`: Python's `str.split`, `join`, `replace`, `strip`, `startswith`, `in`, and
  `os.path.join` on strings.
- `S3Uri`: the two ways the code takes apart an `s3://bucket/key` URI. The Lambdas
  split on `/` and the endpoint splits on `//`.
- `StateMachine`: the states and transitions of the workflow, its `Choice` conditions,
  and runs bounded by a step budget that stands for the 60-minute timeout.
- `Transcribe`, `Translate`, `VoiceSamples`, `InvokeTts`, `PollTts`, `InvokeRetalking`,
  `PollRetalking`: one module per Lambda handler. A handler that iterates is a method
  with a loop, proved equal to a reference function. A handler that only computes is a
  function.
- `Pipeline`: what the pollers' replies make the state machine do next.
- `InferenceHandler`: the retalking model server's request validation, prediction
  command and reply.
- `TrainingYaml`: `calc_iterations` and `process` of the fine-tuning script.
- `ArchiveFilters`: `tar_filter_function`, `is_safe_path` and the loop of
  `safe_extract`.

Everything outside the program is a function-typed parameter of the handler that uses it:

- S3 reads and existence checks;
- Transcribe and Translate calls;
- audio decoding and the `ffmpeg` tempo change;
- the clock;
- JSON decoding;
- `os.path.realpath`;
- the ffmpeg/inference command run.

Output actions (S3 puts, uploads, endpoint invocations) are returned as values, in
program order. Times are whole milliseconds. A transcript's times (decimal strings of
seconds) are turned into milliseconds by a conversion the voice-sample handler takes as a
parameter. Audio is a sequence with one element per
millisecond.

## Model

| member | source | states |
|---|---|---|
| Values.Get | src/lambda_functions/poll_transcribe/poll_transcribe.py:16-18 | `d[key]` succeeds exactly on a dict holding the key and yields its value; a dict without it raises `KeyError(key)` |
| Values.GetStr | src/lambda_functions/voice_samples/voice_samples.py:138-140 | a field concatenated as a string is read exactly when the value is a dict holding a string under that key, and the string is returned; any other present value raises `TypeError`, as `str + int` does |
| Values.GetSplit | src/lambda_functions/poll_tts/poll_tts.py:57 | a field split as a string is read exactly when it holds a string; any other present value raises `AttributeError`, as a missing `split` method does |
| Values.At | src/lambda_functions/invoke_tts/invoke_tts.py:25 | `v[i]` yields element `i` exactly when `v` is a list longer than `i`; every other value raises, as it does at each call site, where the element read must be a dict |
| Values.Elements | src/lambda_functions/invoke_tts/invoke_tts.py:19 | iteration over a list yields its items, over a string one element per character, over an empty dict nothing; every other value raises |
| Strs.IndexOf | src/lambda_functions/voice_samples/voice_samples.py:41 | the index found is an occurrence of the separator with none before it; no index means no occurrence anywhere |
| Strs.Split | src/lambda_functions/voice_samples/voice_samples.py:41 | `str.split(sep)` always returns at least one piece |
| Strs.SplitOnce | src/retalking/code/inference_handler.py:151 | head, separator and tail rebuild the string |
| Strs.SplitOnceHeadFree | src/retalking/code/inference_handler.py:151 | the split is at the first separator (the head is free of it), and there is no split exactly when the separator is absent |
| Strs.JoinSplit | src/lambda_functions/voice_samples/voice_samples.py:41-42 | `sep.join(s.split(sep)) == s` for every string and non-empty separator |
| Strs.SplitPiecesFree | src/lambda_functions/voice_samples/voice_samples.py:43 | no piece of a split contains the separator |
| Strs.TrimLeftDrops | src/lambda_functions/voice_samples/voice_samples.py:88 | removes exactly the leading whitespace: what was removed is all whitespace, and the result is a suffix that is empty or starts with a non-space |
| Strs.TrimRightDrops | src/lambda_functions/voice_samples/voice_samples.py:88 | removes exactly the trailing whitespace: what was removed is all whitespace, and the result is a prefix that is empty or ends with a non-space |
| Strs.ReplaceIsJoinSplit | finetune-tts/create_training_yaml.py:78-97 | `s.replace(pat, rep)` equals `rep.join(s.split(pat))` |
| Strs.ReplaceAbsent | finetune-tts/create_training_yaml.py:78-97 | replacing a pattern that does not occur leaves the text unchanged |
| Strs.NatToStringInjective | src/lambda_functions/transcribe/transcribe.py:30 | distinct integers print as distinct decimal strings |
| Strs.PathJoin | src/utils/__init__.py:35 | `os.path.join(a, b)` with an absolute `b` is `b` itself |
| S3Uri.ParseS3UriIsSplit | src/lambda_functions/poll_tts/poll_tts.py:55-60 | parsing succeeds exactly when the URI has at least four `/`-pieces; the bucket is piece 2 and the key is the `/`-join of the rest |
| S3Uri.ParseS3UriBucketFree | src/lambda_functions/poll_tts/poll_tts.py:55-60 | a parsed bucket never contains `/` |
| S3Uri.ParseS3UriRoundTrip | src/lambda_functions/poll_tts/poll_tts.py:55-60 | `s3://b/k` with a slash-free bucket parses back to exactly `(b, k)`, whatever slashes `k` holds |
| S3Uri.KeyAfterThirdSlashAgrees | src/lambda_functions/invoke_tts/invoke_tts.py:48-55 | the key taken by the TTS submitter agrees with the key the pollers parse |
| S3Uri.GetBucketKeyRoundTrip | src/retalking/code/inference_handler.py:147-160 | `get_bucket` and `get_key` give back `b` and `k` for `s3://b/k` when `k` holds no `//` |
| S3Uri.GetKeyDropsAfterDoubleSlash | src/retalking/code/inference_handler.py:155-160 | for `s3://b/a//c`, `get_key` returns only `a` (the rest after a second `//` is lost) while `get_bucket` still returns `b` |
| S3Uri.GetKeyDropsExample | src/retalking/code/inference_handler.py:147-160 | example of `S3Uri.GetKeyDropsAfterDoubleSlash`: `s3://bucket/a//b.mp4` has key `a` and bucket `bucket` |
| S3Uri.GetObjectNameIsLastComponent | src/retalking/code/inference_handler.py:162-166 | the object name is a slash-free suffix of the URI that is the whole URI or follows a `/` |
| StateMachine.Next | src/stacks/visual_dubbing_lipsync_cdk_stack.py:242-262 | a state has no successor exactly when it is the final `Completed`, or a `Choice` whose input lacks `$.job_status` |
| StateMachine.ChoiceAdvancesIffCompleted | src/stacks/visual_dubbing_lipsync_cdk_stack.py:242-262 | each `Choice` moves on exactly when `$.job_status` is the string `COMPLETED`, goes to its wait state exactly when `$.job_status` is present with another value, and has no successor exactly when `$.job_status` is missing |
| StateMachine.WaitReturnsToPoll | src/stacks/visual_dubbing_lipsync_cdk_stack.py:229-240 | each wait state returns to its poll task, and each poll task leads to its `Choice` |
| StateMachine.OtherStatusesWait | src/stacks/visual_dubbing_lipsync_cdk_stack.py:242-262 | `FAILED`, `IN_PROGRESS` and `IN PROGRESS` send a `Choice` back to waiting; a missing status leaves it without a successor |
| StateMachine.StageOrder | src/stacks/visual_dubbing_lipsync_cdk_stack.py:242-262 | with completed statuses, the states follow the main line in order from transcription to `Completed` |
| StateMachine.RankMonotone | src/stacks/visual_dubbing_lipsync_cdk_stack.py:242-262 | wherever a transition exists, no transition goes back to an earlier stage; submit tasks always advance; staying in a stage happens only inside a poll loop |
| StateMachine.RankAlongPath | src/stacks/visual_dubbing_lipsync_cdk_stack.py:242-262 | along any path of transitions the stage never decreases |
| StateMachine.SubmitNeverRevisited | src/stacks/visual_dubbing_lipsync_cdk_stack.py:188-226 | along any path, a submit task (transcribe, parallel, invoke TTS, invoke retalking) is never entered again |
| StateMachine.OnlyPollLoopsRepeat | src/stacks/visual_dubbing_lipsync_cdk_stack.py:229-262 | a state that occurs twice on a path is a poll, choice or wait state |
| StateMachine.Step | src/stacks/visual_dubbing_lipsync_cdk_stack.py:188-262 | a step of execution moves only along a transition of the workflow; a `Choice` without `$.job_status` fails with `States.Runtime` |
| StateMachine.TaskOutputIsPayload | src/stacks/visual_dubbing_lipsync_cdk_stack.py:188-226 | a task moves on exactly when its Lambda returns; the next input is the Lambda's payload (`output_path="$.Payload"`), and a raised error fails the run |
| StateMachine.ChoiceAndWaitPassInput | src/stacks/visual_dubbing_lipsync_cdk_stack.py:229-262 | `Wait` states pass their input on unchanged; a `Choice` passes it on exactly when it carries `$.job_status` and otherwise fails the run with `States.Runtime` |
| StateMachine.ParallelFlowsThrough | src/stacks/visual_dubbing_lipsync_cdk_stack.py:254-256 | the parallel state passes the list `[translate output, voice-samples output]` to the TTS task |
| StateMachine.Run | src/stacks/visual_dubbing_lipsync_cdk_stack.py:271-274 | a run records at least its starting state and input |
| StateMachine.RunIsPath | src/stacks/visual_dubbing_lipsync_cdk_stack.py:242-262 | the states of a run follow the workflow's transitions |
| StateMachine.SubmitRunsOnce | src/stacks/visual_dubbing_lipsync_cdk_stack.py:188-262 | in a run from the transcribe task each submit task runs at most once |
| StateMachine.SucceedOnlyAtCompleted | src/stacks/visual_dubbing_lipsync_cdk_stack.py:244 | a run succeeds only by reaching `Completed`, with the last input as its output |
| StateMachine.NeverCompletedTimesOut | src/stacks/visual_dubbing_lipsync_cdk_stack.py:229-274 | a poll that always reports a status other than `COMPLETED` keeps the run in its loop until the time budget ends |
| StateMachine.MissingStatusFails | src/stacks/visual_dubbing_lipsync_cdk_stack.py:242-262 | a poll that returns an envelope without `job_status` fails the run at its `Choice`, one transition later, with `States.Runtime` |
| StateMachine.RunTrace | src/stacks/visual_dubbing_lipsync_cdk_stack.py:271-274 | a run that follows a chain of successful transitions to `Completed` records exactly those states and inputs and succeeds with the last input as its output |
| StateMachine.HappyPath | src/stacks/visual_dubbing_lipsync_cdk_stack.py:188-274 | when every task returns `COMPLETED` at once, a run of ten or more steps visits exactly the main line and succeeds |
| Transcribe.StemIsPrefixOfName | src/lambda_functions/transcribe/transcribe.py:30 | the job-name stem is the part of the last `/`-component before its first `.` |
| Transcribe.StemCutsAtFirstDot | src/lambda_functions/transcribe/transcribe.py:30 | for `dir/a.rest` with a dot-free, slash-free `a`, the stem is `a` |
| Transcribe.StemExample | src/lambda_functions/transcribe/transcribe.py:30 | example of `Transcribe.StemCutsAtFirstDot`: `s3://bucket/videos/a.b.mp4` has stem `a` |
| Transcribe.JobNameInjective | src/lambda_functions/transcribe/transcribe.py:30 | two job names for the same source differ when the timestamps differ |
| Transcribe.Request | src/lambda_functions/transcribe/transcribe.py:30-39 | the request carries the job name, the media URI, the format and the language from the job config, and fails exactly when one of them is missing or the URI is not a string |
| Transcribe.Submitted | src/lambda_functions/transcribe/transcribe.py:43-47 | the reply is status 200 with the job name Transcribe returned and the job config, and exists exactly when Transcribe's response holds a job name |
| Transcribe.TranscribeHandlerOutcome | src/lambda_functions/transcribe/transcribe.py:16-47 | a successful run reads the job object from the event's bucket and key, starts a job named from the source URI and the clock, and returns that job's name and the config |
| Transcribe.PollTranscribeHandler | src/lambda_functions/poll_transcribe/poll_transcribe.py:12-27 | the reply holds exactly status 200, the job name, its status as reported and the job config; it fails exactly when a field or the status is missing |
| Translate.NonEmpty | src/lambda_functions/translate/translate.py:36-37 | keeps exactly the non-empty segments; order and repeats are pinned by `NonEmptyAppend` |
| Translate.NonEmptyAppend | src/lambda_functions/translate/translate.py:35-37 | the filter distributes over concatenation and keeps a single segment exactly when it is not empty, so the kept segments are the non-empty ones in order, repeats included |
| Translate.Translations | src/lambda_functions/translate/translate.py:36-41 | one translation per non-empty segment |
| Translate.TranslationAt | src/lambda_functions/translate/translate.py:37-40 | the `i`-th translation is the `TranslatedText` of translating the `i`-th non-empty segment with its `.` put back |
| Translate.TranslationsAll | src/lambda_functions/translate/translate.py:36-41 | every translation, in segment order, is its segment's |
| Translate.TranslationsOkIff | src/lambda_functions/translate/translate.py:36-41 | the loop finishes exactly when no non-empty segment's translation raises |
| Translate.EnvelopeFields | src/lambda_functions/translate/translate.py:45-62 | status 200 with the translated segments when there are any, else status 400 with the fixed error text; `source_task` and the job config in both |
| Translate.PrefixFailure | src/lambda_functions/translate/translate.py:36-41 | once a translation raises, later segments do not change the outcome |
| Translate.TranslateHandler | src/lambda_functions/translate/translate.py:15-62 | the loop computes exactly the reference outcome of the whole handler |
| Translate.TranslateOutcome | src/lambda_functions/translate/translate.py:46-62 | status 200 with the translated segments exactly when some segment was non-empty; otherwise status 400 with the error message; the job config in both |
| Translate.NoDotOnePiece | src/lambda_functions/translate/translate.py:33 | a transcript without `.` is translated as one segment |
| Translate.TrailingDot | src/lambda_functions/translate/translate.py:33-37 | a trailing `.` adds no segment |
| VoiceSamples.Millis | src/lambda_functions/voice_samples/voice_samples.py:89-90 | `float(None)` raises `TypeError`; any other time is converted by the `toMillis` parameter |
| VoiceSamples.SentencePerPeriod | src/lambda_functions/voice_samples/voice_samples.py:86-92 | each `.` item closes exactly one sentence, appended after the earlier ones |
| VoiceSamples.PeriodCloses | src/lambda_functions/voice_samples/voice_samples.py:83-96 | a period item succeeds exactly when both times convert (never when no word set the start), appends the stripped text with its converted times, and resets the text and the times |
| VoiceSamples.FeedOpen | src/lambda_functions/voice_samples/voice_samples.py:68-84 | a non-period item extends the text, sets the start only on the sentence's first word, and moves the end to each word's end |
| VoiceSamples.FeedAllAppend | src/lambda_functions/voice_samples/voice_samples.py:66-96 | the item loop over two runs of items is the loop over the first continued over the second, and a raise in the first run decides the outcome |
| VoiceSamples.OpenSentence | src/lambda_functions/voice_samples/voice_samples.py:66-84 | from reset loop variables and without periods, the scan holds the concatenated text, the first word's start and the last word's end, and adds no sentence |
| VoiceSamples.SentenceSpan | src/lambda_functions/voice_samples/voice_samples.py:66-96 | from reset loop variables, a sentence runs from its first word's start to its last word's end, holds the stripped text plus `.`, and is appended after the earlier sentences |
| VoiceSamples.ClosedAfterPeriod | src/lambda_functions/voice_samples/voice_samples.py:94-96 | after a `.` item the text and both times are reset |
| VoiceSamples.NextSentence | src/lambda_functions/voice_samples/voice_samples.py:66-96 | for every k, sentence k spans the items after the k-th `.` up to the next one: first word's start, last word's end, their text, after the k earlier sentences |
| VoiceSamples.WindowEdges | src/lambda_functions/voice_samples/voice_samples.py:101 | a duration of exactly 2 s is rejected, 2.001 s and 10 s are kept, 10.001 s is rejected |
| VoiceSamples.Selected | src/lambda_functions/voice_samples/voice_samples.py:99-102 | keeps exactly the sentences whose duration is over 2 s and at most 10 s |
| VoiceSamples.SelectedAppend | src/lambda_functions/voice_samples/voice_samples.py:99-102 | selection keeps sentence order |
| VoiceSamples.Slice | src/lambda_functions/voice_samples/voice_samples.py:129 | an in-range slice is the audio between the two times |
| VoiceSamples.SampleNameInjective | src/lambda_functions/voice_samples/voice_samples.py:131 | distinct indices give distinct `i.wav` names |
| VoiceSamples.ExportsKeys | src/lambda_functions/voice_samples/voice_samples.py:124-132 | the exported files are exactly `0.wav` up to `(n-1).wav` |
| VoiceSamples.ExportsAt | src/lambda_functions/voice_samples/voice_samples.py:124-132 | file `i.wav` holds the audio of selected sentence `i` |
| VoiceSamples.FeedPrefixFailure | src/lambda_functions/voice_samples/voice_samples.py:66-96 | once an item raises, later items do not change the outcome |
| VoiceSamples.SentencesOf | src/lambda_functions/voice_samples/voice_samples.py:60-96 | the loop yields exactly the sentences of the reference scan, or its error |
| VoiceSamples.Select | src/lambda_functions/voice_samples/voice_samples.py:99-102 | the loop yields exactly the selected sentences |
| VoiceSamples.VoiceSamplesHandler | src/lambda_functions/voice_samples/voice_samples.py:20-157 | the handler computes exactly the reference outcome: reply and uploaded objects |
| VoiceSamples.ExportAll | src/lambda_functions/voice_samples/voice_samples.py:124-132 | the export loop writes exactly the exported files |
| VoiceSamples.UploadAll | src/lambda_functions/voice_samples/voice_samples.py:142-148 | the upload loop stores every exported file under `prefix/name` in the bucket |
| VoiceSamples.PublishSamples | src/lambda_functions/voice_samples/voice_samples.py:108-157 | the publishing steps compute exactly the reference reply and uploads |
| VoiceSamples.UploadsAdd | src/lambda_functions/voice_samples/voice_samples.py:142-148 | uploading one more file adds exactly its key and leaves the others |
| VoiceSamples.UploadsSize | src/lambda_functions/voice_samples/voice_samples.py:142-148 | one object per uploaded file, none overwritten |
| VoiceSamples.UploadsOfExports | src/lambda_functions/voice_samples/voice_samples.py:124-148 | one object per selected sentence, `prefix/i.wav` holding sentence `i`'s audio |
| VoiceSamples.PublishOutcome | src/lambda_functions/voice_samples/voice_samples.py:108-157 | status 400, nothing uploaded and no samples URI exactly when no sentence is selected; otherwise the samples URI `s3://bucket/prefix_inputs/job_name/voice_samples` and one object per selected sentence |
| InvokeTts.Absorb | src/lambda_functions/invoke_tts/invoke_tts.py:19-23 | a branch output raises exactly when it is malformed |
| InvokeTts.Gather | src/lambda_functions/invoke_tts/invoke_tts.py:19-23 | gathering raises exactly when some branch output is malformed |
| InvokeTts.GatherPicksLastTagged | src/lambda_functions/invoke_tts/invoke_tts.py:19-23 | the segments and the samples URI come from the last branch tagged `translate` or `voice_samples` |
| InvokeTts.GatherEitherOrder | src/lambda_functions/invoke_tts/invoke_tts.py:19-23 | the two parallel outputs give the same result in either order |
| InvokeTts.GatherPrefixFailure | src/lambda_functions/invoke_tts/invoke_tts.py:19-23 | once a branch raises, later ones do not change the outcome |
| InvokeTts.NamesOf | src/lambda_functions/invoke_tts/invoke_tts.py:25-31 | the names used in the job URIs are read exactly when all four are strings |
| InvokeTts.InputUriInjective | src/lambda_functions/invoke_tts/invoke_tts.py:40 | distinct job indices have distinct input URIs |
| InvokeTts.DestinationUriInjective | src/lambda_functions/invoke_tts/invoke_tts.py:41 | distinct job indices have distinct destination URIs, so no TTS output overwrites another |
| InvokeTts.InputKeyFromUri | src/lambda_functions/invoke_tts/invoke_tts.py:40-55 | the key the job object is put under is the key part of its input URI |
| InvokeTts.Jobs | src/lambda_functions/invoke_tts/invoke_tts.py:35-44 | one job per segment, in order, job `i` built from segment `i`; raises exactly for non-empty segments without samples URI (`NameError`) or with a non-string name |
| InvokeTts.Submissions | src/lambda_functions/invoke_tts/invoke_tts.py:48-62 | two actions per job |
| InvokeTts.SubmissionsInOrder | src/lambda_functions/invoke_tts/invoke_tts.py:48-62 | action `2i` puts job `i` under its input key; action `2i+1` invokes the endpoint asynchronously on that input |
| InvokeTts.GatherMessages | src/lambda_functions/invoke_tts/invoke_tts.py:19-23 | the gathering loop computes exactly `Gather` |
| InvokeTts.BuildJobs | src/lambda_functions/invoke_tts/invoke_tts.py:35-44 | the job loop computes exactly `Jobs` |
| InvokeTts.SubmitJobs | src/lambda_functions/invoke_tts/invoke_tts.py:48-62 | the submit loop computes exactly `Submissions` |
| InvokeTts.InvokeTtsHandler | src/lambda_functions/invoke_tts/invoke_tts.py:15-70 | the handler computes exactly the reference reply and actions |
| InvokeTts.InvokeTtsOutcome | src/lambda_functions/invoke_tts/invoke_tts.py:15-70 | the reply lists one job per translated segment and the job config; job `i` is put then invoked, in order |
| InvokeTts.FailedTranslateRaises | src/lambda_functions/invoke_tts/invoke_tts.py:19-23 | a translate branch that returned its error reply (no segments) makes the handler raise |
| InvokeTts.NoSamplesRaises | src/lambda_functions/invoke_tts/invoke_tts.py:19-44 | with segments but no voice-samples branch, the handler raises `NameError` |
| PollTts.Destinations | src/lambda_functions/poll_tts/poll_tts.py:22-36 | one looked-up object per job |
| PollTts.DestinationAt | src/lambda_functions/poll_tts/poll_tts.py:28-29 | the object looked up for job i is job i's parsed destination |
| PollTts.DestinationsAll | src/lambda_functions/poll_tts/poll_tts.py:22-36 | every looked-up object is its own job's parsed destination, in list order |
| PollTts.CompletedSet | src/lambda_functions/poll_tts/poll_tts.py:22-36 | only job indices are counted as complete |
| PollTts.CompletedSnoc | src/lambda_functions/poll_tts/poll_tts.py:22-36 | checking one more job adds its index exactly when its object exists |
| PollTts.AllCompletedIff | src/lambda_functions/poll_tts/poll_tts.py:39-53 | the count reaches the number of jobs exactly when every destination exists |
| PollTts.DestinationsPrefixFailure | src/lambda_functions/poll_tts/poll_tts.py:22-36 | once a destination fails to parse, later jobs do not change the outcome |
| PollTts.CheckJobs | src/lambda_functions/poll_tts/poll_tts.py:17-36 | the loop yields exactly the completed indices and destinations, or the parse error |
| PollTts.PollTtsHandler | src/lambda_functions/poll_tts/poll_tts.py:13-53 | the handler computes exactly the reference reply |
| PollTts.PollTtsOutcome | src/lambda_functions/poll_tts/poll_tts.py:13-53 | status 200 with the jobs and the config; `COMPLETED` exactly when every job's destination exists, otherwise `IN_PROGRESS` |
| PollTts.NoJobsCompleted | src/lambda_functions/poll_tts/poll_tts.py:39-53 | an empty job list counts as `COMPLETED` |
| InvokeRetalking.Segments | src/lambda_functions/invoke_retalking/invoke_retalking.py:41-53 | one segment per TTS job |
| InvokeRetalking.SegmentAt | src/lambda_functions/invoke_retalking/invoke_retalking.py:41-53 | segment i holds job i's parsed destination and the audio downloaded from it |
| InvokeRetalking.FlattenSnoc | src/lambda_functions/invoke_retalking/invoke_retalking.py:52 | concatenating one more segment appends its audio |
| InvokeRetalking.FlattenLength | src/lambda_functions/invoke_retalking/invoke_retalking.py:39-53 | the combined length is the sum of the segment lengths |
| InvokeRetalking.FlattenAt | src/lambda_functions/invoke_retalking/invoke_retalking.py:39-53 | segment `i` sits in the combined audio right after the segments before it |
| InvokeRetalking.Tempo | src/lambda_functions/invoke_retalking/invoke_retalking.py:72-75 | the tempo times the source length is the dubbed length; a silent source divides by zero |
| InvokeRetalking.TempoExample | src/lambda_functions/invoke_retalking/invoke_retalking.py:72-75 | example of `InvokeRetalking.Tempo`: 12 s of dubbed audio over a 10 s source gives tempo 1.2 |
| InvokeRetalking.CombinedKeyIs | src/lambda_functions/invoke_retalking/invoke_retalking.py:79-89 | the combined audio is stored under `prefix_inputs/job_name/tts_combined/job_name-dubbed-tempo.wav` |
| InvokeRetalking.SegmentsPrefixFailure | src/lambda_functions/invoke_retalking/invoke_retalking.py:41-53 | once a segment fails, later jobs do not change the outcome |
| InvokeRetalking.ConcatenateSegments | src/lambda_functions/invoke_retalking/invoke_retalking.py:39-53 | the loop computes exactly the combined audio and last job's bucket |
| InvokeRetalking.InvokeRetalkingHandler | src/lambda_functions/invoke_retalking/invoke_retalking.py:21-129 | the handler computes exactly the reference reply and actions |
| InvokeRetalking.SubmitOutcome | src/lambda_functions/invoke_retalking/invoke_retalking.py:65-129 | the reply carries the retalking job record; the actions are, in order, upload of the retimed audio, put of the job record, asynchronous invoke on its URI |
| InvokeRetalking.SilentSourceRaises | src/lambda_functions/invoke_retalking/invoke_retalking.py:72-75 | an empty source audio raises `ZeroDivisionError` |
| InvokeRetalking.InvokeRetalkingOutcome | src/lambda_functions/invoke_retalking/invoke_retalking.py:21-129 | the combined audio is the segments in job order with the total length; the bucket is the last job's, or the config's when there are no jobs |
| PollRetalking.PollRetalkingHandler | src/lambda_functions/poll_retalking/poll_retalking.py:13-44 | the reply holds exactly status 200, the job, the config and `COMPLETED` when the output video exists, `IN PROGRESS` otherwise |
| Pipeline.RetalkingPollDrivesChoice | src/lambda_functions/poll_retalking/poll_retalking.py:22-37 | after the retalking poll, the run completes exactly when the output video exists, and otherwise waits |
| Pipeline.TtsPollDrivesChoice | src/lambda_functions/poll_tts/poll_tts.py:39-53 | after the TTS poll, the run moves to lip-sync exactly when every TTS output exists, and otherwise waits |
| InferenceHandler.MissingFields | src/retalking/code/inference_handler.py:121-122 | lists exactly the required fields the request lacks |
| InferenceHandler.InputFn | src/retalking/code/inference_handler.py:111-133 | a non-JSON content type and an undecodable body raise their `ValueError`s; a result holds exactly the three URIs and the inference parameters |
| InferenceHandler.InputFnMissing | src/retalking/code/inference_handler.py:121-133 | a dict request succeeds exactly when no field is missing; otherwise the error names the missing fields in order, joined by `, ` |
| InferenceHandler.OutputFn | src/retalking/code/inference_handler.py:141-145 | the reply is exactly status 200 and the output URI of the prediction |
| InferenceHandler.Locate | src/retalking/code/inference_handler.py:33-37 | a URI field gives the bucket, the key and the local path `tmpDir/object name` |
| InferenceHandler.PredictOutcome | src/retalking/code/inference_handler.py:23-89 | prediction raises exactly when the command fails or writes no output; otherwise downloads both inputs, uploads the output and answers with its URI |
| InferenceHandler.PredictEchoesOutputUri | src/retalking/code/inference_handler.py:58-89 | for an output URI without `//` in its key, the reply repeats it and the upload goes to its bucket and key |
| InferenceHandler.PredictDropsAfterDoubleSlash | src/retalking/code/inference_handler.py:58-89 | for output `s3://b/a//c`, the video is uploaded to key `a` and the reply names `s3://b/a` |
| InferenceHandler.EndpointAnswersOutputUri | src/retalking/code/inference_handler.py:111-145 | a valid request whose prediction succeeds is answered with status 200 and the requested output URI |
| TrainingYaml.CeilBounds | finetune-tts/create_training_yaml.py:8-9 | `math.ceil` is the least integer not below its argument |
| TrainingYaml.CeilUnique | finetune-tts/create_training_yaml.py:8-9 | that integer is unique |
| TrainingYaml.CalcIterations | finetune-tts/create_training_yaml.py:8-9 | succeeds exactly with numeric epochs and a non-zero numeric batch size; batch size zero raises `ZeroDivisionError` |
| TrainingYaml.CeilDivBounds | finetune-tts/create_training_yaml.py:8-9 | integer ceiling division gives the fewest batches of `b` that cover `a` |
| TrainingYaml.CeilOfQuotient | finetune-tts/create_training_yaml.py:8-9 | the ceiling of `a / b` is integer ceiling division |
| TrainingYaml.CalcIterationsWhole | finetune-tts/create_training_yaml.py:8-9 | with whole epochs and batch size, iterations are `epochs * ceil(lines / batch_size)` |
| TrainingYaml.CalcIterationsOfSteps | finetune-tts/create_training_yaml.py:9 | the outer ceiling is taken of the epochs times the batches per epoch |
| TrainingYaml.Setting | finetune-tts/create_training_yaml.py:42-75 | a given hyperparameter overrides its default, and an absent one keeps it |
| TrainingYaml.Override | finetune-tts/create_training_yaml.py:42-43 | one `if name in hyperparams` assignment yields the setting for that name |
| TrainingYaml.Overrides | finetune-tts/create_training_yaml.py:11-75 | the defaults followed by the overrides, in program order, give exactly the resolved settings, even where `save_rate` and `validation_enabled` are assigned twice |
| TrainingYaml.SubstituteStep | finetune-tts/create_training_yaml.py:78-97 | each replacement of the chain applies to the text left by the one before |
| TrainingYaml.SubstituteUntouched | finetune-tts/create_training_yaml.py:78-97 | a template without placeholders is unchanged by the chain |
| TrainingYaml.RequiredKeys | finetune-tts/create_training_yaml.py:31-36 | a missing `epochs`, `batch_size` or `learning_rate` raises its message, checked in that order; with all three, only the iteration count can raise |
| TrainingYaml.DefaultsUnlessGiven | finetune-tts/create_training_yaml.py:11-28 | the defaults (validation batch 8, accumulation 16, voice `voice_default`, text weight 0.01, ...) apply unless overridden |
| TrainingYaml.FillTemplate | finetune-tts/create_training_yaml.py:78-97 | the replacement chain computes exactly the substitution of every placeholder in program order, and leaves a template without placeholders unchanged |
| TrainingYaml.Process | finetune-tts/create_training_yaml.py:6-97 | `process` computes exactly the reference outcome, and a template without placeholders comes back unchanged |
| ArchiveFilters.TarFilter | src/utils/__init__.py:18-22 | drops a member exactly when `blobs/` occurs in its name, and keeps it unchanged otherwise |
| ArchiveFilters.SiblingPrefixPasses | src/utils/__init__.py:24-26 | the check compares text, not path components: `/a/bc` counts as inside `/a/b` |
| ArchiveFilters.Extracted | src/utils/__init__.py:34-49 | a name is extracted exactly when it resolves inside the target, is not absolute and does not contain `..` |
| ArchiveFilters.ExtractedAppend | src/utils/__init__.py:34-49 | extraction keeps archive order |
| ArchiveFilters.ExtractedNotSuspicious | src/utils/__init__.py:43-45 | no extracted name is absolute or contains `..` |
| ArchiveFilters.DoubleDotInsideNameSkipped | src/utils/__init__.py:43-45 | `a..b` is skipped even though it has no `..` component |
| ArchiveFilters.SafeExtract | src/utils/__init__.py:28-49 | the loop extracts exactly the names `Extracted` admits, in archive order |

## Left out

- Calls to S3, Transcribe, Translate and SageMaker are parameters, or are returned as
  actions. Their failures are modelled only where a handler reads their result.
- JSON decoding (`json.loads`) is a parameter: the decoded value, or none for invalid text.
- Python floats are exact reals. A float literal's text is carried next to its value, as
  Python's `str()` prints it.
- Audio decoding, `pydub` slicing by fractional milliseconds, `ffmpeg`'s tempo filter and
  the `.wav` encoding are abstract. The tempo change is a parameter.
- Waits, real time and the 60-minute execution timeout are a step budget, the `fuel` of
  `StateMachine.Run`. The 5-second waits and the 300-second Lambda timeouts are not modelled.
- Values interpolated into f-strings must be strings. Any other value raises `TypeError`;
  Python would print it instead.
- Iterating a dict is modelled only for the empty dict. Iterating a non-empty dict is out.
- VoiceSamples.UploadAll: uploads are collected as a map from (bucket, key), so the order of
  `os.walk` is not modelled.
- Negative slice positions are not modelled.
- When a handler raises part way, the model reports the error and not the S3 writes made
  before it.
- The temporary directory name is a parameter.
- InvokeTts.Jobs: the `NameError` for a missing samples URI is raised only when there are
  segments, as in the code.
- The order in which the parallel state reports a failing branch is not modelled: a failing
  branch fails the step.
- TrainingYaml.Render: lists and dicts render as the empty string rather than in Python's
  `str()` form.
- Values.At: indexing a string or a dict raises `TypeError` here. Python indexes a string
  (`IndexError` when it is empty) and raises `KeyError` on a dict. At every call site the
  element read must then be a dict, so the outcome is a raise either way; only its kind
  can differ.
- VoiceSamples.Millis: how `float(t) * 1000` turns a transcript time into milliseconds is the
  parameter `toMillis`. Parsing decimal strings and float rounding are not modelled.
- `os.path.realpath` and symbolic links are a parameter of `ArchiveFilters.IsSafePath`.
- Writing `train.yaml` and reading the template and hyperparameter files are out.
  `TrainingYaml.Process` returns the filled text. The hyperparameters are a dict, as the
  script's JSON file has to be.
- `delete_dir_contents`, model download and upload, `default_model_fn`, `entrypoint.py`, the
  CDK resources other than the state machine, and the deployment scripts are not part of
  this model.
- Printing and logging are not modelled.
