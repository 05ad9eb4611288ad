# Freesound post-upload audio processing, modelled in Dafny

This project models the sound-processing core of Freesound: the dispatcher
`process_sound_via_gearman`, which marks a sound queued and hands its id to a
background job, and the worker routine `process(sound)`. The worker routine
does the following, in order:

- resets the sound's processing log;
- locates the uploaded file, copying it from the old (FS1) location to the new
  (FS2) one when needed;
- converts the file to PCM and stereofies it;
- renders two mp3 previews, two ogg previews, and medium and large
  waveform/spectrogram images;
- runs the best-effort analysis;
- deletes its temporary files and records the outcome on the sound.

Its inner helpers `failure`, `success` and `cleanup` are modelled as well.

The model is functional. A run threads a context (`Steps.Ctx`) through pure
stage functions. The context holds:

- the sound record;
- the set of paths that exist;
- the cleanup list (`to_cleanup`);
- one log per kind of effect: every record as saved, every tool call, every
  copy and every unlink, each in the order it happened.

The processing log is a sequence of lines; every `+= x + "\n"` in the source
is one line. Everything outside the routine comes in as an `Env` value:

- the outcome of each audio-tool call (`Done(value)` or
  `Raised(Expected(e))` / `Raised(Unhandled(e))` for an
  `AudioProcessingException` or any other exception);
- the sound's storage layout (`sound.locations(key)`);
- the two clock readings;
- the two names `tempfile.mktemp` returns;
- whether `os.makedirs` succeeds for the FS2 directory.

Files:

- `wrappers.dfy`: `Option`.
- `decimal.dfy`: `str(int)` and its parser, with the round trip.
- `locations.dfy`: paths, the storage-layout keys, `os.path.dirname`.
- `sounds.dfy`: the sound record and its processing states.
- `tools.dfy`: the audio-tool calls.
- `steps.dfy`: the run context, `sound.save()`, `success`, `failure`, `cleanup`.
- `dispatch.dfy`: `process_sound_via_gearman`.
- `processing.dfy`: the stages of `process`.
- `properties.dfy`: independent reference definitions (the first stage to
  raise, the full call list, the temporary files, the preview files) and
  summary lemmas for the three layers of a run after the file is located.
- `runs.dfy`: theorems about a whole `process(sound)` run.

Points about the code that the model follows:

- A failed run does not stamp `processing_date`. Only the start of the run
  and a successful finish do (`Runs.ProcessOutcome`).
- A failed analysis does save the sound as "FA" before the run saves it as
  "OK" (`Runs.ProcessOutcome`, `AnalysisFailureRecorded`).
- Cleanup is not invoked on every exit. It is skipped when the source cannot
  be located, and when PCM conversion raises an `AudioProcessingException`
  (`Runs.ProcessCleanup`).
- The large-image stage creates no directory of its own.

## Model

| member | source | states |
|---|---|---|
| Dispatch.Enqueue | utils/audioprocessing/freesound_audio_processing.py:8-14 | the sound is saved as "QU" with the given time, everything else unchanged, and only then is a `process_sound` job submitted whose single argument parses back to the sound's id |
| Dispatch.SubmissionIdentifiesSound | utils/audioprocessing/freesound_audio_processing.py:14 | two submitted jobs carry the same argument exactly when they are for sounds with the same id |
| Decimal.ParseIntToString | utils/audioprocessing/freesound_audio_processing.py:14 | `str(id)` is decimal text that parses back to the id, negative ids included |
| Decimal.IntToStringInjective | utils/audioprocessing/freesound_audio_processing.py:14 | distinct ids are rendered as distinct job arguments |
| Steps.FailureLines | utils/audioprocessing/freesound_audio_processing.py:17-23 | `failure` appends one `failed:`-tagged line, plus the error's text as a second line exactly when an error is given |
| Steps.LogFailure | utils/audioprocessing/freesound_audio_processing.py:17-26 | `failure` appends those lines, sets "FA", saves, and changes nothing else |
| Steps.LogSuccess | utils/audioprocessing/freesound_audio_processing.py:28-30 | `success` appends one line, saves, and changes nothing else |
| Steps.UnlinkAll | utils/audioprocessing/freesound_audio_processing.py:34-38 | every listed file is unlinked, in list order. A missing file is skipped without error and the rest are still attempted; none of them exists afterwards (an unlink of an existing file always succeeds in the model); nothing else changes |
| Steps.Cleanup | utils/audioprocessing/freesound_audio_processing.py:32-38 | `cleanup` logs one line naming the files (saved), then removes exactly those files |
| Steps.ChainedPrefixes | utils/audioprocessing/freesound_audio_processing.py:19-30 | in a chain of saves where each log extends the previous one, every saved log is a prefix of every later one |
| Locations.DirnameSpec | utils/audioprocessing/freesound_audio_processing.py:59 | `os.path.dirname`: the path up to its last '/', with trailing slashes dropped unless that part is nothing but slashes; only slashes are dropped; no '/' means the empty string |
| Processing.Start | utils/audioprocessing/freesound_audio_processing.py:40-44 | a run first saves the record with an empty log, state "PR" and the start time, before anything else |
| Processing.Resolve | utils/audioprocessing/freesound_audio_processing.py:46-74 | the run goes on exactly when the file is at the new path, or at an old path under `/mnt/freesound-data/` whose destination directory exists or can be made. Then `original_path` is the new path and the file exists there, copied, not moved. Otherwise the sound is "FA", nothing is copied, the files and `original_path` are unchanged. The log gains exactly the lines of the branch taken: "Found the file at its FS2 location" alone; or the FS1 line, the copying line and the copied line; or the not-found failure line; or the FS1 line and the weird-location failure line; or the FS1 line, the copying line and the no-destination failure line |
| Processing.ResolveLegacy | utils/audioprocessing/freesound_audio_processing.py:53-69 | a file found only at its old path is copied exactly when it lies under the legacy root and its destination directory exists or can be created. A copy logs the FS1 line, the copying line and the copied line; a refusal logs the FS1 line and the weird-location failure, or the FS1 line, the copying line and the failure naming the destination directory |
| Processing.CopyToNewPath | utils/audioprocessing/freesound_audio_processing.py:65-68 | the copy adds the destination directory and file, keeps the source, points `original_path` at the new path, saves, and logs "Copied file from its FS1 to FS2 location." |
| Processing.CopyFromLegacy | utils/audioprocessing/freesound_audio_processing.py:58-69 | once the copy is announced, it goes ahead exactly when the destination directory exists or can be made. A copy logs the copying line and the copied line and keeps the processing state; a refusal logs the copying line and then the failure naming the destination directory, marks the sound "FA" and changes no file |
| Processing.AdoptNewPath | utils/audioprocessing/freesound_audio_processing.py:70-74 | a file already at its new path logs "Found the file at its FS2 location" with that path and points `original_path` at it; no file, call or copy happens and the processing state is kept |
| Processing.Abort | utils/audioprocessing/freesound_audio_processing.py:100-107 | a failing stage ends with "FA" and every queued file unlinked. An `AudioProcessingException` logs cleanup then failure; any other exception logs "unhandled exception" then cleanup |
| Processing.ConvertPcm | utils/audioprocessing/freesound_audio_processing.py:76-93 | the run stops exactly when conversion raises. Only a file actually converted is queued for cleanup. It logs "converted to pcm: " and the temporary name when it converted, and "no need to convert, this file is already pcm data" when it did not. An expected failure logs the failure lines and cleans nothing up; an unhandled one runs cleanup |
| Processing.Stereofy | utils/audioprocessing/freesound_audio_processing.py:95-116 | on success the stereofied file is queued, "got sound info and stereofied: " and its name is logged, and its metadata are stored and saved. On failure the run aborts with the cleanup list as it was, the stereofied name not on it |
| Processing.RunJob | utils/audioprocessing/freesound_audio_processing.py:118-135 | one preview or image stage: its directory is made; on success its outputs exist and its line is logged, on failure the run aborts |
| Processing.RunJobs | utils/audioprocessing/freesound_audio_processing.py:118-190 | the preview and image stages stop exactly when one raises, leaving the sound "FA" |
| Processing.RunJobsCalls | utils/audioprocessing/freesound_audio_processing.py:118-190 | exactly the stages up to and including the first failing one make their calls, in order |
| Processing.RunJobsFiles | utils/audioprocessing/freesound_audio_processing.py:118-190 | the directories of the attempted stages and the outputs of the succeeded ones exist afterwards; a failure removes the queued temporary files |
| Processing.RunJobsCleanup | utils/audioprocessing/freesound_audio_processing.py:118-190 | a failing stage unlinks exactly the queued files and logs the cleanup line; success unlinks nothing |
| Processing.RunJobsLog | utils/audioprocessing/freesound_audio_processing.py:118-190 | when no stage raises, each stage has logged its own success line, in order, and nothing else |
| Processing.RunAnalysis | utils/audioprocessing/freesound_audio_processing.py:192-198 | a failed analysis appends its failure lines and saves the sound as "FA", and the run goes on |
| Processing.Complete | utils/audioprocessing/freesound_audio_processing.py:192-205 | after the mandatory stages, cleanup runs and the sound is saved "OK" with the finishing time. A failed analysis leaves an "FA" snapshot before it |
| ProcessingProperties.JobsTableFailing | utils/audioprocessing/freesound_audio_processing.py:118-190 | the stage table stops at the first of mp3 LQ, mp3 HQ, ogg LQ, ogg HQ, images M, images L that raises |
| ProcessingProperties.JobsTableCalls | utils/audioprocessing/freesound_audio_processing.py:118-190 | the table's calls are the routine's: mp3 at 70 and 192, ogg at 1 and 6, images 120x71 and 900x201 with FFT size 2048, all from the stereofied file |
| ProcessingProperties.JobsTableOutputs | utils/audioprocessing/freesound_audio_processing.py:118-190 | the table writes exactly the eight preview and image paths of the sound |
| ProcessingProperties.JobsTableLines | utils/audioprocessing/freesound_audio_processing.py:135-190 | the table's success lines are the routine's: "created mp3: " and "created ogg: " with each preview path, then "created previews, medium" and "created previews, large" |
| Processing.FirstFailingUnique | utils/audioprocessing/freesound_audio_processing.py:118-190 | the index of the first stage that raises is unique: any index before which every stage succeeded, and at which one raises or the table ends, is it |
| Processing.AttemptedPrefix | utils/audioprocessing/freesound_audio_processing.py:118-190 | the stages attempted are the prefix up to and including the first failing one; the stages that succeed are the prefix before it |
| ProcessingProperties.PublishOutcome | utils/audioprocessing/freesound_audio_processing.py:118-205 | the preview, image and analysis part succeeds exactly when no preview or image stage raises; a failed analysis does not change that |
| ProcessingProperties.DescribeOutcome | utils/audioprocessing/freesound_audio_processing.py:95-205 | from stereofy on, a run succeeds exactly when neither stereofy nor a preview or image stage raises, and then the metadata are the ones stereofy found |
| ProcessingProperties.DescribeCleanup | utils/audioprocessing/freesound_audio_processing.py:95-205 | from stereofy on, every exit unlinks the queued files and also the stereofied file exactly when stereofy returned, and logs the cleanup line |
| ProcessingProperties.PublishLog | utils/audioprocessing/freesound_audio_processing.py:118-205 | a successful preview, image and analysis part logs each stage's line, then the analysis failure if any, then the cleanup line |
| ProcessingProperties.DescribeLog | utils/audioprocessing/freesound_audio_processing.py:109-205 | a successful run from stereofy on logs the stereofy line, the six preview and image lines, the analysis failure if any, and the cleanup line naming the stereofied file last |
| ProcessingProperties.TranscodeLog | utils/audioprocessing/freesound_audio_processing.py:76-205 | once located, a successful run logs the PCM line, the stereofy line, the six preview and image lines, the analysis failure if any, and the cleanup line naming every temporary file |
| ProcessingProperties.TranscodeOutcome | utils/audioprocessing/freesound_audio_processing.py:76-205 | once located, a run succeeds exactly when no mandatory stage raises. It ends "OK" with the finishing time, or "FA" keeping the start time |
| ProcessingProperties.TranscodeMakesCalls | utils/audioprocessing/freesound_audio_processing.py:76-205 | once located, a run makes the reference call list up to and including the first stage that raises |
| ProcessingProperties.TranscodeCleanup | utils/audioprocessing/freesound_audio_processing.py:76-205 | once located, a run unlinks exactly the temporary files it created, in order. It logs the cleanup line on every exit except an expected PCM failure, which ends with the failure lines alone |
| ProcessingProperties.TranscodeFiles | utils/audioprocessing/freesound_audio_processing.py:76-205 | once located, no created temporary file remains, nothing else is removed, and success leaves every preview and image file |
| Runs.ProcessOutcome | utils/audioprocessing/freesound_audio_processing.py:40-205 | `process` returns true exactly when the source is located and no mandatory stage raises. The state is "OK" exactly then, else "FA". `original_path` is the new path exactly when located. The date follows the outcome. The metadata are stereofy's whenever the source was located and PCM conversion and stereofy both returned, even if a later stage failed, and otherwise the record's own. A failed analysis is recorded but not fatal |
| Runs.ProcessStartsAfresh | utils/audioprocessing/freesound_audio_processing.py:40-44 | the first snapshot of every run has an empty log, "PR" and the start time. Every later snapshot extends the one before and the last is the final record |
| Runs.ProcessOnlyAppendsToLog | utils/audioprocessing/freesound_audio_processing.py:17-44 | every snapshot saved during a run has a log that is a prefix of the final log |
| Runs.ProcessIgnoresEarlierAttempts | utils/audioprocessing/freesound_audio_processing.py:40-44 | two records that differ only in log, state and date are processed identically |
| Runs.ProcessMakesCalls | utils/audioprocessing/freesound_audio_processing.py:46-205 | no tool call when the source cannot be located; otherwise the calls of every stage up to and including the first that raises, in order |
| Runs.ProcessCleanup | utils/audioprocessing/freesound_audio_processing.py:76-205 | a run unlinks exactly the temporary files it created: at most two: the PCM file only if conversion produced one, the stereofied file only once stereofy returned. Cleanup is logged on every located run except an expected PCM failure |
| Runs.ProcessFiles | utils/audioprocessing/freesound_audio_processing.py:46-205 | no existing file is removed and the new path exists once located; success leaves every preview and image; created temporaries are gone; the source is copied exactly when found only at its old path |
| Runs.ProcessSuccessLog | utils/audioprocessing/freesound_audio_processing.py:40-205 | the complete log of a successful run: where the source was found (and the copy lines for an old-location file), the PCM line, the stereofy line, the six preview and image lines, the analysis failure if any, and the cleanup line |
| Runs.ProcessMissingSource | utils/audioprocessing/freesound_audio_processing.py:46-52 | a source at neither path gives False, "FA", exactly one `failed:` line, two saves, no cleanup, no call, no copy |
| Runs.ProcessOutsideLegacyRoot | utils/audioprocessing/freesound_audio_processing.py:53-57 | an old path outside `/mnt/freesound-data/` gives False, "FA", the found line and one `failed:` line, no copy, `original_path` kept |
| Runs.ProcessNoDestinationDirectory | utils/audioprocessing/freesound_audio_processing.py:58-65 | a destination directory that cannot be created gives False, "FA", the found and copying lines and one `failed:` line, no copy, `original_path` kept |

## Left out

- The construction of the Gearman client (lines 9-10) and the job options `wait_until_complete=False, background=True` are not modelled. The dispatcher records the submission as an effect; queue delivery, redelivery and failures of `submit_job` are outside the model.
- `datetime.now()` is modelled as the times passed in (`now`, `Env.started`, `Env.finished`).
- `settings.STEREOFY_PATH`, the stereofy binary passed at line 98, is not modelled.
- `sound.locations(key)` is an input (`Env.locations`): its code is not part of this model.
- `tempfile.mktemp` is modelled as two names passed in. Their freshness is a requirement of `Runs.ProcessFiles` only.
- Runs.ProcessFiles: requires the temporary names to be neither existing files nor any of the sound's paths. `mktemp` makes this likely but does not guarantee it.
- Exceptions from `shutil.copy` (line 66) and from `os.makedirs` in the preview stages other than `OSError` are not modelled. They escape `process`, leaving the stored record as last saved ("PR"). In the model the copy always succeeds, and a preview directory always exists after its `makedirs`.
- Exceptions from `sound.save()` are not modelled: every save succeeds. Raised by the saves in `success` at lines 83 and 86, inside the `try` of line 80, one would be caught at line 90 and logged as an unhandled exception, followed by cleanup. Raised anywhere else, one escapes `process` and leaves the stored record as last saved: "PR" for most of the run, "FA" after a failed analysis.
- Steps.UnlinkAll: an unlink of an existing file always succeeds in the model. At lines 35-38 any unlink error is swallowed, so a file that exists but cannot be removed (no permission, busy, a directory) stays on disk. Steps.Cleanup, ProcessingProperties.TranscodeFiles and Runs.ProcessFiles inherit this: their "temporary files are gone" holds for files the system lets the routine remove.
- An `ImportError` from `from essentia_analysis import analyze` (line 193) is not modelled. It sits outside the `try` and would escape `process`.
- Files partly written by a tool that then raises are not modelled: a failing call writes nothing. `convert_to_pcm` returning false is modelled as writing nothing.
- The relative order of effects of different kinds is not recorded, for instance that cleanup saves its log line before it unlinks. Each kind keeps its own order, and `Steps.Cleanup` builds the log line before the unlinks.
- `logging_message` in `failure` (lines 18 and 22) is built and never used.
- `if error:` at line 21 is modelled as "an error was passed". An exception object is always truthy, so every caller that passes one gets the error line.
- `processing_log` is a sequence of lines rather than one newline-terminated string.
- Two workers processing the same sound at the same time are not modelled.
