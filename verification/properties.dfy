/**
 * Properties of a whole `process(sound)` run, stated against reference
 * definitions written independently of the stage functions: the stage at
 * which a run stops, the tool calls it makes, the temporary files it
 * cleans up.
 */
module ProcessingProperties {
  import opened Wrappers
  import opened Locations
  import opened Sounds
  import opened Tools
  import opened Steps
  import opened Processing

  /** The index of the first preview or image stage that raises, 6 when
      none does: mp3 LQ, mp3 HQ, ogg LQ, ogg HQ, images M, images L. */
  function PreviewFailure(env: Env): (k: nat)
    ensures k <= 6
  {
    if env.mp3LQ.Raised? then 0
    else if env.mp3HQ.Raised? then 1
    else if env.oggLQ.Raised? then 2
    else if env.oggHQ.Raised? then 3
    else if env.imagesM.Raised? then 4
    else if env.imagesL.Raised? then 5
    else 6
  }

  /** The same index counted from stereofy: 7 when nothing raises. */
  function DescribeFailure(env: Env): (k: nat)
    ensures k <= 7
  {
    if env.stereofy.Raised? then 0 else 1 + PreviewFailure(env)
  }

  /** The same index counted from PCM conversion: 8 when nothing raises. */
  function FirstFailure(env: Env): (k: nat)
    ensures k <= 8
  {
    if env.pcm.Raised? then 0 else 1 + DescribeFailure(env)
  }

  /** The preview and image calls, as the routine makes them. */
  function PreviewCalls(env: Env): (calls: seq<Call>)
    ensures |calls| == 6
  {
    var wav := env.tmpStereo;
    var at := env.locations;
    [ ConvertToMp3(wav, at(PreviewLQMp3), 70),
      ConvertToMp3(wav, at(PreviewHQMp3), 192),
      ConvertToOgg(wav, at(PreviewLQOgg), 1),
      ConvertToOgg(wav, at(PreviewHQOgg), 6),
      CreateWaveImages(wav, at(WaveM), at(SpectralM), 120, 71, 2048),
      CreateWaveImages(wav, at(WaveL), at(SpectralL), 900, 201, 2048) ]
  }

  /** The preview and image calls, then the analysis. */
  function PublishCalls(env: Env): (calls: seq<Call>)
    ensures |calls| == 7
  {
    PreviewCalls(env) + [Analyze]
  }

  /** Stereofy of `wav`, then the preview, image and analysis calls. */
  function DescribeCalls(wav: Path, env: Env): (calls: seq<Call>)
    ensures |calls| == 8
  {
    [StereofyAndFindInfo(wav, env.tmpStereo)] + PublishCalls(env)
  }

  /** Every tool call a run makes once the file sits at its new path `p`, in
      order: PCM conversion of `p`, stereofy of the PCM file, the previews
      and images from the stereofied file, and the analysis. */
  function AllCalls(env: Env): (calls: seq<Call>)
    ensures |calls| == 9
  {
    var p := env.locations(Source);
    [ConvertToPcm(p, env.tmpPcm)] + DescribeCalls(Wav(p, env), env)
  }

  /** The eight files the preview and image stages publish. */
  function Previews(env: Env): set<Path> {
    var at := env.locations;
    { at(PreviewLQMp3), at(PreviewHQMp3), at(PreviewLQOgg), at(PreviewHQOgg),
      at(WaveM), at(SpectralM), at(WaveL), at(SpectralL) }
  }

  /** The stereofied file, once stereofy has returned. */
  function StereoTemp(env: Env): seq<Path> {
    if env.stereofy.Done? then [env.tmpStereo] else []
  }

  /** The temporary files a run has created by the time it stops, in the
      order they were queued: the PCM file when the source needed
      converting, then the stereofied file once stereofy has returned. A
      run whose PCM conversion raised has created none. */
  function TempFiles(env: Env): seq<Path> {
    if env.pcm.Raised? then []
    else (if env.pcm == Done(true) then [env.tmpPcm] else []) + StereoTemp(env)
  }

  /** The lines the preview and image stages log when all of them succeed. */
  function PreviewLines(env: Env): (lines: seq<string>)
    ensures |lines| == 6
  {
    var at := env.locations;
    [ "created mp3: " + at(PreviewLQMp3),
      "created mp3: " + at(PreviewHQMp3),
      "created ogg: " + at(PreviewLQOgg),
      "created ogg: " + at(PreviewHQOgg),
      "created previews, medium",
      "created previews, large" ]
  }

  /** The lines a failed analysis adds; none when it succeeds. */
  function AnalysisLines(env: Env): seq<string> {
    match env.analysis
    case Done(_) => []
    case Raised(f) => FailureLines(AnalysisFailedMessage, Some(f.error))
  }

  /** The line PCM conversion logs when it returns. */
  function PcmLine(env: Env): string {
    if env.pcm == Done(true) then ConvertedMessage(env.tmpPcm) else AlreadyPcmMessage
  }

  /** A prefix of a sequence with a first element. */
  lemma SliceCons<T>(x: T, rest: seq<T>, n: nat)
    requires 1 <= n <= |rest| + 1
    ensures ([x] + rest)[..n] == [x] + rest[..n - 1]
  {
  }

  /** The table's stages stop at the first one that raises. */
  lemma JobsTableFailing(env: Env)
    ensures FirstFailing(Jobs(env)) == PreviewFailure(env)
  {
    FirstFailingUnique(Jobs(env), PreviewFailure(env));
  }

  /** The table's calls are the preview and image calls of the routine. */
  lemma JobsTableCalls(env: Env)
    ensures CallsOf(Jobs(env)) == PreviewCalls(env)
  {
  }

  /** The table's outputs are the eight preview and image files. */
  lemma JobsTableOutputs(env: Env)
    ensures OutputsOf(Jobs(env)) == Previews(env)
  {
    var jobs := Jobs(env);
    assert env.locations(PreviewLQMp3) in jobs[0].stage.outputs;
    assert env.locations(PreviewHQMp3) in jobs[1].stage.outputs;
    assert env.locations(PreviewLQOgg) in jobs[2].stage.outputs;
    assert env.locations(PreviewHQOgg) in jobs[3].stage.outputs;
    assert env.locations(WaveM) in jobs[4].stage.outputs && env.locations(SpectralM) in jobs[4].stage.outputs;
    assert env.locations(WaveL) in jobs[5].stage.outputs && env.locations(SpectralL) in jobs[5].stage.outputs;
    forall p | p in OutputsOf(jobs)
      ensures p in Previews(env)
    {
      var i :| 0 <= i < |jobs| && p in jobs[i].stage.outputs;
    }
  }

  /** The table's success lines are the routine's. */
  lemma JobsTableLines(env: Env)
    ensures DoneLines(Jobs(env)) == PreviewLines(env)
  {
    var lines := DoneLines(Jobs(env));
    assert lines == [lines[0], lines[1], lines[2], lines[3], lines[4], lines[5]];
  }

  /** The calls of the first `m` jobs are the first `m` of their calls. */
  lemma CallsOfPrefix(jobs: seq<Job>, m: nat)
    requires m <= |jobs|
    ensures CallsOf(jobs[..m]) == CallsOf(jobs)[..m]
  {
  }

  /** A run that succeeded despite a failed analysis: some saved snapshot
      shows the sound failed, and the log keeps the failure line. */
  predicate AnalysisFailureRecorded(final: Ctx) {
    && (exists i :: 0 <= i < |final.saves| && final.saves[i].processingState == StateFailed)
    && "failed:" + AnalysisFailedMessage in final.sound.processingLog
  }

  /** A failed analysis leaves its trace in the saves and the log of a run
      that still succeeds. */
  lemma CompleteAfterFailedAnalysis(c: Ctx, env: Env)
    requires env.analysis.Raised?
    ensures AnalysisFailureRecorded(Complete(c, env))
  {
    hide Complete;
    var r := Complete(c, env);
    var lines := FailureLines(AnalysisFailedMessage, Some(env.analysis.fault.error));
    assert r.saves[|c.saves|].processingState == StateFailed;
    assert r.sound.processingLog[|c.sound.processingLog|] == lines[0];
  }

  /** The previews stage: it succeeds exactly when none of its jobs
      raises, and ends succeeded or failed accordingly. */
  lemma PublishOutcome(c: Ctx, jobs: seq<Job>, env: Env)
    ensures var r := Publish(c, jobs, env);
      && (r.result <==> FirstFailing(jobs) == |jobs|)
      && r.final.sound.processingState == (if r.result then StateSucceeded else StateFailed)
      && Grows(c, r.final)
      && r.final.copies == c.copies
      && r.final.sound.originalPath == c.sound.originalPath
      && r.final.sound.info == c.sound.info
      && r.final.sound.processingDate == (if r.result then env.finished else c.sound.processingDate)
      && (r.result && env.analysis.Raised? ==> AnalysisFailureRecorded(r.final))
  {
    hide RunJob, Complete;
    var s := RunJobs(c, jobs);
    if s.Continue? && env.analysis.Raised? {
      CompleteAfterFailedAnalysis(s.ctx, env);
    }
  }

  /** Stereofy and the previews: success exactly when none of their stages
      raises. */
  lemma DescribeOutcome(c: Ctx, wav: Path, env: Env)
    ensures var r := Describe(c, wav, env);
      && (r.result <==> DescribeFailure(env) == 7)
      && r.final.sound.processingState == (if r.result then StateSucceeded else StateFailed)
      && Grows(c, r.final)
      && r.final.copies == c.copies
      && r.final.sound.originalPath == c.sound.originalPath
      && (r.result ==> r.final.sound.info == env.stereofy.value)
      && r.final.sound.info == (if env.stereofy.Done? then env.stereofy.value else c.sound.info)
      && r.final.sound.processingDate == (if r.result then env.finished else c.sound.processingDate)
      && (r.result && env.analysis.Raised? ==> AnalysisFailureRecorded(r.final))
  {
    hide Stereofy, Publish;
    match Stereofy(c, wav, env)
    case Stop(c1) =>
    case Continue(c1) =>
      PublishOutcome(c1, Jobs(env), env);
      JobsTableFailing(env);
      GrowsTransitive(c, c1, Publish(c1, Jobs(env), env).final);
  }

  /** Once the file is located, a run succeeds exactly when no mandatory
      stage raises, and ends succeeded or failed accordingly. */
  lemma TranscodeOutcome(c: Ctx, env: Env)
    ensures var r := Transcode(c, env);
      && (r.result <==> FirstFailure(env) == 8)
      && r.final.sound.processingState == (if r.result then StateSucceeded else StateFailed)
      && Grows(c, r.final)
      && r.final.copies == c.copies
      && r.final.sound.originalPath == c.sound.originalPath
      && (r.result ==> r.final.sound.info == env.stereofy.value)
      && r.final.sound.info == (if env.pcm.Done? && env.stereofy.Done? then env.stereofy.value else c.sound.info)
      && r.final.sound.processingDate == (if r.result then env.finished else c.sound.processingDate)
      && (r.result && env.analysis.Raised? ==> AnalysisFailureRecorded(r.final))
  {
    hide ConvertPcm, Describe;
    match ConvertPcm(c, env)
    case Stop(c1) =>
    case Continue(c1) =>
      var wav := Wav(c.sound.originalPath, env);
      DescribeOutcome(c1, wav, env);
      GrowsTransitive(c, c1, Describe(c1, wav, env).final);
  }

  /** A successful previews stage logs each job's line, then the analysis
      failure if there is one, then the cleanup line. */
  lemma PublishLog(c: Ctx, jobs: seq<Job>, env: Env)
    ensures var r := Publish(c, jobs, env);
      r.result ==>
        r.final.sound.processingLog ==
          c.sound.processingLog + DoneLines(jobs) + AnalysisLines(env) + [CleanupLine(c.toCleanup)]
  {
    hide RunJob, Complete;
    RunJobsLog(c, jobs);
    if env.analysis.Done? {
      var log := c.sound.processingLog + DoneLines(jobs);
      assert log + AnalysisLines(env) == log;
    }
  }

  /** A successful run from stereofy on logs the stereofy line, the six
      preview and image lines, the analysis failure if there is one, and the
      cleanup line naming the stereofied file last. */
  lemma DescribeLog(c: Ctx, wav: Path, env: Env)
    ensures var r := Describe(c, wav, env);
      r.result ==>
        r.final.sound.processingLog ==
          c.sound.processingLog + [StereofiedMessage(env.tmpStereo)] + PreviewLines(env)
            + AnalysisLines(env) + [CleanupLine(c.toCleanup + [env.tmpStereo])]
  {
    hide Stereofy, Publish;
    match Stereofy(c, wav, env)
    case Stop(c1) =>
    case Continue(c1) =>
      PublishLog(c1, Jobs(env), env);
      JobsTableLines(env);
  }

  /** Once the file is located, a successful run logs the PCM line, the
      stereofy line, the six preview and image lines, the analysis failure
      if there is one, and the cleanup line naming every temporary file. */
  lemma TranscodeLog(c: Ctx, env: Env)
    requires c.toCleanup == []
    ensures var r := Transcode(c, env);
      r.result ==>
        r.final.sound.processingLog ==
          c.sound.processingLog + [PcmLine(env), StereofiedMessage(env.tmpStereo)] + PreviewLines(env)
            + AnalysisLines(env) + [CleanupLine(TempFiles(env))]
  {
    hide ConvertPcm, Describe;
    match ConvertPcm(c, env)
    case Stop(c1) =>
    case Continue(c1) =>
      var wav := Wav(c.sound.originalPath, env);
      if Describe(c1, wav, env).result {
        DescribeLog(c1, wav, env);
        DescribeOutcome(c1, wav, env);
        assert c1.toCleanup + [env.tmpStereo] == TempFiles(env);
        if env.pcm.value {
          assert env.pcm == Done(true);
        } else {
          assert env.pcm == Done(false);
        }
        assert c1.sound.processingLog == c.sound.processingLog + [PcmLine(env)];
        ConcatAssoc(c.sound.processingLog, [PcmLine(env)], [StereofiedMessage(env.tmpStereo)]);
        assert c1.sound.processingLog + [StereofiedMessage(env.tmpStereo)]
            == c.sound.processingLog + [PcmLine(env), StereofiedMessage(env.tmpStereo)];
      }
  }

  /** A prefix of `a + b` no longer than `a` is a prefix of `a`. */
  lemma PrefixOfAppend<T>(a: seq<T>, b: seq<T>, n: nat)
    requires n <= |a|
    ensures (a + b)[..n] == a[..n]
  {
  }

  /** Running the jobs makes the calls of the jobs up to and including the
      first that raises. */
  lemma RunJobsCallsPrefix(c: Ctx, jobs: seq<Job>)
    ensures var k := FirstFailing(jobs);
      RunJobs(c, jobs).ctx.calls == c.calls + CallsOf(jobs)[..if k < |jobs| then k + 1 else k]
  {
    var k := FirstFailing(jobs);
    var m := if k < |jobs| then k + 1 else k;
    RunJobsCalls(c, jobs);
    AttemptedPrefix(jobs);
    CallsOfPrefix(jobs, m);
  }

  /** The previews stage makes the calls of every job up to and including
      the first that raises, and all of them, analysis last, when none
      raises. */
  lemma PublishMakesCalls(c: Ctx, jobs: seq<Job>, env: Env)
    ensures Publish(c, jobs, env).final.calls == c.calls + (CallsOf(jobs) + [Analyze])[..FirstFailing(jobs) + 1]
  {
    hide RunJob, Complete;
    var k := FirstFailing(jobs);
    var calls := CallsOf(jobs);
    RunJobsCallsPrefix(c, jobs);
    match RunJobs(c, jobs)
    case Stop(c1) =>
      assert k < |jobs|;
      PrefixOfAppend(calls, [Analyze], k + 1);
    case Continue(c1) =>
      assert k == |jobs|;
      assert calls[..k] == calls;
      assert (calls + [Analyze])[..k + 1] == calls + [Analyze];
      ConcatAssoc(c.calls, calls, [Analyze]);
  }

  /** The routine's own preview and image stages make the preview calls up
      to and including the first that raises, and the analysis when none
      raises. */
  lemma PublishTableCalls(c: Ctx, env: Env)
    ensures Publish(c, Jobs(env), env).final.calls == c.calls + PublishCalls(env)[..PreviewFailure(env) + 1]
  {
    hide Publish;
    PublishMakesCalls(c, Jobs(env), env);
    JobsTableFailing(env);
    JobsTableCalls(env);
  }

  /** Stereofy and the previews make their calls in order up to and
      including the first that raises. */
  lemma DescribeMakesCalls(c: Ctx, wav: Path, env: Env)
    ensures Describe(c, wav, env).final.calls == c.calls + DescribeCalls(wav, env)[..DescribeFailure(env) + 1]
  {
    hide Stereofy, Publish;
    var call := StereofyAndFindInfo(wav, env.tmpStereo);
    SliceCons(call, PublishCalls(env), DescribeFailure(env) + 1);
    match Stereofy(c, wav, env)
    case Stop(c1) =>
    case Continue(c1) =>
      PublishTableCalls(c1, env);
      ConcatAssoc(c.calls, [call], PublishCalls(env)[..PreviewFailure(env) + 1]);
  }

  /** Once the file is located at its new path, a run makes the calls of
      every stage up to and including the first that raises, in order, and
      all of them, analysis last, when none raises. */
  lemma TranscodeMakesCalls(c: Ctx, env: Env)
    requires c.sound.originalPath == env.locations(Source)
    ensures Transcode(c, env).final.calls == c.calls + AllCalls(env)[..FirstFailure(env) + 1]
  {
    hide ConvertPcm, Describe;
    var p := c.sound.originalPath;
    var call := ConvertToPcm(p, env.tmpPcm);
    var wav := Wav(p, env);
    SliceCons(call, DescribeCalls(wav, env), FirstFailure(env) + 1);
    match ConvertPcm(c, env)
    case Stop(c1) =>
    case Continue(c1) =>
      DescribeMakesCalls(c1, wav, env);
      ConcatAssoc(c.calls, [call], DescribeCalls(wav, env)[..DescribeFailure(env) + 1]);
  }

  /** The previews stage always ends with cleanup: every queued temporary
      file is unlinked, whether a stage raises or all succeed. */
  lemma PublishCleanup(c: Ctx, jobs: seq<Job>, env: Env)
    ensures var r := Publish(c, jobs, env);
      && r.final.unlinks == c.unlinks + c.toCleanup
      && CleanupLine(c.toCleanup) in r.final.sound.processingLog
  {
    hide RunJob, Complete;
    RunJobsCleanup(c, jobs);
    var s := RunJobs(c, jobs);
    if s.Continue? {
      var log := Complete(s.ctx, env).sound.processingLog;
      assert log[|log| - 1] == CleanupLine(c.toCleanup);
    }
  }

  /** Stereofy and the previews unlink every queued file and the stereofied
      file when stereofy has created it. */
  lemma DescribeCleanup(c: Ctx, wav: Path, env: Env)
    ensures var r := Describe(c, wav, env);
      && r.final.unlinks == c.unlinks + (c.toCleanup + StereoTemp(env))
      && CleanupLine(c.toCleanup + StereoTemp(env)) in r.final.sound.processingLog
  {
    hide Stereofy, Publish;
    match Stereofy(c, wav, env)
    case Stop(c1) =>
      assert c.toCleanup + [] == c.toCleanup;
      assert CleanupLine(c.toCleanup) in AbortLines(c.toCleanup, "stereofy has failed", env.stereofy.fault);
    case Continue(c1) =>
      PublishCleanup(c1, Jobs(env), env);
  }

  /** Once the file is located, a run unlinks exactly the temporary files it
      created, in the order it created them. */
  lemma TranscodeCleanup(c: Ctx, env: Env)
    requires c.toCleanup == []
    ensures var r := Transcode(c, env);
      && r.final.unlinks == c.unlinks + TempFiles(env)
      && (!(env.pcm.Raised? && env.pcm.fault.Expected?) ==>
            CleanupLine(TempFiles(env)) in r.final.sound.processingLog)
      && (env.pcm.Raised? && env.pcm.fault.Expected? ==>
            r.final.sound.processingLog == c.sound.processingLog
              + FailureLines("conversion to pcm has failed", Some(env.pcm.fault.error)))
  {
    hide ConvertPcm, Describe;
    match ConvertPcm(c, env)
    case Stop(c1) =>
      assert c.unlinks + [] == c.unlinks;
      if env.pcm.fault.Unhandled? {
        assert CleanupLine([]) in AbortLines([], "", env.pcm.fault);
      }
    case Continue(c1) =>
      assert c1.toCleanup + StereoTemp(env) == TempFiles(env);
      DescribeCleanup(c1, Wav(c.sound.originalPath, env), env);
  }

  /** The previews stage leaves none of the queued temporary files, removes
      no other file, and on success leaves every file its jobs write. */
  lemma PublishFiles(c: Ctx, jobs: seq<Job>, env: Env)
    ensures var r := Publish(c, jobs, env);
      && r.final.fs !! Members(c.toCleanup)
      && c.fs - Members(c.toCleanup) <= r.final.fs
      && (r.result ==> OutputsOf(jobs) - Members(c.toCleanup) <= r.final.fs)
  {
    hide RunJob, Complete;
    RunJobsFiles(c, jobs);
    if Publish(c, jobs, env).result {
      AttemptedPrefix(jobs);
      assert jobs[..|jobs|] == jobs;
    }
  }

  /** Stereofy and the previews leave none of the temporary files, removes
      no other file, and on success leave every preview and image file. */
  lemma DescribeFiles(c: Ctx, wav: Path, env: Env)
    ensures var r := Describe(c, wav, env); var temps := Members(c.toCleanup + StereoTemp(env));
      && r.final.fs !! temps
      && c.fs - temps <= r.final.fs
      && (r.result ==> Previews(env) - temps <= r.final.fs)
  {
    hide Stereofy, Publish;
    match Stereofy(c, wav, env)
    case Stop(c1) =>
      assert c.toCleanup + [] == c.toCleanup;
    case Continue(c1) =>
      PublishFiles(c1, Jobs(env), env);
      JobsTableOutputs(env);
  }

  /** Once the file is located, a run leaves none of the temporary files it
      created, removes no other file, and on success leaves every preview
      and image file. */
  lemma TranscodeFiles(c: Ctx, env: Env)
    requires c.toCleanup == []
    ensures var r := Transcode(c, env); var temps := Members(TempFiles(env));
      && r.final.fs !! temps
      && c.fs - temps <= r.final.fs
      && (r.result ==> Previews(env) - temps <= r.final.fs)
  {
    hide Describe;
    match ConvertPcm(c, env)
    case Stop(c1) =>
      assert Members(c.toCleanup) == {};
    case Continue(c1) =>
      assert c1.toCleanup + StereoTemp(env) == TempFiles(env);
      DescribeFiles(c1, Wav(c.sound.originalPath, env), env);
  }
}
