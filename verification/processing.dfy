/**
 * `process(sound)`: the post-upload processing run. The filesystem is a set of
 * existing paths, every call into the audio tools is answered by a scripted
 * outcome, and every save, copy, tool call and unlink is recorded, each kind
 * in its own log.
 */
module Processing {
  import opened Wrappers
  import opened Locations
  import opened Sounds
  import opened Tools
  import opened Steps

  /** Files at the old (FS1) location must live under this root. */
  const LegacyRoot: Path := "/mnt/freesound-data/"

  const NotFoundMessage: string := "The file to be processed can't be found at its FS1 nor at its FS2 location."
  const UnexpectedLocationMessage: string := "The file appears to be in a weird location and not in '/mnt/freesound-data/'!."
  const UnhandledMessage: string := "unhandled exception"
  const AnalysisFailedMessage: string := "analyzing sound failed"

  function NoDestinationMessage(dir: Path): string {
    "Could not create destination directory " + dir
  }

  // The lines `success` logs while the source is located and converted.
  function FoundNewMessage(newPath: Path): string {
    "Found the file at its FS2 location: " + newPath
  }
  function FoundOldMessage(original: Path): string {
    "Found the file at its FS1 location: " + original
  }
  function CopyingMessage(original: Path, newPath: Path): string {
    "Copying file from " + original + " to " + newPath
  }
  const CopiedMessage: string := "Copied file from its FS1 to FS2 location."
  const AlreadyPcmMessage: string := "no need to convert, this file is already pcm data"
  function ConvertedMessage(wav: Path): string {
    "converted to pcm: " + wav
  }
  function StereofiedMessage(wav: Path): string {
    "got sound info and stereofied: " + wav
  }

  /** An exception raised by an audio tool: the tools' own
      `AudioProcessingException`, or anything else. Either carries `str(e)`. */
  datatype Fault = Expected(error: string) | Unhandled(error: string)

  /** What a call into an audio tool did: returned a value or raised. */
  datatype Outcome<T> = Done(value: T) | Raised(fault: Fault)

  /** Everything outside the routine: the sound's storage layout
      (`sound.locations`, by key), clock readings, whether `os.makedirs`
      succeeds, the two names `tempfile.mktemp` hands out, and the outcome of
      each tool call (for `convert_to_pcm`, whether it converted). */
  datatype Env = Env(
    locations: LocationKey -> Path,
    started: Time,
    finished: Time,
    makeDirsOk: bool,
    tmpPcm: Path,
    tmpStereo: Path,
    pcm: Outcome<bool>,
    stereofy: Outcome<AudioInfo>,
    mp3LQ: Outcome<()>,
    mp3HQ: Outcome<()>,
    oggLQ: Outcome<()>,
    oggHQ: Outcome<()>,
    imagesM: Outcome<()>,
    imagesL: Outcome<()>,
    analysis: Outcome<()>)

  /** A stage either lets the run go on or ends it (`return False`). */
  datatype Step = Continue(ctx: Ctx) | Stop(ctx: Ctx)

  /** The state a run ends in and the value `process` returns. */
  datatype Run = Run(final: Ctx, result: bool)

  /** The record as the run saves it first. */
  function Reset(s: Sound, at: Time): Sound {
    s.(processingLog := [], processingDate := at, processingState := StateProcessing)
  }

  /** Start of a run: the log from any earlier attempt is dropped, the sound
      is marked processing and saved before anything else happens. */
  function Start(s: Sound, fs: set<Path>, at: Time): (c: Ctx)
    ensures c.saves == [c.sound] && c.calls == [] && c.copies == [] && c.unlinks == []
    ensures c.sound.processingLog == [] && c.sound.processingState == StateProcessing
    ensures c.sound.processingDate == at
    ensures c.sound.id == s.id && c.sound.originalPath == s.originalPath && c.sound.info == s.info
    ensures c.fs == fs && c.toCleanup == []
    ensures Sane(c)
  {
    var r := Reset(s, at);
    Ctx(r, fs, [], [r], [], [], [])
  }

  /** When the source can be located: already at the new path, or at an old
      path under the legacy root whose destination directory exists or can
      be created. */
  predicate Resolvable(original: Path, fs: set<Path>, newPath: Path, makeDirsOk: bool) {
    || newPath in fs
    || (original in fs && LegacyRoot <= original && (Dirname(newPath) in fs || makeDirsOk))
  }

  /** The copy from the old location: the destination directory is created
      when it is missing, the file is copied (the old one stays), and
      `original_path` is pointed at the new path and saved. */
  function CopyToNewPath(c: Ctx, newPath: Path): (r: Ctx)
    ensures Grows(c, r) && r.toCleanup == c.toCleanup
    ensures r.sound.info == c.sound.info && r.sound.processingState == c.sound.processingState
    ensures r.sound.processingDate == c.sound.processingDate
    ensures r.sound.originalPath == newPath
    ensures r.fs == c.fs + {Dirname(newPath), newPath}
    ensures r.calls == c.calls && r.unlinks == c.unlinks
    ensures r.copies == c.copies + [(c.sound.originalPath, newPath)]
    ensures r.sound.processingLog == c.sound.processingLog + [CopiedMessage]
  {
    var c1 := c.(fs := c.fs + {Dirname(newPath), newPath}, copies := c.copies + [(c.sound.originalPath, newPath)]);
    var c2 := Save(c1, c1.sound.(originalPath := newPath));
    var r := LogSuccess(c2, CopiedMessage);
    GrowsTransitive(c, c1, c2);
    GrowsTransitive(c, c2, r);
    r
  }

  /** The lines logged after the FS1 line when a file found only at its old
      path is not copied: it lies outside the legacy root, or the copy is
      announced but its destination directory can be neither found nor
      created. */
  function RefusalLines(original: Path, newPath: Path): seq<string> {
    if !(LegacyRoot <= original) then FailureLines(UnexpectedLocationMessage, None)
    else [CopyingMessage(original, newPath)] + FailureLines(NoDestinationMessage(Dirname(newPath)), None)
  }

  /** The copy from the old location once it is known to lie under the
      legacy root: the copy is announced, then made when the destination
      directory exists or can be created, and refused otherwise. */
  function CopyFromLegacy(c: Ctx, newPath: Path, makeDirsOk: bool): (r: Step)
    ensures Grows(c, r.ctx)
    ensures r.ctx.sound.info == c.sound.info && r.ctx.toCleanup == c.toCleanup
    ensures r.ctx.sound.processingDate == c.sound.processingDate
    ensures r.ctx.calls == c.calls && r.ctx.unlinks == c.unlinks
    ensures r.Continue? <==> Dirname(newPath) in c.fs || makeDirsOk
    ensures r.Continue? ==>
              && r.ctx.sound.originalPath == newPath
              && r.ctx.fs == c.fs + {Dirname(newPath), newPath}
              && r.ctx.sound.processingState == c.sound.processingState
              && r.ctx.copies == c.copies + [(c.sound.originalPath, newPath)]
              && r.ctx.sound.processingLog == c.sound.processingLog
                   + [CopyingMessage(c.sound.originalPath, newPath), CopiedMessage]
    ensures r.Stop? ==>
              && r.ctx.sound.originalPath == c.sound.originalPath
              && r.ctx.fs == c.fs
              && r.ctx.sound.processingState == StateFailed
              && r.ctx.copies == c.copies
              && r.ctx.sound.processingLog == c.sound.processingLog
                   + ([CopyingMessage(c.sound.originalPath, newPath)]
                      + FailureLines(NoDestinationMessage(Dirname(newPath)), None))
  {
    var c1 := LogSuccess(c, CopyingMessage(c.sound.originalPath, newPath));
    var dir := Dirname(newPath);
    if dir !in c1.fs && !makeDirsOk then
      var r := LogFailure(c1, NoDestinationMessage(dir), None);
      GrowsTransitive(c, c1, r);
      ConcatAssoc(c.sound.processingLog, [CopyingMessage(c.sound.originalPath, newPath)], FailureLines(NoDestinationMessage(dir), None));
      Stop(r)
    else
      var r := CopyToNewPath(c1, newPath);
      GrowsTransitive(c, c1, r);
      Continue(r)
  }

  /** The old-location branch, taken when the new path does not exist but
      `original_path` does: only a file under the legacy root whose
      destination directory exists or can be created is copied. */
  function ResolveLegacy(c: Ctx, newPath: Path, makeDirsOk: bool): (r: Step)
    requires c.sound.originalPath in c.fs
    ensures Grows(c, r.ctx)
    ensures r.ctx.sound.info == c.sound.info && r.ctx.toCleanup == c.toCleanup
    ensures r.ctx.sound.processingDate == c.sound.processingDate
    ensures r.ctx.calls == c.calls && r.ctx.unlinks == c.unlinks
    ensures r.Continue? <==> LegacyRoot <= c.sound.originalPath && (Dirname(newPath) in c.fs || makeDirsOk)
    ensures r.Continue? ==>
              && r.ctx.sound.originalPath == newPath
              && r.ctx.fs == c.fs + {Dirname(newPath), newPath}
              && r.ctx.sound.processingState == c.sound.processingState
              && r.ctx.copies == c.copies + [(c.sound.originalPath, newPath)]
              && r.ctx.sound.processingLog == c.sound.processingLog
                   + [FoundOldMessage(c.sound.originalPath)] + [CopyingMessage(c.sound.originalPath, newPath), CopiedMessage]
    ensures r.Stop? ==>
              && r.ctx.sound.originalPath == c.sound.originalPath
              && r.ctx.fs == c.fs
              && r.ctx.sound.processingState == StateFailed
              && r.ctx.copies == c.copies
              && r.ctx.sound.processingLog == c.sound.processingLog
                   + [FoundOldMessage(c.sound.originalPath)] + RefusalLines(c.sound.originalPath, newPath)
  {
    var original := c.sound.originalPath;
    var c1 := LogSuccess(c, FoundOldMessage(original));
    if !(LegacyRoot <= original) then
      var r := LogFailure(c1, UnexpectedLocationMessage, None);
      GrowsTransitive(c, c1, r);
      Stop(r)
    else
      var r := CopyFromLegacy(c1, newPath, makeDirsOk);
      GrowsTransitive(c, c1, r.ctx);
      r
  }

  /** The file is already at its new (FS2) path: that is logged, and
      `original_path` is pointed there and saved when it differs. */
  function AdoptNewPath(c: Ctx, newPath: Path): (r: Ctx)
    ensures Grows(c, r)
    ensures r.sound.originalPath == newPath
    ensures r.sound.info == c.sound.info && r.sound.processingState == c.sound.processingState
    ensures r.sound.processingDate == c.sound.processingDate
    ensures r.sound.processingLog == c.sound.processingLog + [FoundNewMessage(newPath)]
    ensures r.toCleanup == c.toCleanup && r.fs == c.fs
    ensures r.calls == c.calls && r.unlinks == c.unlinks && r.copies == c.copies
  {
    var c1 := LogSuccess(c, FoundNewMessage(newPath));
    if c.sound.originalPath != newPath then
      var r := Save(c1, c1.sound.(originalPath := newPath));
      GrowsTransitive(c, c1, r);
      r
    else
      c1
  }

  /** Finds the source file and makes the new (FS2) path its home. On success
      `original_path` is the new path and the file exists there; the old
      file is copied, never moved. On failure nothing is copied, the
      filesystem is untouched and `original_path` keeps its value. */
  function Resolve(c: Ctx, newPath: Path, makeDirsOk: bool): (r: Step)
    ensures Grows(c, r.ctx)
    ensures r.ctx.sound.info == c.sound.info && r.ctx.toCleanup == c.toCleanup
    ensures r.ctx.sound.processingDate == c.sound.processingDate
    ensures r.ctx.calls == c.calls && r.ctx.unlinks == c.unlinks
    ensures r.Continue? <==> Resolvable(c.sound.originalPath, c.fs, newPath, makeDirsOk)
    ensures r.Continue? ==>
              && r.ctx.sound.originalPath == newPath
              && newPath in r.ctx.fs
              && c.fs <= r.ctx.fs <= c.fs + {newPath, Dirname(newPath)}
              && r.ctx.sound.processingState == c.sound.processingState
              && r.ctx.copies == c.copies + (if newPath in c.fs then [] else [(c.sound.originalPath, newPath)])
    ensures r.Stop? ==>
              && r.ctx.sound.originalPath == c.sound.originalPath
              && r.ctx.fs == c.fs
              && r.ctx.sound.processingState == StateFailed
              && r.ctx.copies == c.copies
    ensures newPath in c.fs ==>
              r.ctx.sound.processingLog == c.sound.processingLog + [FoundNewMessage(newPath)]
    ensures newPath !in c.fs && r.Continue? ==>
              r.ctx.sound.processingLog == c.sound.processingLog
                + [FoundOldMessage(c.sound.originalPath)] + [CopyingMessage(c.sound.originalPath, newPath), CopiedMessage]
    ensures newPath !in c.fs && c.sound.originalPath !in c.fs ==>
              r.ctx.sound.processingLog == c.sound.processingLog + FailureLines(NotFoundMessage, None)
    ensures newPath !in c.fs && c.sound.originalPath in c.fs && r.Stop? ==>
              r.ctx.sound.processingLog == c.sound.processingLog
                + [FoundOldMessage(c.sound.originalPath)] + RefusalLines(c.sound.originalPath, newPath)
  {
    if newPath !in c.fs then
      if c.sound.originalPath !in c.fs then
        Stop(LogFailure(c, NotFoundMessage, None))
      else
        ResolveLegacy(c, newPath, makeDirsOk)
    else
      Continue(AdoptNewPath(c, newPath))
  }

  /** The log lines a failed stage after PCM conversion adds. */
  function AbortLines(files: seq<Path>, failMessage: string, f: Fault): seq<string> {
    if f.Expected? then [CleanupLine(files)] + FailureLines(failMessage, Some(f.error))
    else FailureLines(UnhandledMessage, Some(f.error)) + [CleanupLine(files)]
  }

  /** How a mandatory stage after PCM conversion ends the run: an
      `AudioProcessingException` cleans up first and then records the
      failure; any other exception is recorded as unhandled first and
      cleaned up after. Either way the sound is failed and every queued
      temporary file has been unlinked. */
  function Abort(c: Ctx, failMessage: string, f: Fault): (r: Ctx)
    ensures r.sound.processingState == StateFailed
    ensures r.sound.processingLog == c.sound.processingLog + AbortLines(c.toCleanup, failMessage, f)
    ensures r.sound.originalPath == c.sound.originalPath && r.sound.info == c.sound.info
    ensures r.sound.processingDate == c.sound.processingDate
    ensures Grows(c, r) && r.toCleanup == c.toCleanup
    ensures r.calls == c.calls && r.copies == c.copies
    ensures r.unlinks == c.unlinks + c.toCleanup
    ensures r.fs == c.fs - Members(c.toCleanup)
  {
    if f.Expected? then
      var c1 := Cleanup(c);
      var r := LogFailure(c1, failMessage, Some(f.error));
      GrowsTransitive(c, c1, r);
      r
    else
      var c1 := LogFailure(c, UnhandledMessage, Some(f.error));
      var r := Cleanup(c1);
      GrowsTransitive(c, c1, r);
      r
  }

  /** `convert_to_pcm` from `original_path` to the first temporary name. Only
      a file that was actually converted is queued for cleanup; an
      `AudioProcessingException` fails the run without cleanup, any other
      exception fails it with cleanup. */
  function ConvertPcm(c: Ctx, env: Env): (r: Step)
    ensures Grows(c, r.ctx)
    ensures r.ctx.sound.originalPath == c.sound.originalPath && r.ctx.sound.info == c.sound.info
    ensures r.ctx.sound.processingDate == c.sound.processingDate
    ensures r.ctx.calls == c.calls + [ConvertToPcm(c.sound.originalPath, env.tmpPcm)]
    ensures r.ctx.copies == c.copies
    ensures r.Stop? <==> env.pcm.Raised?
    ensures r.ctx.sound.processingState == if r.Stop? then StateFailed else c.sound.processingState
    ensures r.ctx.toCleanup == c.toCleanup + (if env.pcm == Done(true) then [env.tmpPcm] else [])
    ensures env.pcm.Done? ==> r.ctx.unlinks == c.unlinks
    ensures env.pcm == Done(true) ==> r.ctx.fs == c.fs + {env.tmpPcm}
    ensures env.pcm == Done(false) ==> r.ctx.fs == c.fs
    ensures env.pcm == Done(true) ==> r.ctx.sound.processingLog == c.sound.processingLog + [ConvertedMessage(env.tmpPcm)]
    ensures env.pcm == Done(false) ==> r.ctx.sound.processingLog == c.sound.processingLog + [AlreadyPcmMessage]
    ensures env.pcm.Raised? && env.pcm.fault.Expected? ==>
              && r.ctx.unlinks == c.unlinks
              && r.ctx.fs == c.fs
              && r.ctx.sound.processingLog ==
                   c.sound.processingLog + FailureLines("conversion to pcm has failed", Some(env.pcm.fault.error))
    ensures env.pcm.Raised? && env.pcm.fault.Unhandled? ==>
              && r.ctx.unlinks == c.unlinks + c.toCleanup
              && r.ctx.fs == c.fs - Members(c.toCleanup)
              && r.ctx.sound.processingLog == c.sound.processingLog + AbortLines(c.toCleanup, "", env.pcm.fault)
  {
    var c1 := Invoke(c, ConvertToPcm(c.sound.originalPath, env.tmpPcm));
    match env.pcm
    case Raised(Expected(e)) =>
      var r := LogFailure(c1, "conversion to pcm has failed", Some(e));
      GrowsTransitive(c, c1, r);
      Stop(r)
    case Raised(Unhandled(e)) =>
      var r := Abort(c1, "", Unhandled(e));
      GrowsTransitive(c, c1, r);
      Stop(r)
    case Done(converted) =>
      if !converted then
        var r := LogSuccess(c1, AlreadyPcmMessage);
        GrowsTransitive(c, c1, r);
        Continue(r)
      else
        var c2 := c1.(fs := c1.fs + {env.tmpPcm}, toCleanup := c1.toCleanup + [env.tmpPcm]);
        var r := LogSuccess(c2, ConvertedMessage(env.tmpPcm));
        GrowsTransitive(c, c2, r);
        Continue(r)
  }

  /** `stereofy_and_find_info` from `wav` to the second temporary name. Only
      when the call returns is that name queued for cleanup and the returned
      metadata stored and saved. */
  function Stereofy(c: Ctx, wav: Path, env: Env): (r: Step)
    ensures Grows(c, r.ctx)
    ensures r.ctx.sound.originalPath == c.sound.originalPath
    ensures r.ctx.sound.processingDate == c.sound.processingDate
    ensures r.ctx.calls == c.calls + [StereofyAndFindInfo(wav, env.tmpStereo)]
    ensures r.ctx.copies == c.copies
    ensures r.Stop? <==> env.stereofy.Raised?
    ensures r.Stop? ==>
      && r.ctx.sound.processingState == StateFailed
      && r.ctx.sound.info == c.sound.info
      && r.ctx.sound.processingLog ==
           c.sound.processingLog + AbortLines(c.toCleanup, "stereofy has failed", env.stereofy.fault)
      && r.ctx.toCleanup == c.toCleanup
      && r.ctx.unlinks == c.unlinks + c.toCleanup
      && r.ctx.fs == c.fs - Members(c.toCleanup)
    ensures r.Continue? ==>
      && r.ctx.sound.processingState == c.sound.processingState
      && r.ctx.sound.info == env.stereofy.value
      && r.ctx.toCleanup == c.toCleanup + [env.tmpStereo]
      && r.ctx.unlinks == c.unlinks
      && r.ctx.fs == c.fs + {env.tmpStereo}
      && r.ctx.sound.processingLog == c.sound.processingLog + [StereofiedMessage(env.tmpStereo)]
  {
    var c1 := Invoke(c, StereofyAndFindInfo(wav, env.tmpStereo));
    if env.stereofy.Raised? then
      var r := Abort(c1, "stereofy has failed", env.stereofy.fault);
      GrowsTransitive(c, c1, r);
      Stop(r)
    else
      var c2 := c1.(fs := c1.fs + {env.tmpStereo}, toCleanup := c1.toCleanup + [env.tmpStereo]);
      var c3 := LogSuccess(c2, StereofiedMessage(env.tmpStereo));
      var r := Save(c3, c3.sound.(info := env.stereofy.value));
      GrowsTransitive(c, c2, c3);
      GrowsTransitive(c, c3, r);
      Continue(r)
  }

  /** What one preview or image stage does: the directory it makes before
      its tool call (errors ignored), the call, the files the call writes,
      and the line it logs on failure and on success. */
  datatype Stage = Stage(dirs: set<Path>, call: Call, outputs: set<Path>, failMessage: string, doneMessage: string)

  /** An mp3 preview of `wav` at `path` and the given quality. */
  function Mp3Stage(wav: Path, path: Path, quality: int): Stage {
    Stage({Dirname(path)}, ConvertToMp3(wav, path, quality), {path},
          "conversion to mp3 (preview) has failed", "created mp3: " + path)
  }

  /** An ogg preview of `wav` at `path` and the given quality. */
  function OggStage(wav: Path, path: Path, quality: int): Stage {
    Stage({Dirname(path)}, ConvertToOgg(wav, path, quality), {path},
          "conversion to ogg (preview) has failed", "created ogg: " + path)
  }

  /** The medium waveform and spectrogram images, 120x71. */
  function MediumImagesStage(wav: Path, wave: Path, spectral: Path): Stage {
    Stage({Dirname(wave)}, CreateWaveImages(wav, wave, spectral, 120, 71, 2048), {wave, spectral},
          "creation of images (M) has failed", "created previews, medium")
  }

  /** The large waveform and spectrogram images, 900x201; this stage makes
      no directory of its own. */
  function LargeImagesStage(wav: Path, wave: Path, spectral: Path): Stage {
    Stage({}, CreateWaveImages(wav, wave, spectral, 900, 201, 2048), {wave, spectral},
          "creation of images (L) has failed", "created previews, large")
  }

  /** A stage together with the outcome of its tool call. */
  datatype Job = Job(stage: Stage, outcome: Outcome<()>)

  /** The preview and image stages in the order the routine runs them, all
      reading the stereofied file: mp3 at quality 70 then 192, ogg at
      quality 1 then 6, medium images, large images. */
  function Jobs(env: Env): seq<Job> {
    var wav := env.tmpStereo;
    var at := env.locations;
    [ Job(Mp3Stage(wav, at(PreviewLQMp3), 70), env.mp3LQ),
      Job(Mp3Stage(wav, at(PreviewHQMp3), 192), env.mp3HQ),
      Job(OggStage(wav, at(PreviewLQOgg), 1), env.oggLQ),
      Job(OggStage(wav, at(PreviewHQOgg), 6), env.oggHQ),
      Job(MediumImagesStage(wav, at(WaveM), at(SpectralM)), env.imagesM),
      Job(LargeImagesStage(wav, at(WaveL), at(SpectralL)), env.imagesL) ]
  }

  /** Index of the first job whose tool call raised, or the number of jobs
      when none does. */
  function FirstFailing(jobs: seq<Job>): (k: nat)
    ensures k <= |jobs|
    ensures forall i :: 0 <= i < k ==> jobs[i].outcome.Done?
    ensures k < |jobs| ==> jobs[k].outcome.Raised?
    decreases |jobs|
  {
    if jobs == [] || jobs[0].outcome.Raised? then 0 else 1 + FirstFailing(jobs[1..])
  }

  /** The first failing index is the only one with no failure before it
      and a failure (or the end) at it. */
  lemma FirstFailingUnique(jobs: seq<Job>, k: nat)
    requires k <= |jobs|
    requires forall i :: 0 <= i < k ==> jobs[i].outcome.Done?
    requires k < |jobs| ==> jobs[k].outcome.Raised?
    ensures FirstFailing(jobs) == k
  {
  }

  /** The jobs that run: every job up to and including the first that
      raises. */
  function Attempted(jobs: seq<Job>): seq<Job>
    decreases |jobs|
  {
    if jobs == [] then []
    else if jobs[0].outcome.Raised? then [jobs[0]]
    else [jobs[0]] + Attempted(jobs[1..])
  }

  /** The jobs that run and succeed: every job before the first that raises. */
  function Succeeded(jobs: seq<Job>): seq<Job>
    decreases |jobs|
  {
    if jobs == [] || jobs[0].outcome.Raised? then [] else [jobs[0]] + Succeeded(jobs[1..])
  }

  /** The jobs' tool calls, in order. */
  function CallsOf(jobs: seq<Job>): (calls: seq<Call>)
    ensures |calls| == |jobs|
    ensures forall i :: 0 <= i < |jobs| ==> calls[i] == jobs[i].stage.call
    decreases |jobs|
  {
    if jobs == [] then [] else [jobs[0].stage.call] + CallsOf(jobs[1..])
  }

  /** Every file some job writes. */
  function OutputsOf(jobs: seq<Job>): (outputs: set<Path>)
    ensures forall i, p :: 0 <= i < |jobs| && p in jobs[i].stage.outputs ==> p in outputs
    ensures forall p :: p in outputs ==> exists i :: 0 <= i < |jobs| && p in jobs[i].stage.outputs
    decreases |jobs|
  {
    if jobs == [] then {} else jobs[0].stage.outputs + OutputsOf(jobs[1..])
  }

  function DirsOf(jobs: seq<Job>): set<Path>
    decreases |jobs|
  {
    if jobs == [] then {} else jobs[0].stage.dirs + DirsOf(jobs[1..])
  }

  /** The attempted jobs are the first `k + 1` when job `k` is the first to
      raise, and all of them otherwise; the succeeded ones are the first
      `k`. */
  lemma {:induction false} AttemptedPrefix(jobs: seq<Job>)
    ensures var k := FirstFailing(jobs);
      && Attempted(jobs) == jobs[..if k < |jobs| then k + 1 else k]
      && Succeeded(jobs) == jobs[..k]
    decreases |jobs|
  {
    if jobs != [] && jobs[0].outcome.Done? {
      AttemptedPrefix(jobs[1..]);
      var k := FirstFailing(jobs);
      var m := if k < |jobs| then k + 1 else k;
      assert jobs[..m] == [jobs[0]] + jobs[1..][..m - 1];
      assert jobs[..k] == [jobs[0]] + jobs[1..][..k - 1];
    }
  }

  /** How the job summaries unfold over a first job `j`. */
  lemma JobsHead(j: Job, rest: seq<Job>)
    ensures FirstFailing([j] + rest) == if j.outcome.Raised? then 0 else 1 + FirstFailing(rest)
    ensures Attempted([j] + rest) == if j.outcome.Raised? then [j] else [j] + Attempted(rest)
    ensures Succeeded([j] + rest) == if j.outcome.Raised? then [] else [j] + Succeeded(rest)
    ensures CallsOf([j] + rest) == [j.stage.call] + CallsOf(rest)
    ensures OutputsOf([j] + rest) == j.stage.outputs + OutputsOf(rest)
    ensures DirsOf([j] + rest) == j.stage.dirs + DirsOf(rest)
  {
    assert ([j] + rest)[1..] == rest;
  }

  /** The attempted jobs' calls, unfolded over the first job of a run. */
  lemma AttemptedCallsCons(jobs: seq<Job>)
    requires jobs != []
    ensures CallsOf(Attempted(jobs)) ==
              [jobs[0].stage.call] + (if jobs[0].outcome.Raised? then [] else CallsOf(Attempted(jobs[1..])))
  {
    assert jobs == [jobs[0]] + jobs[1..];
    JobsHead(jobs[0], jobs[1..]);
    if jobs[0].outcome.Raised? {
      JobsHead(jobs[0], []);
      assert [jobs[0]] + [] == [jobs[0]];
    } else {
      JobsHead(jobs[0], Attempted(jobs[1..]));
    }
  }

  /** The files of the attempted and succeeded jobs, unfolded over the first
      job of a run. */
  lemma JobFilesCons(jobs: seq<Job>)
    requires jobs != []
    ensures var st := jobs[0].stage;
      jobs[0].outcome.Raised? ==> DirsOf(Attempted(jobs)) == st.dirs && Succeeded(jobs) == []
    ensures var st := jobs[0].stage;
      jobs[0].outcome.Done? ==>
        && DirsOf(Attempted(jobs)) == st.dirs + DirsOf(Attempted(jobs[1..]))
        && OutputsOf(Succeeded(jobs)) == st.outputs + OutputsOf(Succeeded(jobs[1..]))
  {
    assert jobs == [jobs[0]] + jobs[1..];
    JobsHead(jobs[0], jobs[1..]);
    if jobs[0].outcome.Raised? {
      JobsHead(jobs[0], []);
      assert [jobs[0]] + [] == [jobs[0]];
    } else {
      JobsHead(jobs[0], Attempted(jobs[1..]));
      JobsHead(jobs[0], Succeeded(jobs[1..]));
    }
  }

  /** One preview or image stage: its directory is made, then on success
      its outputs exist and its line is logged; on failure the run ends
      through `Abort`. */
  function RunJob(c: Ctx, j: Job): (r: Step)
    ensures r.Stop? <==> j.outcome.Raised?
    ensures r.ctx.calls == c.calls + [j.stage.call]
    ensures Grows(c, r.ctx) && r.ctx.toCleanup == c.toCleanup
    ensures r.ctx.sound.originalPath == c.sound.originalPath && r.ctx.sound.info == c.sound.info
    ensures r.ctx.sound.processingDate == c.sound.processingDate
    ensures r.ctx.copies == c.copies
    ensures r.Stop? ==>
              && r.ctx.unlinks == c.unlinks + c.toCleanup
              && r.ctx.fs == c.fs + j.stage.dirs - Members(c.toCleanup)
              && r.ctx.sound.processingLog ==
                   c.sound.processingLog + AbortLines(c.toCleanup, j.stage.failMessage, j.outcome.fault)
              && r.ctx.sound.processingState == StateFailed
    ensures r.Continue? ==>
              && r.ctx.unlinks == c.unlinks
              && r.ctx.fs == c.fs + j.stage.dirs + j.stage.outputs
              && r.ctx.sound.processingLog == c.sound.processingLog + [j.stage.doneMessage]
              && r.ctx.sound.processingState == c.sound.processingState
  {
    var c1 := Invoke(c.(fs := c.fs + j.stage.dirs), j.stage.call);
    if j.outcome.Raised? then
      var r := Abort(c1, j.stage.failMessage, j.outcome.fault);
      GrowsTransitive(c, c1, r);
      Stop(r)
    else
      var r := LogSuccess(c1.(fs := c1.fs + j.stage.outputs), j.stage.doneMessage);
      GrowsTransitive(c, c1, r);
      Continue(r)
  }

  /** Runs the jobs in order and stops at the first that raises, which ends
      the run through `Abort`. */
  function RunJobs(c: Ctx, jobs: seq<Job>): (r: Step)
    ensures r.Stop? <==> FirstFailing(jobs) < |jobs|
    ensures r.ctx.sound.processingState == if r.Stop? then StateFailed else c.sound.processingState
    ensures Grows(c, r.ctx) && r.ctx.toCleanup == c.toCleanup
    ensures r.ctx.sound.originalPath == c.sound.originalPath && r.ctx.sound.info == c.sound.info
    ensures r.ctx.sound.processingDate == c.sound.processingDate
    ensures r.ctx.copies == c.copies
    decreases |jobs|
  {
    if jobs == [] then
      Continue(c)
    else
      match RunJob(c, jobs[0])
      case Stop(c1) => Stop(c1)
      case Continue(c1) =>
        var r := RunJobs(c1, jobs[1..]);
        GrowsTransitive(c, c1, r.ctx);
        r
  }

  /** Running the jobs makes exactly the attempted jobs' tool calls, in
      order: no job after a failing one runs. */
  lemma {:induction false} RunJobsCalls(c: Ctx, jobs: seq<Job>)
    ensures RunJobs(c, jobs).ctx.calls == c.calls + CallsOf(Attempted(jobs))
    decreases |jobs|
  {
    if jobs != [] {
      AttemptedCallsCons(jobs);
      var s := RunJob(c, jobs[0]);
      if s.Continue? {
        assert RunJobs(c, jobs) == RunJobs(s.ctx, jobs[1..]);
        RunJobsCalls(s.ctx, jobs[1..]);
        ConcatAssoc(c.calls, [jobs[0].stage.call], CallsOf(Attempted(jobs[1..])));
      } else {
        assert RunJobs(c, jobs) == s;
      }
    }
  }

  /** Running the jobs leaves the directories of every attempted job and the
      outputs of every succeeded job; a failure removes the queued
      temporary files. */
  lemma {:induction false} RunJobsFiles(c: Ctx, jobs: seq<Job>)
    ensures var r := RunJobs(c, jobs);
      r.ctx.fs == c.fs + DirsOf(Attempted(jobs)) + OutputsOf(Succeeded(jobs))
                  - (if r.Stop? then Members(c.toCleanup) else {})
    decreases |jobs|
  {
    if jobs != [] {
      JobFilesCons(jobs);
      var s := RunJob(c, jobs[0]);
      if s.Continue? {
        RunJobsFiles(s.ctx, jobs[1..]);
      }
    }
  }

  /** A failing job ends with cleanup: every queued temporary file is
      unlinked, nothing else, and the cleanup line is logged. When all jobs
      succeed nothing is unlinked. */
  lemma {:induction false} RunJobsCleanup(c: Ctx, jobs: seq<Job>)
    ensures var r := RunJobs(c, jobs);
      && r.ctx.unlinks == c.unlinks + (if r.Stop? then c.toCleanup else [])
      && (r.Stop? ==> CleanupLine(c.toCleanup) in r.ctx.sound.processingLog)
    decreases |jobs|
  {
    if jobs != [] {
      var s := RunJob(c, jobs[0]);
      if s.Stop? {
        assert CleanupLine(c.toCleanup) in AbortLines(c.toCleanup, jobs[0].stage.failMessage, jobs[0].outcome.fault);
      } else {
        RunJobsCleanup(s.ctx, jobs[1..]);
      }
    }
  }

  /** The lines the jobs log when every one of them succeeds. */
  function DoneLines(jobs: seq<Job>): (lines: seq<string>)
    ensures |lines| == |jobs|
    ensures forall i :: 0 <= i < |jobs| ==> lines[i] == jobs[i].stage.doneMessage
    decreases |jobs|
  {
    if jobs == [] then [] else [jobs[0].stage.doneMessage] + DoneLines(jobs[1..])
  }

  /** When no job raises, each job has logged its own line, in order, and
      nothing else. */
  lemma {:induction false} RunJobsLog(c: Ctx, jobs: seq<Job>)
    ensures var r := RunJobs(c, jobs);
      r.Continue? ==> r.ctx.sound.processingLog == c.sound.processingLog + DoneLines(jobs)
    decreases |jobs|
  {
    if jobs != [] {
      var s := RunJob(c, jobs[0]);
      if s.Continue? {
        RunJobsLog(s.ctx, jobs[1..]);
        ConcatAssoc(c.sound.processingLog, [jobs[0].stage.doneMessage], DoneLines(jobs[1..]));
      }
    }
  }

  /** `analyze(sound)`, best-effort: a failure is logged through `failure`
      (so the sound is saved as failed for now) and the run goes on. */
  function RunAnalysis(c: Ctx, env: Env): (r: Ctx)
    ensures Grows(c, r) && r.toCleanup == c.toCleanup && r.fs == c.fs
    ensures r.sound.originalPath == c.sound.originalPath && r.sound.info == c.sound.info
    ensures r.sound.processingDate == c.sound.processingDate
    ensures r.calls == c.calls + [Analyze]
    ensures r.copies == c.copies && r.unlinks == c.unlinks
    ensures env.analysis.Done? ==> r.sound == c.sound && r.saves == c.saves
    ensures env.analysis.Raised? ==>
              && r.sound.processingLog == c.sound.processingLog + FailureLines(AnalysisFailedMessage, Some(env.analysis.fault.error))
              && r.sound.processingState == StateFailed
              && r.saves == c.saves + [r.sound]
  {
    var c1 := Invoke(c, Analyze);
    if env.analysis.Done? then c1
    else
      var r := LogFailure(c1, AnalysisFailedMessage, Some(env.analysis.fault.error));
      GrowsTransitive(c, c1, r);
      r
  }

  /** The end of a run whose mandatory stages all succeeded: analysis is
      best-effort, cleanup runs, and the sound ends succeeded. */
  function Complete(c: Ctx, env: Env): (r: Ctx)
    ensures Grows(c, r) && r.toCleanup == c.toCleanup
    ensures r.sound.processingState == StateSucceeded && r.sound.processingDate == env.finished
    ensures r.sound.originalPath == c.sound.originalPath && r.sound.info == c.sound.info
    ensures r.calls == c.calls + [Analyze]
    ensures r.copies == c.copies
    ensures r.unlinks == c.unlinks + c.toCleanup
    ensures r.fs == c.fs - Members(c.toCleanup)
    ensures |r.saves| == |c.saves| + if env.analysis.Raised? then 3 else 2
    ensures env.analysis.Done? ==>
              r.sound.processingLog == c.sound.processingLog + [CleanupLine(c.toCleanup)]
    ensures env.analysis.Raised? ==>
              && r.sound.processingLog == c.sound.processingLog
                   + FailureLines(AnalysisFailedMessage, Some(env.analysis.fault.error)) + [CleanupLine(c.toCleanup)]
              && r.saves[|c.saves|].processingState == StateFailed
  {
    var c1 := RunAnalysis(c, env);
    var c2 := Cleanup(c1);
    var r := Save(c2, c2.sound.(processingState := StateSucceeded, processingDate := env.finished));
    GrowsTransitive(c, c1, c2);
    GrowsTransitive(c, c2, r);
    r
  }

  /** The preview and image stages `jobs` and, when they all succeed, the
      end of the run. */
  function Publish(c: Ctx, jobs: seq<Job>, env: Env): Run {
    match RunJobs(c, jobs)
    case Stop(c1) => Run(c1, false)
    case Continue(c1) => Run(Complete(c1, env), true)
  }

  /** Stereofy of the PCM file `wav`, then the previews. */
  function Describe(c: Ctx, wav: Path, env: Env): Run {
    match Stereofy(c, wav, env)
    case Stop(c1) => Run(c1, false)
    case Continue(c1) => Publish(c1, Jobs(env), env)
  }

  /** The PCM file stereofy reads: the converted one, or the source itself
      when it needed no conversion. */
  function Wav(source: Path, env: Env): Path {
    if env.pcm == Done(true) then env.tmpPcm else source
  }

  /** Everything after the source has been located. */
  function Transcode(c: Ctx, env: Env): Run {
    match ConvertPcm(c, env)
    case Stop(c1) => Run(c1, false)
    case Continue(c1) => Describe(c1, Wav(c.sound.originalPath, env), env)
  }

  /** `process(sound)` on the existing paths `fs`. */
  function Process(s: Sound, fs: set<Path>, env: Env): Run {
    var c := Start(s, fs, env.started);
    match Resolve(c, env.locations(Source), env.makeDirsOk)
    case Stop(c1) => Run(c1, false)
    case Continue(c1) => Transcode(c1, env)
  }
}
