/**
 * Properties of a whole `process(sound)` run, from the record and the
 * existing paths it starts from and the outcomes of everything it calls.
 */
module Runs {
  import opened Wrappers
  import opened Locations
  import opened Sounds
  import opened Tools
  import opened Steps
  import opened Processing
  import opened ProcessingProperties

  /** The source can be located and put at its new path. */
  predicate Located(s: Sound, fs: set<Path>, env: Env) {
    Resolvable(s.originalPath, fs, env.locations(Source), env.makeDirsOk)
  }

  /** The names `tempfile.mktemp` hands out are not existing files and are
      none of the sound's own paths. */
  predicate FreshTemps(fs: set<Path>, env: Env) {
    && env.tmpPcm !in fs && env.tmpStereo !in fs
    && forall k :: env.locations(k) != env.tmpPcm && env.locations(k) != env.tmpStereo
  }

  /** A run returns true exactly when the source is located and no
      mandatory stage raises; the final state is "OK" exactly then and
      "FA" otherwise. `original_path` is the new path exactly when the
      source was located. A success stamps the finishing time and stores
      the stereofied file's metadata; a failure keeps the starting time, and
      the metadata stereofy saved if it returned before the failure. A
      failed analysis does not fail the run but leaves a failed snapshot
      and its line in the log. */
  lemma ProcessOutcome(s: Sound, fs: set<Path>, env: Env)
    ensures var r := Process(s, fs, env);
      && (r.result <==> Located(s, fs, env) && FirstFailure(env) == 8)
      && r.final.sound.processingState == (if r.result then StateSucceeded else StateFailed)
      && r.final.sound.originalPath == (if Located(s, fs, env) then env.locations(Source) else s.originalPath)
      && r.final.sound.processingDate == (if r.result then env.finished else env.started)
      && (r.result ==> r.final.sound.info == env.stereofy.value)
      && r.final.sound.info ==
           (if Located(s, fs, env) && env.pcm.Done? && env.stereofy.Done? then env.stereofy.value else s.info)
      && (r.result && env.analysis.Raised? ==> AnalysisFailureRecorded(r.final))
      && r.final.sound.id == s.id
  {
    hide Resolve, Transcode;
    var c := Start(s, fs, env.started);
    match Resolve(c, env.locations(Source), env.makeDirsOk)
    case Stop(c1) =>
    case Continue(c1) =>
      TranscodeOutcome(c1, env);
  }

  /** Every run first saves the record with an empty log, state "PR" and
      the starting time, so no line of an earlier attempt survives; every
      later snapshot extends the log of the one before, and the last one
      is the final record. */
  lemma ProcessStartsAfresh(s: Sound, fs: set<Path>, env: Env)
    ensures var r := Process(s, fs, env);
      && Sane(r.final)
      && r.final.saves[0] == Reset(s, env.started)
      && r.final.saves[0].processingLog == []
  {
    hide Resolve, Transcode;
    var c := Start(s, fs, env.started);
    match Resolve(c, env.locations(Source), env.makeDirsOk)
    case Stop(c1) =>
    case Continue(c1) =>
      TranscodeOutcome(c1, env);
      GrowsTransitive(c, c1, Transcode(c1, env).final);
  }

  /** Lines are only ever appended during a run: every saved snapshot's log
      is a prefix of the final log. */
  lemma ProcessOnlyAppendsToLog(s: Sound, fs: set<Path>, env: Env)
    ensures var r := Process(s, fs, env);
      forall i :: 0 <= i < |r.final.saves| ==> r.final.saves[i].processingLog <= r.final.sound.processingLog
  {
    hide Process;
    ProcessStartsAfresh(s, fs, env);
    var saves := Process(s, fs, env).final.saves;
    forall i | 0 <= i < |saves|
      ensures saves[i].processingLog <= saves[|saves| - 1].processingLog
    {
      ChainedPrefixes(saves, i, |saves| - 1);
    }
  }

  /** What a run does depends on the record only through its id, path and
      metadata: the log, state and date of an earlier attempt make no
      difference. */
  lemma ProcessIgnoresEarlierAttempts(s1: Sound, s2: Sound, fs: set<Path>, env: Env)
    requires s1.id == s2.id && s1.originalPath == s2.originalPath && s1.info == s2.info
    ensures Process(s1, fs, env) == Process(s2, fs, env)
  {
    hide Resolve, Transcode;
    assert Reset(s1, env.started) == Reset(s2, env.started);
  }

  /** A run makes no tool call when the source cannot be located, and
      otherwise the calls of every stage up to and including the first
      that raises, in order: no later stage runs. */
  lemma ProcessMakesCalls(s: Sound, fs: set<Path>, env: Env)
    ensures Process(s, fs, env).final.calls ==
              if Located(s, fs, env) then AllCalls(env)[..FirstFailure(env) + 1] else []
  {
    hide Resolve, Transcode;
    var c := Start(s, fs, env.started);
    match Resolve(c, env.locations(Source), env.makeDirsOk)
    case Stop(c1) =>
    case Continue(c1) =>
      TranscodeMakesCalls(c1, env);
  }

  /** A run unlinks exactly the temporary files it created, in order, and
      nothing when the source cannot be located. Every exit after the
      source is located logs the cleanup line, except a PCM conversion
      that raises an `AudioProcessingException`, whose run ends with the
      failure lines alone. */
  lemma ProcessCleanup(s: Sound, fs: set<Path>, env: Env)
    ensures var r := Process(s, fs, env);
      && r.final.unlinks == (if Located(s, fs, env) then TempFiles(env) else [])
      && |r.final.unlinks| <= 2
      && (Located(s, fs, env) && !(env.pcm.Raised? && env.pcm.fault.Expected?) ==>
            CleanupLine(TempFiles(env)) in r.final.sound.processingLog)
  {
    hide Resolve, Transcode;
    var c := Start(s, fs, env.started);
    match Resolve(c, env.locations(Source), env.makeDirsOk)
    case Stop(c1) =>
    case Continue(c1) =>
      TranscodeCleanup(c1, env);
  }

  /** The files a run leaves: with fresh temporary names, no existing file
      is removed (the source is copied, never moved) and the new path
      exists once the source is located; a successful run leaves every
      preview and image file; every temporary file created is gone again;
      a source that cannot be located leaves the files as they were. The
      source is copied exactly when it was found at its old location
      only. */
  lemma ProcessFiles(s: Sound, fs: set<Path>, env: Env)
    requires FreshTemps(fs, env)
    ensures var r := Process(s, fs, env);
      && fs <= r.final.fs
      && (Located(s, fs, env) ==> env.locations(Source) in r.final.fs)
      && (Located(s, fs, env) ==> r.final.fs !! Members(TempFiles(env)))
      && (r.result ==> Previews(env) <= r.final.fs)
      && (!Located(s, fs, env) ==> r.final.fs == fs)
      && r.final.copies ==
           if Located(s, fs, env) && env.locations(Source) !in fs then [(s.originalPath, env.locations(Source))] else []
  {
    FreshTempsAreNoneOfTheFiles(fs, env);
    hide Resolve, Transcode, Previews, TempFiles;
    var c := Start(s, fs, env.started);
    match Resolve(c, env.locations(Source), env.makeDirsOk)
    case Stop(c1) =>
    case Continue(c1) =>
      TranscodeFiles(c1, env);
      TranscodeOutcome(c1, env);
  }

  /** Fresh temporary names are none of the existing files, the source's
      new path, or the preview and image files. */
  lemma FreshTempsAreNoneOfTheFiles(fs: set<Path>, env: Env)
    requires FreshTemps(fs, env)
    ensures var temps := Members(TempFiles(env));
      && fs !! temps
      && env.locations(Source) !in temps
      && Previews(env) !! temps
  {
    var temps := Members(TempFiles(env));
    assert forall p :: p in temps ==> p == env.tmpPcm || p == env.tmpStereo;
  }

  /** A source found at neither path fails the run at once: one `failed:`
      line, nothing queued for cleanup and no cleanup line, no tool call,
      no copy, the files untouched. */
  lemma ProcessMissingSource(s: Sound, fs: set<Path>, env: Env)
    requires env.locations(Source) !in fs && s.originalPath !in fs
    ensures var r := Process(s, fs, env);
      && !r.result
      && r.final.sound.processingState == StateFailed
      && r.final.sound.processingLog == ["failed:" + NotFoundMessage]
      && r.final.saves == [Reset(s, env.started), r.final.sound]
      && r.final.toCleanup == [] && r.final.unlinks == []
      && r.final.calls == [] && r.final.copies == [] && r.final.fs == fs
  {
    hide Transcode;
  }

  /** A source found only at an old path outside the legacy root fails the
      run after logging where it was found, with no copy and
      `original_path` unchanged. */
  lemma ProcessOutsideLegacyRoot(s: Sound, fs: set<Path>, env: Env)
    requires env.locations(Source) !in fs && s.originalPath in fs
    requires !(LegacyRoot <= s.originalPath)
    ensures var r := Process(s, fs, env);
      && !r.result
      && r.final.sound.processingState == StateFailed
      && r.final.sound.processingLog ==
           [FoundOldMessage(s.originalPath), "failed:" + UnexpectedLocationMessage]
      && r.final.sound.originalPath == s.originalPath
      && r.final.calls == [] && r.final.copies == [] && r.final.fs == fs
  {
    hide Transcode;
  }

  /** A source under the legacy root whose destination directory neither
      exists nor can be created fails the run after logging the copy it
      was about to make, with no copy and `original_path` unchanged. */
  lemma ProcessNoDestinationDirectory(s: Sound, fs: set<Path>, env: Env)
    requires env.locations(Source) !in fs && s.originalPath in fs
    requires LegacyRoot <= s.originalPath
    requires Dirname(env.locations(Source)) !in fs && !env.makeDirsOk
    ensures var r := Process(s, fs, env); var newPath := env.locations(Source);
      && !r.result
      && r.final.sound.processingState == StateFailed
      && r.final.sound.processingLog ==
           [ FoundOldMessage(s.originalPath),
             CopyingMessage(s.originalPath, newPath),
             "failed:" + NoDestinationMessage(Dirname(newPath)) ]
      && r.final.sound.originalPath == s.originalPath
      && r.final.calls == [] && r.final.copies == [] && r.final.fs == fs
  {
    hide Transcode;
  }

  /** The lines a run logs while it locates the source: where the file was
      found, and for a file found only at its old path, the copy. */
  function LocatedLines(s: Sound, fs: set<Path>, env: Env): seq<string> {
    var newPath := env.locations(Source);
    if newPath in fs then [FoundNewMessage(newPath)]
    else [FoundOldMessage(s.originalPath), CopyingMessage(s.originalPath, newPath), CopiedMessage]
  }

  /** The whole log of a successful run: where the source was found (and
      the copy), the PCM line, the stereofy line, the six preview and image
      lines, the analysis failure if there is one, and the cleanup line
      naming every temporary file. */
  lemma ProcessSuccessLog(s: Sound, fs: set<Path>, env: Env)
    ensures var r := Process(s, fs, env);
      r.result ==>
        r.final.sound.processingLog ==
          LocatedLines(s, fs, env) + [PcmLine(env), StereofiedMessage(env.tmpStereo)] + PreviewLines(env)
            + AnalysisLines(env) + [CleanupLine(TempFiles(env))]
  {
    hide Resolve, Transcode;
    var c := Start(s, fs, env.started);
    match Resolve(c, env.locations(Source), env.makeDirsOk)
    case Stop(c1) =>
    case Continue(c1) =>
      TranscodeLog(c1, env);
      assert c1.sound.processingLog == LocatedLines(s, fs, env);
  }
}
