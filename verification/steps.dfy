/**
 * The state a run threads through its stages, and the routine's inner
 * helpers: `sound.save()`, `success`, `failure` and `cleanup`.
 */
module Steps {
  import opened Wrappers
  import opened Locations
  import opened Sounds
  import opened Tools

  /** The record, the set of existing paths, the temporary files queued for
      deletion (`to_cleanup`), and the effects so far, each kind in the
      order it happened: every record as saved, every tool call, every
      (source, target) copy and every path unlinked. */
  datatype Ctx = Ctx(
    sound: Sound,
    fs: set<Path>,
    toCleanup: seq<Path>,
    saves: seq<Sound>,
    calls: seq<Call>,
    copies: seq<(Path, Path)>,
    unlinks: seq<Path>)

  /** Each saved log extends the one saved before it. */
  predicate Chained(saves: seq<Sound>)
    decreases |saves|
  {
    |saves| <= 1 ||
      (Chained(saves[..|saves| - 1]) &&
       saves[|saves| - 2].processingLog <= saves[|saves| - 1].processingLog)
  }

  /** The current record is exactly what was last saved. */
  predicate Persisted(c: Ctx) {
    |c.saves| > 0 && c.saves[|c.saves| - 1] == c.sound
  }

  /** The run's invariant: the record in hand is the saved one, and the
      saved logs only ever grew. */
  predicate Sane(c: Ctx) {
    Persisted(c) && Chained(c.saves)
  }

  /** `r` is a later state of the same run as `c`: same sound, the first
      save kept, and the invariant kept. */
  predicate Grows(c: Ctx, r: Ctx) {
    && r.sound.id == c.sound.id
    && |c.saves| <= |r.saves|
    && (|c.saves| > 0 ==> r.saves[0] == c.saves[0])
    && (Sane(c) ==> Sane(r))
  }

  lemma GrowsTransitive(a: Ctx, b: Ctx, c: Ctx)
    requires Grows(a, b) && Grows(b, c)
    ensures Grows(a, c)
  {
  }

  lemma PrefixTransitive<T>(a: seq<T>, b: seq<T>, c: seq<T>)
    requires a <= b && b <= c
    ensures a <= c
  {
    assert a == b[..|a|] && b == c[..|b|];
    assert c[..|b|][..|a|] == c[..|a|];
  }

  lemma ConcatAssoc<T>(a: seq<T>, b: seq<T>, c: seq<T>)
    ensures a + b + c == a + (b + c)
  {
  }

  /** Chained saves mean every saved log is a prefix of every later one. */
  lemma {:induction false} ChainedPrefixes(saves: seq<Sound>, i: int, j: int)
    requires Chained(saves) && 0 <= i <= j < |saves|
    ensures saves[i].processingLog <= saves[j].processingLog
    decreases |saves|
  {
    if i < j {
      var front := saves[..|saves| - 1];
      if j < |saves| - 1 {
        ChainedPrefixes(front, i, j);
      } else {
        ChainedPrefixes(front, i, j - 1);
        PrefixTransitive(saves[i].processingLog, saves[j - 1].processingLog, saves[j].processingLog);
      }
    }
  }

  function Members(files: seq<Path>): set<Path> {
    set p | p in files
  }

  /** Replaces the record by `s` and saves it (`sound.save()`). */
  function Save(c: Ctx, s: Sound): (r: Ctx)
    requires s.id == c.sound.id
    requires c.sound.processingLog <= s.processingLog
    ensures r == c.(sound := s, saves := c.saves + [s])
    ensures Persisted(r)
    ensures Grows(c, r)
  {
    var r := c.(sound := s, saves := c.saves + [s]);
    assert r.saves[..|r.saves| - 1] == c.saves;
    r
  }

  /** Records one call into the audio tools. */
  function Invoke(c: Ctx, call: Call): (r: Ctx)
    ensures r == c.(calls := c.calls + [call])
    ensures Grows(c, r)
  {
    c.(calls := c.calls + [call])
  }

  /** `success(message)`: appends one line and saves. */
  function LogSuccess(c: Ctx, message: string): (r: Ctx)
    ensures r.sound == c.sound.(processingLog := c.sound.processingLog + [message])
    ensures r == c.(sound := r.sound, saves := c.saves + [r.sound])
    ensures Grows(c, r)
  {
    Save(c, c.sound.(processingLog := c.sound.processingLog + [message]))
  }

  /** The lines `failure(message, error)` appends: the message behind a
      `failed:` tag, then the error's text when an error is given. */
  function FailureLines(message: string, error: Option<string>): (lines: seq<string>)
    ensures |lines| == if error.Some? then 2 else 1
    ensures lines[0] == "failed:" + message
    ensures error.Some? ==> lines[1] == error.value
  {
    ["failed:" + message] + (if error.Some? then [error.value] else [])
  }

  /** `failure(message, error)`: appends the failure lines, marks the sound
      failed and saves. Nothing else about the record changes. */
  function LogFailure(c: Ctx, message: string, error: Option<string>): (r: Ctx)
    ensures r.sound == c.sound.(processingLog := c.sound.processingLog + FailureLines(message, error),
                                processingState := StateFailed)
    ensures r == c.(sound := r.sound, saves := c.saves + [r.sound])
    ensures Grows(c, r)
  {
    Save(c, c.sound.(
      processingLog := c.sound.processingLog + FailureLines(message, error),
      processingState := StateFailed))
  }

  /** `", ".join(parts)` */
  function Join(parts: seq<string>, sep: string): string
    decreases |parts|
  {
    if |parts| == 0 then ""
    else if |parts| == 1 then parts[0]
    else parts[0] + sep + Join(parts[1..], sep)
  }

  function CleanupLine(files: seq<Path>): string {
    "cleaning up files after processing: " + Join(files, ", ")
  }

  lemma MembersCons(files: seq<Path>)
    requires files != []
    ensures Members(files) == {files[0]} + Members(files[1..])
  {
    assert forall p :: p in files <==> p == files[0] || p in files[1..];
  }

  /** Unlinks each file in turn; a file that is already gone is skipped
      silently and the remaining files are still attempted. */
  function UnlinkAll(c: Ctx, files: seq<Path>): (r: Ctx)
    ensures r == c.(fs := c.fs - Members(files), unlinks := c.unlinks + files)
    decreases |files|
  {
    if files == [] then
      assert c.unlinks + files == c.unlinks;
      c
    else
      MembersCons(files);
      assert c.unlinks + files == c.unlinks + [files[0]] + files[1..];
      UnlinkAll(c.(fs := c.fs - {files[0]}, unlinks := c.unlinks + [files[0]]), files[1..])
  }

  /** `cleanup(to_cleanup)`: logs and saves the cleanup line first, then
      unlinks every queued temporary file, ignoring unlink failures. The
      record is left as saved. */
  function Cleanup(c: Ctx): (r: Ctx)
    ensures r.sound == c.sound.(processingLog := c.sound.processingLog + [CleanupLine(c.toCleanup)])
    ensures r == c.(sound := r.sound, saves := c.saves + [r.sound],
                    fs := c.fs - Members(c.toCleanup), unlinks := c.unlinks + c.toCleanup)
    ensures Grows(c, r)
  {
    UnlinkAll(LogSuccess(c, CleanupLine(c.toCleanup)), c.toCleanup)
  }
}
