/**
 * Paths, the keys under which a sound's storage layout names its files, and
 * `os.path.dirname`.
 */
module Locations {
  type Path = string

  /** The keys the processing routine asks `sound.locations` for:
      `path`, `preview.LQ.mp3.path`, `preview.HQ.mp3.path`,
      `preview.LQ.ogg.path`, `preview.HQ.ogg.path`, `display.wave.M.path`,
      `display.spectral.M.path`, `display.wave.L.path` and
      `display.spectral.L.path`. */
  datatype LocationKey =
    | Source
    | PreviewLQMp3 | PreviewHQMp3 | PreviewLQOgg | PreviewHQOgg
    | WaveM | SpectralM | WaveL | SpectralL

  /** Index just past the last '/', or 0 when there is none. */
  function LastSlashEnd(p: Path): (i: nat)
    ensures i <= |p|
    ensures 0 < i ==> p[i - 1] == '/'
    ensures forall j :: i <= j < |p| ==> p[j] != '/'
    decreases |p|
  {
    if |p| == 0 then 0
    else if p[|p| - 1] == '/' then |p|
    else LastSlashEnd(p[..|p| - 1])
  }

  function StripTrailingSlashes(h: Path): (r: Path)
    ensures r <= h
    ensures |r| == 0 || r[|r| - 1] != '/'
    ensures forall j :: |r| <= j < |h| ==> h[j] == '/'
    decreases |h|
  {
    if |h| > 0 && h[|h| - 1] == '/' then StripTrailingSlashes(h[..|h| - 1]) else h
  }

  predicate AllSlashes(h: Path) {
    forall i :: 0 <= i < |h| ==> h[i] == '/'
  }

  /** `os.path.dirname`: everything before the last '/', without trailing
      slashes unless the head consists of slashes only. */
  function Dirname(p: Path): (d: Path)
    ensures d <= p
  {
    var head := p[..LastSlashEnd(p)];
    if |head| > 0 && !AllSlashes(head) then StripTrailingSlashes(head) else head
  }

  /** What `Dirname` returns, with `k` the index just past the last '/': a
      prefix of the first `k` characters from which only slashes are
      dropped. A head of slashes only is kept whole; any other head loses
      its trailing slashes and is not empty. */
  lemma DirnameSpec(p: Path)
    ensures var d := Dirname(p); var k := LastSlashEnd(p);
      && d <= p
      && |d| <= k
      && (forall j :: |d| <= j < k ==> p[j] == '/')
      && (AllSlashes(p[..k]) ==> d == p[..k])
      && (!AllSlashes(p[..k]) ==> |d| > 0 && d[|d| - 1] != '/')
  {
  }
}
