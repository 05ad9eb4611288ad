/**
 * The Sound record, restricted to the columns the processing routine reads
 * or writes.
 */
module Sounds {
  import opened Locations

  /** An opaque, monotone clock reading standing in for `datetime.now()`. */
  type Time = nat

  /** The `processing_state` codes the routine writes. */
  const StateQueued: string := "QU"
  const StateProcessing: string := "PR"
  const StateSucceeded: string := "OK"
  const StateFailed: string := "FA"

  /** The technical metadata returned by the stereofy stage. */
  datatype AudioInfo = AudioInfo(samplerate: int, bitrate: int, bitdepth: int, channels: int, duration: real)

  /** `processing_log` is kept as its lines: every append of `text + "\n"` is one entry. */
  datatype Sound = Sound(
    id: int,
    originalPath: Path,
    processingState: string,
    processingDate: Time,
    processingLog: seq<string>,
    info: AudioInfo)
}
