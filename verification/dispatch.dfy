/**
 * `process_sound_via_gearman`: marks a sound queued, saves it, and submits a
 * background job that names the sound by its id only.
 */
module Dispatch {
  import opened Wrappers
  import opened Sounds
  import Decimal

  /** The job name workers listen on. */
  const ProcessSoundTask: string := "process_sound"

  /** What the dispatcher does, in order: save the record, then submit a
      background job with one string argument. */
  datatype Effect = Saved(snapshot: Sound) | Submitted(task: string, argument: string)

  datatype Submission = Submission(sound: Sound, effects: seq<Effect>)

  /** The record is saved as queued before the job is handed to the queue, and
      the job's single argument decodes back to the sound's id. */
  function Enqueue(s: Sound, now: Time): (r: Submission)
    ensures r.sound.processingState == StateQueued && r.sound.processingDate == now
    ensures r.sound.id == s.id && r.sound.originalPath == s.originalPath
    ensures r.sound.processingLog == s.processingLog && r.sound.info == s.info
    ensures |r.effects| == 2 && r.effects[0] == Saved(r.sound)
    ensures r.effects[1].Submitted? && r.effects[1].task == ProcessSoundTask
    ensures Decimal.ParseInt(r.effects[1].argument) == Some(s.id)
  {
    Decimal.ParseIntToString(s.id);
    var q := s.(processingDate := now, processingState := StateQueued);
    Submission(q, [Saved(q), Submitted(ProcessSoundTask, Decimal.IntToString(s.id))])
  }

  /** Two submissions carry the same argument only for the same sound. */
  lemma SubmissionIdentifiesSound(a: Sound, b: Sound, ta: Time, tb: Time)
    ensures Enqueue(a, ta).effects[1].argument == Enqueue(b, tb).effects[1].argument <==> a.id == b.id
  {
    Decimal.IntToStringInjective(a.id, b.id);
  }
}
