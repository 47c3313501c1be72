/** Values shared by the whole model: options, job statuses and the persistent job record. */
module Model {

  datatype Option<+T> = None | Some(value: T)

  type Id = string
  type Time = int

  /** The six persisted status values. */
  datatype Status = Queued | Downloading | Processing | Verifying | Ready | Failed

  /** Display stages. A running download reports only the four pipeline stages. */
  datatype Stage = StageQueued | StageVideo | StageAudio | StageProcessing | StageVerifying | StageReady | StageFailed

  predicate PipelineStage(stage: Stage) {
    stage.StageVideo? || stage.StageAudio? || stage.StageProcessing? || stage.StageVerifying?
  }

  function StatusForStage(stage: Stage): Status {
    match stage
    case StageVideo => Downloading
    case StageAudio => Downloading
    case StageProcessing => Processing
    case StageVerifying => Verifying
    case StageReady => Ready
    case StageFailed => Failed
    case StageQueued => Queued
  }

  /** The persistent unit of work. */
  datatype Job = Job(
    id: Id,
    title: string,
    duration: real,
    status: Status,
    size: int,
    createdAt: Time,
    error: string)

  predicate InPipeline(status: Status) {
    status.Downloading? || status.Processing? || status.Verifying?
  }

  /** Whether the job still counts toward the admission limit. */
  predicate Unfinished(j: Job) {
    j.status.Queued? || InPipeline(j.status)
  }

  const MAX_UNFINISHED := 16
  const TITLE_ATTEMPTS := 3

  const INTERRUPTED := "The download was interrupted by a restart. Tap Retry to continue."
  const MISSING_FILE := "The stored file is missing. Retry to download it again."
  const UNREADABLE := "The stored job data is unreadable. Delete it and submit the URL again."
  const STUCK_FILES := "Unable to delete the video files. Check server storage and try again."
  const UNPERSISTABLE := "Unable to persist the job state. Check server storage."

  // ---- sizes of sets ----

  lemma SubsetSize<T>(a: set<T>, b: set<T>)
    requires a <= b
    ensures |a| <= |b|
  {
    if a != {} {
      var x :| x in a;
      SubsetSize(a - {x}, b - {x});
    }
  }

  lemma ProperSubsetSize<T>(a: set<T>, b: set<T>, x: T)
    requires a <= b && x in b && x !in a
    ensures |a| < |b|
  {
    SubsetSize(a, b - {x});
  }
}
