/** The progress updates a job reports to its caller. */
module Progress {

  /** The `status` field of a progress update. */
  datatype Status = Processing | Done | Error

  /** `{ status, message, progress }`: one update; `progress` is a percentage. */
  datatype ProgressUpdate = ProgressUpdate(status: Status, message: string, progress: int)

  /** The checkpoints the pipeline reports before each stage. */
  const Downloading := ProgressUpdate(Processing, "Downloading video...", 10)
  const Transcribing := ProgressUpdate(Processing, "Generating transcript...", 40)
  const Summarizing := ProgressUpdate(Processing, "Generating summary...", 70)

  /** Every checkpoint of a job that reaches the summary stage, in order. */
  const Checkpoints := [Downloading, Transcribing, Summarizing]

  /** Percentages strictly increase along the trace. */
  ghost predicate StrictlyIncreasing(trace: seq<ProgressUpdate>) {
    forall i, j :: 0 <= i < j < |trace| ==> trace[i].progress < trace[j].progress
  }

  /** No update in the trace is terminal. */
  ghost predicate NoneDone(trace: seq<ProgressUpdate>) {
    forall i :: 0 <= i < |trace| ==> trace[i].status == Processing
  }

  /** Any prefix of the checkpoints is strictly increasing, within [0, 100],
      and holds only `processing` updates. */
  lemma CheckpointPrefixIsOrdered(trace: seq<ProgressUpdate>)
    requires trace <= Checkpoints
    ensures StrictlyIncreasing(trace)
    ensures NoneDone(trace)
    ensures forall i :: 0 <= i < |trace| ==> 0 <= trace[i].progress <= 100
  {
    forall i | 0 <= i < |trace|
      ensures trace[i] == Checkpoints[i]
    {
    }
  }
}
