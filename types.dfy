/** Value types shared by the model of the upload/save orchestration of the
    "unsaved changes" dialog. */
module SaveLayerTypes {

  /** A layer is identified by a number (the program uses object identity). */
  type LayerId = nat

  datatype Option<T> = None | Some(value: T)

  /** The outcome recorded for one upload or one save of a layer. A slot that
      was never written (null in the program) is a missing map key. */
  datatype UploadOrSaveState = Ok | Canceled | Failed

  /** The model's mode: the user edits the choices, or a run is busy. */
  datatype Mode = EditingData | UploadingAndSaving

  /** What the user decided with respect to the pending operation. */
  datatype UserAction = Proceed | Cancel

  /** The file associated with a layer that is to be saved. */
  datatype FileStatus = NoFile | Writable | NotWritable

  /** One row of the dialog's model: a layer and what is to be done with it. */
  datatype LayerEntry = LayerEntry(
    id: LayerId,
    doUpload: bool,
    doSave: bool,
    hasConflicts: bool,
    file: FileStatus)

  /** A notification of the model: a call of setMode, setUploadState or
      setSaveState, in the order they happened. */
  datatype Event =
    | ModeSet(mode: Mode)
    | UploadStateSet(layer: LayerId, state: UploadOrSaveState)
    | SaveStateSet(layer: LayerId, state: UploadOrSaveState)

  datatype Phase = Upload | Save

  /** One IO task handed to the single worker: which phase, which layer. */
  datatype Job = Job(phase: Phase, layer: LayerId)

  /** How waiting on the worker's future ended. */
  datatype FutureResult = Returned | CancellationThrown | InterruptedThrown | ExecutionThrown

  /** What a finished IO task reports: the future's ending and its own flags. */
  datatype TaskOutcome = TaskOutcome(future: FutureResult, isCanceled: bool, isFailed: bool)

  /** The layer's upload dialog: absent, confirmed, or canceled by the user. */
  datatype UploadDialogAnswer = NoUploadDialog | Confirmed | DialogCanceled

  /** The environment's answers while uploading one layer: the pre-upload
      check, the upload dialog, and the task createUploadTask made (None for null). */
  datatype UploadAnswer = UploadAnswer(preUploadOk: bool, dialog: UploadDialogAnswer, task: Option<TaskOutcome>)

  /** The environment's answers while saving one layer: the save-condition
      check and what the save task reports. */
  datatype SaveAnswer = SaveAnswer(saveConditionsOk: bool, task: TaskOutcome)

  /** When the user presses Cancel during a run: never, or once after
      `uploadsDone` upload items were processed (a value at or beyond the
      number of uploads means: after the upload phase, before the save phase). */
  datatype CancelPress = NoPress | PressBefore(uploadsDone: nat)

  /** The state a finished task leaves for its layer: its own flags decide. */
  function FinalState(t: TaskOutcome): (s: UploadOrSaveState)
    ensures s == Canceled <==> t.isCanceled
    ensures s == Ok <==> !t.isCanceled && !t.isFailed
    ensures s == Failed <==> !t.isCanceled && t.isFailed
  {
    if t.isCanceled then Canceled else if t.isFailed then Failed else Ok
  }
}
