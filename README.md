# SaveLayersDialog orchestration, modelled in Dafny

This project models the part of JOSM's `SaveLayersDialog` that decides, and
then does, the saving and uploading of modified layers before those layers
are destroyed. It covers:

- the static filter `saveUnsavedModifications`. It picks the modifiable
  layers with unsaved changes, shows the dialog for them, and turns the
  user's answer into "proceed" or "do not proceed".
- the pre-launch gate `confirmSaveLayerInfosOK`, which checks three warning
  lists in a fixed order.
- the run `SaveAndUploadTask.run`. It switches the mode to
  UPLOADING_AND_SAVING, uploads every layer marked for upload, then saves
  every layer marked for saving. It then switches back to EDITING_DATA and
  either closes the dialog with PROCEED, or warns about the canceled or
  failed layers and, if Cancel was pressed, closes it with CANCEL.
- the Cancel action. It dispatches on the mode: in EDITING_DATA it closes
  the dialog; while uploading or saving it cancels the running task.

The files:

- `types.dfy` (module `SaveLayerTypes`) holds the value types: the layer
  entries of the table, the upload/save states, the modes, and the answers
  of the environment. Those answers are the upload dialog, the task
  factories and the outcome of each I/O task.
- `model.dfy` (module `LayersModel`) holds the table model as a value
  (`Store`) and as a class (`SaveLayersModel`) whose setters the task
  calls.
- `pipeline.dfy` (module `UploadSavePipeline`) holds one upload item, one
  save item and the two phases as left folds, with their properties.
- `run.dfy` (module `UploadSaveRun`) holds a whole run as a function and
  what a run guarantees: ordering, final states, submitted jobs and the
  final decision.
- `dialog.dfy` (module `Dialog`) holds the filter, the gate, and the
  classes `SaveAndUploadTask` and `SaveLayersDialog`. Their loops and state
  changes are proved equal to the functions of `pipeline.dfy` and
  `run.dfy`.
- `scenarios.dfy` (module `RunScenarios`) holds whole-run consequences and
  small concrete runs.

Environment inputs are parameters:

- `up: LayerId -> UploadAnswer` gives, per layer:
  - whether `checkPreUploadConditions` passes;
  - what the upload dialog answers;
  - whether `createUploadTask` returns a task, and how that task ends.
- `sv: LayerId -> SaveAnswer` gives, per layer, whether
  `checkSaveConditions` passes and how the save task ends.
- `press: CancelPress` is the moment the user presses Cancel:
  - `NoPress` means Cancel is never pressed;
  - `PressBefore(k)` means it is pressed after `k` upload items, and
    `k >= |toUpload|` means after the upload phase.

Letting the press arrive only between upload items, or between the two
phases, is a modelling choice. It matches the longest stretches during which
the event thread is blocked: each upload's dialog, submit and wait run inside
`runInEDTAndWait` (line 570), and the save phase and the finalization run in
one event-thread block (lines 695-712). The source also lets a press arrive
at other moments; "## Left out" names them.

A task ends as one of four outcomes:

- it returns;
- it throws `CancellationException`;
- it throws `InterruptedException`;
- it throws `ExecutionException`.

Its `isCanceled`/`isFailed` flags then decide the state written last (lines
612-619 and 651-660).

Two behaviours of the code worth noting:

- A failed `checkSaveConditions` writes no save state. It leaves the layer
  unsaved and still "to be checked".
- A slot can be written twice: first by a catch clause, then from the
  task's flags. The flags win.

## Model

| member | source | states |
|---|---|---|
| SaveLayerTypes.FinalState | src/org/openstreetmap/josm/gui/io/SaveLayersDialog.java:651-660 | the state written last comes from the task's own flags: CANCELED iff isCanceled, FAILED iff failed and not canceled, OK iff neither |
| LayersModel.Select | src/org/openstreetmap/josm/gui/io/SaveLayersDialog.java:324-341 | a getLayers… list holds exactly the ids of the entries with the property; it is empty iff no entry has it |
| LayersModel.Populated | src/org/openstreetmap/josm/gui/io/SaveLayersDialog.java:133 | after populate every entry's save check is pending and the table is consistent; it has no unsaved data iff no entry asks for upload or save |
| LayersModel.NoProblemsWithoutUnsavedData | src/org/openstreetmap/josm/gui/io/SaveLayersDialog.java:666-669 | in a consistent table without unsaved data no entry counts as canceled or failed |
| LayersModel.CountZeroIff | src/org/openstreetmap/josm/gui/io/SaveLayersDialog.java:666-669 | a problem count is 0 iff no entry has a slot in that state |
| LayersModel.CountSameStates | src/org/openstreetmap/josm/gui/io/SaveLayersDialog.java:666 | the cancel and failure counts depend only on the state maps |
| LayersModel.UnsavedSameStates | src/org/openstreetmap/josm/gui/io/SaveLayersDialog.java:700-701 | hasUnsavedData depends only on the entries and their states, not on mode changes |
| LayersModel.ActionsEnabled | src/org/openstreetmap/josm/gui/io/SaveLayersDialog.java:523-533 | a plain mapping from the mode to whether the save/proceed action is enabled: enabled iff the mode is not UPLOADING_AND_SAVING; RunActionsEnabled ties it to the run |
| LayersModel.SaveLayersModel.constructor | src/org/openstreetmap/josm/gui/io/SaveLayersDialog.java:95 | a new model is empty and in EDITING_DATA |
| LayersModel.SaveLayersModel.Populate | src/org/openstreetmap/josm/gui/io/SaveLayersDialog.java:133 | the new state is Populated on the given entries |
| LayersModel.SaveLayersModel.SetMode | src/org/openstreetmap/josm/gui/io/SaveLayersDialog.java:689 | the mode is set and the change is logged; nothing else changes |
| LayersModel.SaveLayersModel.SetUploadState | src/org/openstreetmap/josm/gui/io/SaveLayersDialog.java:559 | only that layer's upload slot changes, and the write is logged |
| LayersModel.SaveLayersModel.SetSaveState | src/org/openstreetmap/josm/gui/io/SaveLayersDialog.java:626 | only that layer's save slot changes, and the write is logged |
| LayersModel.SaveLayersModel.ClearSaveCheck | src/org/openstreetmap/josm/gui/io/SaveLayersDialog.java:634 | only that layer's pending save check is cleared |
| UploadSavePipeline.UploadItem | src/org/openstreetmap/josm/gui/io/SaveLayersDialog.java:556-620 | one upload item writes that layer's upload slot to UploadResult; it submits a job iff the task is not canceled and the checks, the upload dialog and the task factory all let it through; every new event is about this layer's upload; nothing else changes |
| UploadSavePipeline.UploadHandler | src/org/openstreetmap/josm/gui/io/SaveLayersDialog.java:596-611 | the catch clauses: a returned future writes nothing; a CancellationException writes CANCELED, the other two exceptions FAILED, each as one notification about that layer; nothing else changes |
| UploadSavePipeline.PressCancel | src/org/openstreetmap/josm/gui/io/SaveLayersDialog.java:232-237 | a Cancel press during a run sets the canceled flag and one EDITING_DATA notification, and changes no slot, check or job |
| UploadSavePipeline.UploadPhase | src/org/openstreetmap/josm/gui/io/SaveLayersDialog.java:555-573 | uploadLayers as a left fold of UploadItem over the list, with the press before its item; its properties are the UploadPhase… lemmas below |
| UploadSavePipeline.UploadPhaseFrame | src/org/openstreetmap/josm/gui/io/SaveLayersDialog.java:555-573 | the upload phase changes no save slot, no save check and no entry; it is canceled iff canceled before or Cancel was pressed before its end; it logs only upload events (and EDITING_DATA on a press); it submits only upload jobs for listed layers |
| UploadSavePipeline.CanceledUploadPhase | src/org/openstreetmap/josm/gui/io/SaveLayersDialog.java:557-560 | once canceled, every remaining layer becomes CANCELED and nothing is submitted |
| UploadSavePipeline.UploadPhaseStates | src/org/openstreetmap/josm/gui/io/SaveLayersDialog.java:555-620 | every listed layer ends in the upload result for its own answers and for whether Cancel came before it; other layers are untouched |
| UploadSavePipeline.UploadPhaseJobs | src/org/openstreetmap/josm/gui/io/SaveLayersDialog.java:555-600 | the upload job of a listed layer is submitted iff its checks pass before Cancel |
| UploadSavePipeline.UploadPhaseJobOrder | src/org/openstreetmap/josm/gui/io/SaveLayersDialog.java:555-595 | the upload phase appends exactly Chosen of its per-layer decisions: the jobs of the layers whose upload goes ahead, in list order |
| UploadSavePipeline.UploadEventOrder | src/org/openstreetmap/josm/gui/io/SaveLayersDialog.java:555-620 | every upload notification is about a listed layer, and a later one is never about an earlier layer of the list |
| UploadSavePipeline.SaveItem | src/org/openstreetmap/josm/gui/io/SaveLayersDialog.java:624-662 | one save item: CANCELED when canceled; no change when a pending check fails; otherwise the check is cleared, a job is submitted and the slot comes from the task's outcome |
| UploadSavePipeline.SaveHandler | src/org/openstreetmap/josm/gui/io/SaveLayersDialog.java:639-649 | the catch clauses of a save: a returned future writes nothing; a CancellationException writes CANCELED, the other two FAILED, as one notification about that layer |
| UploadSavePipeline.SavePhase | src/org/openstreetmap/josm/gui/io/SaveLayersDialog.java:623-664 | saveLayers as a left fold of SaveItem over the list; its properties are the SavePhase… lemmas below |
| UploadSavePipeline.SavePhaseFrame | src/org/openstreetmap/josm/gui/io/SaveLayersDialog.java:623-664 | the save phase changes no upload slot, no entry, not the mode and not the canceled flag; it only clears save checks; it logs only save events; it submits only save jobs for listed layers |
| UploadSavePipeline.CanceledSavePhase | src/org/openstreetmap/josm/gui/io/SaveLayersDialog.java:625-628 | once canceled, every listed layer becomes CANCELED, no check is cleared and nothing is submitted |
| UploadSavePipeline.SavePhaseSaves | src/org/openstreetmap/josm/gui/io/SaveLayersDialog.java:623-664 | every listed layer's save slot ends as its own save result written over the old one; other slots are untouched |
| UploadSavePipeline.SavePhaseChecks | src/org/openstreetmap/josm/gui/io/SaveLayersDialog.java:629-635 | a layer's check stays pending iff it was pending and that layer's save did not go ahead |
| UploadSavePipeline.SavePhaseJobs | src/org/openstreetmap/josm/gui/io/SaveLayersDialog.java:636-637 | the save job of a listed layer is submitted iff its save goes ahead |
| UploadSavePipeline.SavePhaseJobOrder | src/org/openstreetmap/josm/gui/io/SaveLayersDialog.java:623-637 | over distinct layers the save phase appends exactly the jobs of the layers whose save goes ahead, in list order |
| UploadSavePipeline.SaveEventOrder | src/org/openstreetmap/josm/gui/io/SaveLayersDialog.java:623-664 | every save notification is about a listed layer, and a later one is never about an earlier layer of the list |
| UploadSavePipeline.SavePhaseStates | src/org/openstreetmap/josm/gui/io/SaveLayersDialog.java:623-664 | the save slot, the pending check and the submission of every layer after the phase, each decided by that layer's own answers |
| UploadSavePipeline.SaveCheckedOnce | src/org/openstreetmap/josm/gui/io/SaveLayersDialog.java:629-635 | a layer whose check already passed is never checked again: the phase does not depend on what that check would answer |
| UploadSavePipeline.SaveCheckOutcome | src/org/openstreetmap/josm/gui/io/SaveLayersDialog.java:630-634 | a failing pending check changes nothing; a passing one clears the check and submits one job |
| UploadSavePipeline.ChosenLayers | src/org/openstreetmap/josm/gui/io/SaveLayersDialog.java:556 | every job chosen from a list is of its phase and for a layer of the list |
| UploadSavePipeline.ChosenMembers | src/org/openstreetmap/josm/gui/io/SaveLayersDialog.java:556 | over distinct layers, a layer's job is chosen exactly when it is decided for |
| UploadSavePipeline.ChosenInOrder | src/org/openstreetmap/josm/gui/io/SaveLayersDialog.java:556 | over distinct layers, the chosen jobs follow the list order and none is chosen twice |
| UploadSaveRun.FinishFrame | src/org/openstreetmap/josm/gui/io/SaveLayersDialog.java:698-711 | finalization sets EDITING_DATA once or twice and changes no state slot, check, flag or job |
| UploadSaveRun.Warning | src/org/openstreetmap/josm/gui/io/SaveLayersDialog.java:666-669 | the warning is present iff numCancel + numFailed is not 0, and then carries that sum |
| UploadSaveRun.AfterUploads | src/org/openstreetmap/josm/gui/io/SaveLayersDialog.java:689-694 | the run up to the save block: the mode set, the upload phase on the listed layers, and a press after the last upload; its properties are AfterUploadsFrame and the Run… lemmas |
| UploadSaveRun.Finish | src/org/openstreetmap/josm/gui/io/SaveLayersDialog.java:695-711 | the block after the saves: EDITING_DATA, then PROCEED and close, or the warning, EDITING_DATA again and, if canceled, CANCEL and close; its properties are FinishFrame and RunDecision |
| UploadSaveRun.Run | src/org/openstreetmap/josm/gui/io/SaveLayersDialog.java:688-714 | run() on values: AfterUploads, the save phase, Finish; its properties are the Run… lemmas |
| UploadSaveRun.AfterUploadsFrame | src/org/openstreetmap/josm/gui/io/SaveLayersDialog.java:689-694 | before the saves the run has logged UPLOADING_AND_SAVING and then only upload events; it is canceled iff Cancel was pressed; it has submitted only upload jobs |
| UploadSaveRun.RunOrdering | src/org/openstreetmap/josm/gui/io/SaveLayersDialog.java:688-714 | a run logs UPLOADING_AND_SAVING first and EDITING_DATA last; it sets no other mode in between; no upload state follows a save state |
| UploadSaveRun.HistoryInOrder | src/org/openstreetmap/josm/gui/io/SaveLayersDialog.java:689-703 | the event log of mode set, uploads, saves and final modes has the run's ordering |
| UploadSaveRun.RunSubmitOrder | src/org/openstreetmap/josm/gui/io/SaveLayersDialog.java:688-697 | no upload job reaches the worker after a save job |
| UploadSaveRun.RunStates | src/org/openstreetmap/josm/gui/io/SaveLayersDialog.java:688-714 | the final upload and save slots and pending checks of every layer, in terms of its own answers and the Cancel press; layers not listed are untouched |
| UploadSaveRun.RunUploadJobs | src/org/openstreetmap/josm/gui/io/SaveLayersDialog.java:555-600 | a layer's upload job is submitted iff its checks pass before Cancel |
| UploadSaveRun.RunSaveJobs | src/org/openstreetmap/josm/gui/io/SaveLayersDialog.java:623-664 | a layer's save job is submitted iff there was no Cancel and its save check passed or was already done |
| UploadSaveRun.RunJobLayers | src/org/openstreetmap/josm/gui/io/SaveLayersDialog.java:690-697 | every job is an upload of a layer to upload or a save of a layer to save |
| UploadSaveRun.RunJobs | src/org/openstreetmap/josm/gui/io/SaveLayersDialog.java:688-714 | the three job facts together |
| UploadSaveRun.RunJobOrder | src/org/openstreetmap/josm/gui/io/SaveLayersDialog.java:688-697 | the worker gets the run's upload jobs in upload-list order, then its save jobs in save-list order, and no job twice |
| UploadSaveRun.JoinDistinct | src/org/openstreetmap/josm/gui/io/SaveLayersDialog.java:690-697 | upload jobs and save jobs without repeats join without repeats |
| UploadSaveRun.RunActionsEnabled | src/org/openstreetmap/josm/gui/io/SaveLayersDialog.java:523-533 | during the upload phase the save/proceed action stays disabled unless Cancel was pressed, which returns the mode to EDITING_DATA; after the run it is enabled again |
| UploadSaveRun.RunWarning | src/org/openstreetmap/josm/gui/io/SaveLayersDialog.java:666-669 | for a consistent table with distinct ids, the warning appears iff numCancel + numFailed > 0 and carries that number |
| UploadSaveRun.RunDecision | src/org/openstreetmap/josm/gui/io/SaveLayersDialog.java:698-711 | PROCEED and closed when no unsaved data is left; with unsaved data, CANCEL and closed after a press, or the dialog open with its action unchanged; when the action before the run was CANCEL, PROCEED holds exactly when no unsaved data is left; the table stays consistent; the warning as in RunWarning |
| RunScenarios.CancelBeforeAnyUpload | src/org/openstreetmap/josm/gui/io/SaveLayersDialog.java:557-560 | Cancel before the first item makes every listed slot CANCELED, submits no job and leaves every check pending |
| RunScenarios.CancelBeforeAnyUploadCloses | src/org/openstreetmap/josm/gui/io/SaveLayersDialog.java:700-707 | and then the dialog closes with CANCEL after a warning |
| RunScenarios.AllSucceed | src/org/openstreetmap/josm/gui/io/SaveLayersDialog.java:708-711 | when every check passes and every task returns cleanly, all jobs are submitted, nothing is unsaved, there is no warning, and the dialog closes with PROCEED |
| RunScenarios.FailedSaveCheckIsSilent | src/org/openstreetmap/josm/gui/io/SaveLayersDialog.java:630-633 | a failed save check leaves its layer unsaved with no state and no job; the dialog stays open and no warning is shown |
| RunScenarios.QuietRunModes | src/org/openstreetmap/josm/gui/io/SaveLayersDialog.java:689-700 | a run without a press that leaves nothing unsaved sets exactly UPLOADING_AND_SAVING, then EDITING_DATA |
| RunScenarios.ThreeLayersAllOk | src/org/openstreetmap/josm/gui/io/SaveLayersDialog.java:688-714 | with three layers (upload, save, both) and clean answers, the final maps, the mode sequence and PROCEED are as expected |
| RunScenarios.TwoSavesCanceled | src/org/openstreetmap/josm/gui/io/SaveLayersDialog.java:625-628 | Cancel before a run of two saves gives two CANCELED slots, no jobs, a warning of 2 and CANCEL |
| Dialog.UnsavedLayers | src/org/openstreetmap/josm/gui/io/SaveLayersDialog.java:121-131 | a layer is collected iff it is selected, modifiable, modified, and savable-to-file or uploadable-and-not-discouraged |
| Dialog.SaveUnsavedModifications | src/org/openstreetmap/josm/gui/io/SaveLayersDialog.java:116-145 | headless: proceed and nothing shown; otherwise the dialog shows exactly the collected layers; the result is proceed iff headless, nothing was collected, or the user chose PROCEED |
| Dialog.ConfirmSaveLayerInfosOK | src/org/openstreetmap/josm/gui/io/SaveLayersDialog.java:324-344 | launch iff all three lists are empty; otherwise the first non-empty list, in the order conflicts, missing files, illegal files, is warned about |
| Dialog.GateOkIffNoBlockedEntry | src/org/openstreetmap/josm/gui/io/SaveLayersDialog.java:324-344 | launch iff no entry asks for upload with conflicts or for save without a writable file |
| Dialog.SaveAndProceedEnabled | src/org/openstreetmap/josm/gui/io/SaveLayersDialog.java:726-731 | the save button is enabled iff some entry asks for upload or save |
| Dialog.SaveAndUploadTask.constructor | src/org/openstreetmap/josm/gui/io/SaveLayersDialog.java:549-553 | a new task is not canceled and has no current task and no jobs |
| Dialog.SaveAndUploadTask.Cancel | src/org/openstreetmap/josm/gui/io/SaveLayersDialog.java:716-722 | sets canceled; forwards cancel to the current task iff there is one |
| Dialog.SaveAndUploadTask.UploadLayersUploadModelStateOnFinish | src/org/openstreetmap/josm/gui/io/SaveLayersDialog.java:579-621 | the new task and table state are UploadItem of the old ones |
| Dialog.SaveAndUploadTask.UploadLayer | src/org/openstreetmap/josm/gui/io/SaveLayersDialog.java:556-572 | one iteration of uploadLayers yields UploadItem of the old state and leaves currentTask null |
| Dialog.SaveAndUploadTask.UploadLayers | src/org/openstreetmap/josm/gui/io/SaveLayersDialog.java:555-573 | the loop, with the Cancel press dispatched through the dialog, yields UploadPhase of the old state; currentTask is null at the end |
| Dialog.SaveAndUploadTask.SaveLayer | src/org/openstreetmap/josm/gui/io/SaveLayersDialog.java:624-662 | one iteration of saveLayers yields SaveItem of the old state |
| Dialog.SaveAndUploadTask.SaveLayers | src/org/openstreetmap/josm/gui/io/SaveLayersDialog.java:623-664 | the loop yields SavePhase of the old state |
| Dialog.SaveAndUploadTask.WarnBecauseOfUnsavedData | src/org/openstreetmap/josm/gui/io/SaveLayersDialog.java:666-685 | a warning with numCancel + numFailed is shown iff that sum is not 0 |
| Dialog.SaveAndUploadTask.SaveAndFinish | src/org/openstreetmap/josm/gui/io/SaveLayersDialog.java:695-712 | the event-thread block yields Finish of SavePhase of the old state |
| Dialog.SaveAndUploadTask.Run | src/org/openstreetmap/josm/gui/io/SaveLayersDialog.java:688-714 | table, flag, jobs, warning, action and closing equal the value-level Run, so the Run lemmas hold of the method |
| Dialog.SaveLayersDialog.constructor | src/org/openstreetmap/josm/gui/io/SaveLayersDialog.java:95-96 | a new dialog has an empty model, action CANCEL and no task |
| Dialog.SaveLayersDialog.SetUserAction | src/org/openstreetmap/josm/gui/io/SaveLayersDialog.java:346-348 | only the action changes |
| Dialog.SaveLayersDialog.CloseDialog | src/org/openstreetmap/josm/gui/io/SaveLayersDialog.java:353-357 | the dialog is closed; the action is kept |
| Dialog.SaveLayersDialog.CancelSafeAndUploadTask | src/org/openstreetmap/josm/gui/io/SaveLayersDialog.java:232-237 | the task, if any, is canceled; the mode becomes EDITING_DATA |
| Dialog.SaveLayersDialog.Cancel | src/org/openstreetmap/josm/gui/io/SaveLayersDialog.java:374-386 | in EDITING_DATA: action CANCEL, closed, table unchanged; while uploading/saving: the task is canceled and the mode goes back, with action and closing unchanged |
| Dialog.SaveLayersDialog.SaveAndProceed | src/org/openstreetmap/josm/gui/io/SaveLayersDialog.java:516-520 | a gate veto changes nothing; otherwise a fresh task's run decides table, action, closing and warning as the value-level Run |

## Left out

- Swing presentation is not modelled: windows, the progress monitor and
  renderer, warning dialogs (their text and their lists are the `Gate`
  payload or the warning count), icons and their drawing, and logging.
- `explainException`, `rememberUserInput` and `prepareForSavingAndUpdatingLayers`
  are not modelled, because they only present or record information.
  `DiscardAndProceedAction`, `SaveSessionButtonAction`, the dialog's layout
  code and `WindowClosingAdapter` are not modelled either; the adapter only
  calls `cancel`.
- Threading is not modelled. `launchSafeAndUploadTask` (lines 225-230)
  starts the task on a new thread. `Dialog.SaveLayersDialog.SaveAndProceed`
  runs it to its end synchronously instead. The event-thread interleaving
  is reduced to presses between upload items or between the phases (see
  above).
- The user presses Cancel at most once per run. A press during the save
  phase is processed after the run, when the dialog is in EDITING_DATA, and
  then `Dialog.SaveLayersDialog.Cancel`'s editing branch applies.
- Cancellation of a task already running is seen only through its outcome,
  which is an input. At the points where the model lets a press arrive
  `currentTask` is null, so `cancelForwarded` never grows during a run.
- Three windows in which the source can take a Cancel press are not
  modelled:
  - a press before the block at line 689 runs, while the mode is still
    EDITING_DATA. It takes the branch at line 381: the action becomes CANCEL
    and the dialog closes, but `canceled` stays false. The run then carries
    on and may set PROCEED at line 709.
  - a press while the task thread runs lines 562-568 outside the event
    thread, after the `canceled` test at line 558. It sets `canceled` and
    shuts the worker down (line 720), yet the item carries on and submits
    its task at line 595 to a worker that is shut down. The model excludes
    this by requiring `!canceled` in
    `Dialog.SaveAndUploadTask.UploadLayersUploadModelStateOnFinish`.
  - a press between the return from line 570 and line 571, when
    `currentTask` still holds the finished task. The press would forward
    its cancel to that task.
- The worker's `shutdown`/`shutdownNow`, `Thread.interrupt`, and waiting on
  futures are not modelled. The worker is a list of submitted jobs, and the
  outcome of each job is an input.
- `SaveLayersModel` and `SaveLayerInfo` are not part of this model. They
  are modelled with these assumed semantics:
  - the lists to upload and to save are the entries with the upload or save
    flag, in table order; whether an entry is listed does not depend on a
    pending upload or save status;
  - the three gate lists come from the flags, the conflict flag and the file
    status;
  - `hasUnsavedData` means some flagged slot is not OK;
  - `numCancel`/`numFailed` count the entries with either slot CANCELED or
    FAILED.
- LayersModel.SaveLayersModel.SetMode: every call is logged. A real
  property change fires only when the value changes.
- Running headless and the user's answer in the shown dialog are inputs of
  `Dialog.SaveUnsavedModifications`.
- The lemmas about a whole run (RunStates, RunJobs, RunJobOrder, RunWarning,
  RunDecision and the scenarios) and the per-layer lemmas of the phases
  require distinct layer ids, as the table has one row
  per layer.
- The lemmas RunWarning, RunDecision, CancelBeforeAnyUploadCloses and
  AllSucceed also require a consistent table: a state is written only to a
  slot whose upload or save flag is set. Populate establishes this
  (LayersModel.Populated), and every run preserves it (RunKeepsConsistent).
  Editing a row's flags between runs, which `SaveLayersModel`'s table
  editing allows, is not modelled. Such an edit can leave a stale state in
  an unflagged slot, which the counts see but `hasUnsavedData` does not.
- RunScenarios.CancelBeforeAnyUpload: states "no job is submitted" as
  "every job is absent from the submitted list".
