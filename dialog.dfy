/** The dialog that pops up before layers with unsaved changes are
    destroyed: which layers it is shown for, the gate before it launches a
    run, the run itself (SaveAndUploadTask) and the Cancel action. */
module Dialog {
  import opened SaveLayerTypes
  import opened LayersModel
  import opened UploadSavePipeline
  import opened UploadSaveRun

  // ----------------------------------------------------------- layer filter

  /** What the filter reads of a layer. `modifiable` stands for being an
      AbstractModifiableLayer; the other fields are its query methods. */
  datatype Layer = Layer(
    id: LayerId,
    modifiable: bool,
    modified: bool,
    savable: bool,
    requiresSaveToFile: bool,
    uploadable: bool,
    requiresUploadToServer: bool,
    uploadDiscouraged: bool)

  /** A layer the dialog is shown for: modifiable, modified, and either to
      be saved to a file or to be uploaded without upload being discouraged. */
  predicate HasUnsavedChanges(l: Layer)
  {
    l.modifiable && l.modified &&
    ((l.savable && l.requiresSaveToFile) ||
     (l.uploadable && l.requiresUploadToServer && !l.uploadDiscouraged))
  }

  /** The layers of `ls` with unsaved changes, in their order. */
  function UnsavedLayers(ls: seq<Layer>): (r: seq<Layer>)
    ensures |r| <= |ls|
    ensures forall l :: l in r <==> l in ls && HasUnsavedChanges(l)
    decreases |ls|
  {
    if ls == [] then []
    else
      var rest := UnsavedLayers(ls[..|ls| - 1]);
      var last := ls[|ls| - 1];
      assert forall l :: l in ls <==> l in ls[..|ls| - 1] || l == last;
      if HasUnsavedChanges(last) then rest + [last] else rest
  }

  /** saveUnsavedModifications: whether the pending operation may go on, and
      the layers the dialog was populated with (none when it was not shown).
      `userDecision` is the action the user ends the shown dialog with. */
  method SaveUnsavedModifications(selected: seq<Layer>, headless: bool, userDecision: UserAction)
    returns (proceed: bool, shown: seq<Layer>)
    ensures headless ==> proceed && shown == []
    ensures !headless ==> shown == UnsavedLayers(selected)
    ensures forall l :: l in shown <==> !headless && l in selected && HasUnsavedChanges(l)
    ensures proceed <==> headless || shown == [] || userDecision == Proceed
  {
    shown := [];
    if headless {
      return true, shown;
    }
    var collected: seq<Layer> := [];
    for i := 0 to |selected|
      invariant collected == UnsavedLayers(selected[..i])
    {
      assert selected[..i + 1][..i] == selected[..i];
      var l := selected[i];
      if !l.modifiable {
        continue;
      }
      if l.modified && ((l.savable && l.requiresSaveToFile) ||
                        (l.uploadable && l.requiresUploadToServer && !l.uploadDiscouraged)) {
        collected := collected + [l];
      }
    }
    assert selected[..|selected|] == selected;
    if collected != [] {
      shown := collected;
      proceed := userDecision == Proceed;
      return;
    }
    proceed := true;
  }

  // ------------------------------------------------------- pre-launch gate

  /** The result of confirmSaveLayerInfosOK: launch, or the one list warned about. */
  datatype Gate =
    | LaunchOk
    | ConflictsWarned(layers: seq<LayerId>)
    | MissingFilesWarned(layers: seq<LayerId>)
    | IllegalFilesWarned(layers: seq<LayerId>)

  /** confirmSaveLayerInfosOK: the conflicts, missing-file and non-writable
      file lists are checked in this order; the first non-empty one is
      warned about and vetoes the launch. */
  function ConfirmSaveLayerInfosOK(s: Store): (g: Gate)
    ensures g == LaunchOk <==>
      s.LayersWithConflictsAndUploadRequest() == [] &&
      s.LayersWithoutFilesAndSaveRequest() == [] &&
      s.LayersWithIllegalFilesAndSaveRequest() == []
    ensures g.ConflictsWarned? ==> g.layers == s.LayersWithConflictsAndUploadRequest() != []
    ensures g.MissingFilesWarned? ==>
      s.LayersWithConflictsAndUploadRequest() == [] && g.layers == s.LayersWithoutFilesAndSaveRequest() != []
    ensures g.IllegalFilesWarned? ==>
      s.LayersWithConflictsAndUploadRequest() == [] && s.LayersWithoutFilesAndSaveRequest() == [] &&
      g.layers == s.LayersWithIllegalFilesAndSaveRequest() != []
  {
    var conflicts := s.LayersWithConflictsAndUploadRequest();
    if conflicts != [] then ConflictsWarned(conflicts)
    else
      var noFile := s.LayersWithoutFilesAndSaveRequest();
      if noFile != [] then MissingFilesWarned(noFile)
      else
        var illegal := s.LayersWithIllegalFilesAndSaveRequest();
        if illegal != [] then IllegalFilesWarned(illegal)
        else LaunchOk
  }

  /** The gate lets a run start exactly when no entry asks for an upload
      while it has conflicts, or for a save without a writable file. */
  lemma GateOkIffNoBlockedEntry(s: Store)
    ensures ConfirmSaveLayerInfosOK(s) == LaunchOk <==>
      forall i :: 0 <= i < |s.entries| ==>
        var e := s.entries[i];
        !(e.doUpload && e.hasConflicts) && !(e.doSave && e.file != Writable)
  {
    forall i | 0 <= i < |s.entries|
      ensures (s.entries[i].doSave && s.entries[i].file != Writable) <==>
        SaveWithoutFile(s.entries[i]) || SaveToIllegalFile(s.entries[i])
    {
    }
  }

  /** tableChanged: the Save/Upload button is enabled exactly when some
      entry asks for an upload or a save. */
  function SaveAndProceedEnabled(s: Store): (enabled: bool)
    ensures enabled <==> exists i :: 0 <= i < |s.entries| && (s.entries[i].doUpload || s.entries[i].doSave)
  {
    !(s.LayersToSave() == [] && s.LayersToUpload() == [])
  }

  // ------------------------------------------------------------ the classes

  /** SaveAndUploadTask: the run, its `canceled` flag and `currentTask`. The
      worker's queue is `submitted`; `cancelForwarded` lists the jobs whose
      task had its cancel() called. */
  class SaveAndUploadTask {
    const model: SaveLayersModel
    const dialog: SaveLayersDialog
    var canceled: bool
    var currentTask: Option<Job>
    var submitted: seq<Job>
    var cancelForwarded: seq<Job>

    /** The task and its table as the value the pipeline functions take. */
    function Snapshot(): Progress
      reads this, model
    {
      Progress(model.State(), canceled, submitted)
    }

    constructor (model: SaveLayersModel, dialog: SaveLayersDialog)
      ensures this.model == model && this.dialog == dialog
      ensures !canceled && currentTask == None && submitted == [] && cancelForwarded == []
    {
      this.model := model;
      this.dialog := dialog;
      canceled := false;
      currentTask := None;
      submitted := [];
      cancelForwarded := [];
    }

    /** cancel(): forwards to the current task, if any, and sets `canceled`. */
    method Cancel()
      modifies this
      ensures canceled
      ensures currentTask == old(currentTask) && submitted == old(submitted)
      ensures cancelForwarded == old(cancelForwarded) + (if old(currentTask).Some? then [old(currentTask).value] else [])
    {
      if currentTask.Some? {
        cancelForwarded := cancelForwarded + [currentTask.value];
      }
      canceled := true;
    }

    /** uploadLayersUploadModelStateOnFinish: the upload dialog, the task,
        the catch clauses and the final write from the task's own flags. */
    method UploadLayersUploadModelStateOnFinish(id: LayerId, a: UploadAnswer)
      requires !canceled && a.preUploadOk
      modifies this, model
      ensures Snapshot() == UploadItem(old(Snapshot()), id, a)
      ensures currentTask == (if a.dialog == DialogCanceled then old(currentTask)
                              else if a.task.Some? then Some(Job(Upload, id)) else None)
      ensures cancelForwarded == old(cancelForwarded)
    {
      if a.dialog == DialogCanceled {
        model.SetUploadState(id, Canceled);
        return;
      }
      if a.task.None? {
        currentTask := None;
        model.SetUploadState(id, Failed);
        return;
      }
      var t := a.task.value;
      currentTask := Some(Job(Upload, id));
      submitted := submitted + [Job(Upload, id)];
      match t.future {
        case Returned =>
        case CancellationThrown => model.SetUploadState(id, Canceled);
        case InterruptedThrown => model.SetUploadState(id, Failed);
        case ExecutionThrown => model.SetUploadState(id, Failed);
      }
      if t.isCanceled {
        model.SetUploadState(id, Canceled);
      } else if t.isFailed {
        model.SetUploadState(id, Failed);
      } else {
        model.SetUploadState(id, Ok);
      }
    }

    /** One iteration of uploadLayers: the canceled shortcut, the pre-upload
        check, then the upload itself; currentTask is reset afterwards. */
    method UploadLayer(id: LayerId, a: UploadAnswer)
      requires currentTask == None
      modifies this, model
      ensures Snapshot() == UploadItem(old(Snapshot()), id, a)
      ensures currentTask == None && cancelForwarded == old(cancelForwarded)
    {
      if canceled {
        model.SetUploadState(id, Canceled);
      } else if !a.preUploadOk {
        model.SetUploadState(id, Failed);
      } else {
        UploadLayersUploadModelStateOnFinish(id, a);
        currentTask := None;
      }
    }

    /** uploadLayers, with the user's Cancel press delivered before item
        `press.uploadsDone` (the points at which this model lets a press
        arrive; README's "## Left out" names the others). */
    method UploadLayers(toUpload: seq<LayerId>, up: LayerId -> UploadAnswer, press: CancelPress)
      requires dialog.model == model && dialog.saveAndUploadTask == this
      requires !canceled && currentTask == None && model.mode == UploadingAndSaving
      modifies this, model, dialog
      ensures Snapshot() == UploadPhase(old(Snapshot()), toUpload, up, press)
      ensures currentTask == None && cancelForwarded == old(cancelForwarded)
      ensures dialog.saveAndUploadTask == this
      ensures dialog.action == old(dialog.action) && dialog.closed == old(dialog.closed)
    {
      ghost var p0 := Snapshot();
      for i := 0 to |toUpload|
        invariant Snapshot() == UploadPhase(p0, toUpload[..i], up, press)
        invariant currentTask == None && cancelForwarded == old(cancelForwarded)
        invariant dialog.saveAndUploadTask == this
        invariant dialog.action == old(dialog.action) && dialog.closed == old(dialog.closed)
        invariant model.mode == (if press.PressBefore? && press.uploadsDone < i then EditingData else UploadingAndSaving)
      {
        UploadPhaseFrame(p0, toUpload[..i], up, press);
        ghost var q := Snapshot();
        assert toUpload[..i + 1][..i] == toUpload[..i];
        if press == PressBefore(i) {
          dialog.Cancel();
        }
        assert Snapshot() == PressAt(q, i, press);
        UploadLayer(toUpload[i], up(toUpload[i]));
        UploadPhaseFrame(p0, toUpload[..i + 1], up, press);
      }
      assert toUpload[..|toUpload|] == toUpload;
    }

    /** One iteration of saveLayers: the canceled shortcut, the one-shot
        save-condition check, the task, the catch clauses and the final
        write from the task's own flags. */
    method SaveLayer(id: LayerId, a: SaveAnswer)
      requires currentTask == None
      modifies this, model
      ensures Snapshot() == SaveItem(old(Snapshot()), id, a)
      ensures currentTask == None && cancelForwarded == old(cancelForwarded)
    {
      if canceled {
        model.SetSaveState(id, Canceled);
        return;
      }
      if id in model.checkPending {
        if !a.saveConditionsOk {
          return;
        }
        model.ClearSaveCheck(id);
      }
      var t := a.task;
      currentTask := Some(Job(Save, id));
      submitted := submitted + [Job(Save, id)];
      match t.future {
        case Returned =>
        case CancellationThrown => model.SetSaveState(id, Canceled);
        case InterruptedThrown => model.SetSaveState(id, Failed);
        case ExecutionThrown => model.SetSaveState(id, Failed);
      }
      if t.isCanceled {
        model.SetSaveState(id, Canceled);
      } else if t.isFailed {
        model.SetSaveState(id, Failed);
      } else {
        model.SetSaveState(id, Ok);
      }
      currentTask := None;
    }

    /** saveLayers: every layer of `toSave` in turn. */
    method SaveLayers(toSave: seq<LayerId>, sv: LayerId -> SaveAnswer)
      requires currentTask == None
      modifies this, model
      ensures Snapshot() == SavePhase(old(Snapshot()), toSave, sv)
      ensures currentTask == None && cancelForwarded == old(cancelForwarded)
    {
      ghost var p0 := Snapshot();
      for i := 0 to |toSave|
        invariant Snapshot() == SavePhase(p0, toSave[..i], sv)
        invariant currentTask == None && cancelForwarded == old(cancelForwarded)
      {
        assert toSave[..i + 1][..i] == toSave[..i];
        SaveLayer(toSave[i], sv(toSave[i]));
      }
      assert toSave[..|toSave|] == toSave;
    }

    /** warnBecauseOfUnsavedData: the problem count shown, if any. */
    method WarnBecauseOfUnsavedData() returns (warning: Option<nat>)
      ensures warning == Warning(model.State())
      ensures warning.Some? <==> model.State().NumCancel() + model.State().NumFailed() > 0
    {
      var numProblems := model.State().NumCancel() + model.State().NumFailed();
      if numProblems == 0 {
        return None;
      }
      warning := Some(numProblems);
    }

    /** The block run() hands to the event thread after the uploads: the
        save phase, EDITING_DATA, then the warning or the closing of the dialog. */
    method SaveAndFinish(sv: LayerId -> SaveAnswer) returns (warning: Option<nat>)
      requires dialog.saveAndUploadTask == this && currentTask == None
      modifies this, model, dialog
      ensures var r := Finish(SavePhase(old(Snapshot()), old(model.State()).LayersToSave(), sv), old(dialog.action), old(dialog.closed));
        && model.State() == r.store
        && canceled == r.canceled && submitted == r.submitted
        && warning == r.warning
        && dialog.action == r.action && dialog.closed == r.closed
      ensures currentTask == None && cancelForwarded == old(cancelForwarded)
      ensures dialog.saveAndUploadTask == this
    {
      var toSave := model.State().LayersToSave();
      if toSave != [] {
        SaveLayers(toSave, sv);
      }
      model.SetMode(EditingData);
      warning := None;
      if model.State().HasUnsavedData() {
        warning := WarnBecauseOfUnsavedData();
        model.SetMode(EditingData);
        if canceled {
          dialog.SetUserAction(UserAction.Cancel);
          dialog.CloseDialog();
        }
      } else {
        dialog.SetUserAction(Proceed);
        dialog.CloseDialog();
      }
    }

    /** run(), with the user's Cancel press at `press`; returns the warning shown. */
    method Run(up: LayerId -> UploadAnswer, sv: LayerId -> SaveAnswer, press: CancelPress)
      returns (warning: Option<nat>)
      requires dialog.model == model && dialog.saveAndUploadTask == this
      requires !canceled && currentTask == None && submitted == []
      modifies this, model, dialog
      ensures var r := UploadSaveRun.Run(old(model.State()), old(dialog.action), old(dialog.closed), up, sv, press);
        && model.State() == r.store
        && canceled == r.canceled && submitted == r.submitted
        && warning == r.warning
        && dialog.action == r.action && dialog.closed == r.closed
      ensures currentTask == None && cancelForwarded == old(cancelForwarded)
      ensures dialog.saveAndUploadTask == this
    {
      ghost var s0 := model.State();
      model.SetMode(UploadingAndSaving);
      var toUpload := model.State().LayersToUpload();
      if toUpload != [] {
        UploadLayers(toUpload, up, press);
      }
      UploadPhaseFrame(Progress(s0.Apply(ModeSet(UploadingAndSaving)), false, []), toUpload, up, press);
      if press.PressBefore? && press.uploadsDone >= |toUpload| {
        dialog.Cancel();
      }
      assert Snapshot() == AfterUploads(s0, up, press);
      warning := SaveAndFinish(sv);
    }
  }

  /** The dialog's state that the orchestration reads and writes. */
  class SaveLayersDialog {
    const model: SaveLayersModel
    var action: UserAction
    var closed: bool
    var saveAndUploadTask: SaveAndUploadTask?

    constructor ()
      ensures fresh(model) && model.State() == Store([], map[], map[], {}, EditingData, [])
      ensures action == UserAction.Cancel && !closed && saveAndUploadTask == null
    {
      model := new SaveLayersModel();
      action := UserAction.Cancel;
      closed := false;
      saveAndUploadTask := null;
    }

    method SetUserAction(a: UserAction)
      modifies this
      ensures action == a && closed == old(closed) && saveAndUploadTask == old(saveAndUploadTask)
    {
      action := a;
    }

    /** closeDialog, as far as the orchestration sees it. */
    method CloseDialog()
      modifies this
      ensures closed && action == old(action) && saveAndUploadTask == old(saveAndUploadTask)
    {
      closed := true;
    }

    /** cancelSafeAndUploadTask: cancel the running task, if any, and go
        back to EDITING_DATA. */
    method CancelSafeAndUploadTask()
      modifies model, saveAndUploadTask
      ensures model.State() == old(model.State()).Apply(ModeSet(EditingData))
      ensures saveAndUploadTask != null ==>
        && saveAndUploadTask.canceled
        && saveAndUploadTask.currentTask == old(saveAndUploadTask.currentTask)
        && saveAndUploadTask.submitted == old(saveAndUploadTask.submitted)
        && saveAndUploadTask.cancelForwarded == old(saveAndUploadTask.cancelForwarded) +
             (if old(saveAndUploadTask.currentTask).Some? then [old(saveAndUploadTask.currentTask).value] else [])
    {
      if saveAndUploadTask != null {
        saveAndUploadTask.Cancel();
      }
      model.SetMode(EditingData);
    }

    /** CancelAction.cancel: in EDITING_DATA the user cancels the operation
        and the dialog closes; while a run is busy, the run is canceled. */
    method Cancel()
      modifies this, model, saveAndUploadTask
      ensures saveAndUploadTask == old(saveAndUploadTask)
      ensures old(model.mode) == EditingData ==>
        && action == UserAction.Cancel && closed
        && model.State() == old(model.State())
        && (saveAndUploadTask != null ==> unchanged(saveAndUploadTask))
      ensures old(model.mode) == UploadingAndSaving ==>
        && action == old(action) && closed == old(closed)
        && model.State() == old(model.State()).Apply(ModeSet(EditingData))
        && (saveAndUploadTask != null ==>
              && saveAndUploadTask.canceled
              && saveAndUploadTask.currentTask == old(saveAndUploadTask.currentTask)
              && saveAndUploadTask.submitted == old(saveAndUploadTask.submitted)
              && saveAndUploadTask.cancelForwarded == old(saveAndUploadTask.cancelForwarded) +
                   (if old(saveAndUploadTask.currentTask).Some? then [old(saveAndUploadTask.currentTask).value] else []))
    {
      match model.mode {
        case EditingData =>
          SetUserAction(UserAction.Cancel);
          CloseDialog();
        case UploadingAndSaving =>
          CancelSafeAndUploadTask();
      }
    }

    /** SaveAndProceedAction.actionPerformed: the gate, then a fresh task is
        launched and runs to its end, with the user's Cancel press at `press`. */
    method SaveAndProceed(up: LayerId -> UploadAnswer, sv: LayerId -> SaveAnswer, press: CancelPress)
      returns (gate: Gate, warning: Option<nat>)
      modifies this, model
      ensures gate == ConfirmSaveLayerInfosOK(old(model.State()))
      ensures gate != LaunchOk ==> warning == None && unchanged(this) && model.State() == old(model.State())
      ensures gate == LaunchOk ==>
        var r := UploadSaveRun.Run(old(model.State()), old(action), old(closed), up, sv, press);
        && saveAndUploadTask != null && fresh(saveAndUploadTask)
        && model.State() == r.store && action == r.action && closed == r.closed && warning == r.warning
        && saveAndUploadTask.canceled == r.canceled && saveAndUploadTask.submitted == r.submitted
    {
      gate := ConfirmSaveLayerInfosOK(model.State());
      warning := None;
      if gate != LaunchOk {
        return;
      }
      var task := new SaveAndUploadTask(model, this);
      saveAndUploadTask := task;
      warning := task.Run(up, sv, press);
    }
  }
}
