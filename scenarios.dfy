/** Whole runs in particular situations: Cancel before the first upload,
    every operation succeeding, and a save whose preconditions fail. */
module RunScenarios {
  import opened SaveLayerTypes
  import opened LayersModel
  import opened UploadSavePipeline
  import opened UploadSaveRun

  /** An upload answer that ends with the layer uploaded: the pre-upload
      check passes, the upload dialog is not canceled, a task is made and
      the task reports neither cancellation nor failure (however its
      future ended). */
  predicate UploadGoesThrough(a: UploadAnswer)
  {
    a.preUploadOk && a.dialog != DialogCanceled && a.task.Some? &&
    !a.task.value.isCanceled && !a.task.value.isFailed
  }

  /** A save answer that ends with the layer saved. */
  predicate SaveGoesThrough(a: SaveAnswer)
  {
    a.saveConditionsOk && !a.task.isCanceled && !a.task.isFailed
  }

  /** Cancel before the first upload: nothing reaches the worker, no save
      check runs and every slot asked for ends CANCELED. */
  lemma {:induction false} CancelBeforeAnyUpload(s0: Store, action0: UserAction, closed0: bool,
                                                 up: LayerId -> UploadAnswer, sv: LayerId -> SaveAnswer)
    requires Distinct(Ids(s0.entries))
    ensures var r := Run(s0, action0, closed0, up, sv, PressBefore(0));
      && (forall job :: job !in r.submitted)
      && r.store.checkPending == s0.checkPending
      && (forall id :: id in s0.LayersToUpload() ==> Get(r.store.upload, id) == Some(Canceled))
      && (forall id :: id in s0.LayersToSave() ==> Get(r.store.save, id) == Some(Canceled))
  {
    var press := PressBefore(0);
    var r := Run(s0, action0, closed0, up, sv, press);
    RunStates(s0, action0, closed0, up, sv, press);
    RunJobs(s0, action0, closed0, up, sv, press);
    var toUpload, toSave := s0.LayersToUpload(), s0.LayersToSave();
    forall id | id in toUpload ensures Get(r.store.upload, id) == Some(Canceled) {
      var j :| 0 <= j < |toUpload| && toUpload[j] == id;
    }
    forall id | id in toSave ensures Get(r.store.save, id) == Some(Canceled) {
      var j :| 0 <= j < |toSave| && toSave[j] == id;
    }
    forall id ensures id in r.store.checkPending <==> id in s0.checkPending {
      if id in toSave {
        var j :| 0 <= j < |toSave| && toSave[j] == id;
      }
    }
    forall job ensures job !in r.submitted {
      if job.phase == Upload && job.layer in toUpload {
        var j :| 0 <= j < |toUpload| && toUpload[j] == job.layer;
      }
      if job.phase == Save && job.layer in toSave {
        var j :| 0 <= j < |toSave| && toSave[j] == job.layer;
      }
    }
  }

  /** Cancel before the first upload of a run that has anything to do:
      the dialog closes with CANCEL and warns. */
  lemma {:induction false} CancelBeforeAnyUploadCloses(s0: Store, action0: UserAction, closed0: bool,
                                                       up: LayerId -> UploadAnswer, sv: LayerId -> SaveAnswer)
    requires Distinct(Ids(s0.entries)) && s0.Consistent()
    requires s0.LayersToUpload() != [] || s0.LayersToSave() != []
    ensures var r := Run(s0, action0, closed0, up, sv, PressBefore(0));
      r.action == Cancel && r.closed && r.warning.Some?
  {
    var press := PressBefore(0);
    var r := Run(s0, action0, closed0, up, sv, press);
    CancelBeforeAnyUpload(s0, action0, closed0, up, sv);
    RunStates(s0, action0, closed0, up, sv, press);
    RunDecision(s0, action0, closed0, up, sv, press);
    var es := s0.entries;
    var i :| 0 <= i < |es| && (es[i].doUpload || es[i].doSave);
    assert r.store.HasState(es[i], Canceled) by {
      if es[i].doUpload {
        assert es[i].id in s0.LayersToUpload();
      } else {
        assert es[i].id in s0.LayersToSave();
      }
    }
    assert r.store.Unsaved(es[i]);
    CountZeroIff(r.store, r.store.entries, Canceled);
  }

  /** Every upload and save goes through and Cancel is not pressed: every
      layer reaches the worker, nothing is left unsaved, no warning appears
      and the dialog closes with PROCEED. */
  lemma {:induction false} AllSucceed(s0: Store, action0: UserAction, closed0: bool,
                                      up: LayerId -> UploadAnswer, sv: LayerId -> SaveAnswer)
    requires Distinct(Ids(s0.entries)) && s0.Consistent()
    requires forall id :: id in s0.LayersToUpload() ==> UploadGoesThrough(up(id))
    requires forall id :: id in s0.LayersToSave() ==> SaveGoesThrough(sv(id))
    ensures var r := Run(s0, action0, closed0, up, sv, NoPress);
      && !r.store.HasUnsavedData()
      && r.action == Proceed && r.closed && r.warning == None && !r.canceled
      && (forall id :: id in s0.LayersToUpload() ==> Job(Upload, id) in r.submitted)
      && (forall id :: id in s0.LayersToSave() ==> Job(Save, id) in r.submitted)
  {
    var r := Run(s0, action0, closed0, up, sv, NoPress);
    AllSucceedStates(s0, action0, closed0, up, sv);
    AllSucceedJobs(s0, action0, closed0, up, sv);
    RunDecision(s0, action0, closed0, up, sv, NoPress);
    var es := r.store.entries;
    forall i | 0 <= i < |es| ensures !r.store.Unsaved(es[i]) {
      if es[i].doUpload {
        assert es[i].id in s0.LayersToUpload();
      }
      if es[i].doSave {
        assert es[i].id in s0.LayersToSave();
      }
    }
  }

  lemma {:induction false} AllSucceedStates(s0: Store, action0: UserAction, closed0: bool,
                                            up: LayerId -> UploadAnswer, sv: LayerId -> SaveAnswer)
    requires Distinct(Ids(s0.entries))
    requires forall id :: id in s0.LayersToUpload() ==> UploadGoesThrough(up(id))
    requires forall id :: id in s0.LayersToSave() ==> SaveGoesThrough(sv(id))
    ensures var r := Run(s0, action0, closed0, up, sv, NoPress);
      && r.store.entries == s0.entries && !r.canceled
      && (forall id :: id in s0.LayersToUpload() ==> Get(r.store.upload, id) == Some(Ok))
      && (forall id :: id in s0.LayersToSave() ==> Get(r.store.save, id) == Some(Ok))
  {
    var r := Run(s0, action0, closed0, up, sv, NoPress);
    RunStates(s0, action0, closed0, up, sv, NoPress);
    var toUpload, toSave := s0.LayersToUpload(), s0.LayersToSave();
    forall id | id in toUpload ensures Get(r.store.upload, id) == Some(Ok) {
      var j :| 0 <= j < |toUpload| && toUpload[j] == id;
    }
    forall id | id in toSave ensures Get(r.store.save, id) == Some(Ok) {
      var j :| 0 <= j < |toSave| && toSave[j] == id;
    }
  }

  lemma {:induction false} AllSucceedJobs(s0: Store, action0: UserAction, closed0: bool,
                                          up: LayerId -> UploadAnswer, sv: LayerId -> SaveAnswer)
    requires Distinct(Ids(s0.entries))
    requires forall id :: id in s0.LayersToUpload() ==> UploadGoesThrough(up(id))
    requires forall id :: id in s0.LayersToSave() ==> SaveGoesThrough(sv(id))
    ensures var r := Run(s0, action0, closed0, up, sv, NoPress);
      && (forall id :: id in s0.LayersToUpload() ==> Job(Upload, id) in r.submitted)
      && (forall id :: id in s0.LayersToSave() ==> Job(Save, id) in r.submitted)
  {
    var r := Run(s0, action0, closed0, up, sv, NoPress);
    RunUploadJobs(s0, action0, closed0, up, sv, NoPress);
    RunSaveJobs(s0, action0, closed0, up, sv, NoPress);
    var toUpload, toSave := s0.LayersToUpload(), s0.LayersToSave();
    forall id | id in toUpload ensures Job(Upload, id) in r.submitted {
      var j :| 0 <= j < |toUpload| && toUpload[j] == id;
    }
    forall id | id in toSave ensures Job(Save, id) in r.submitted {
      var j :| 0 <= j < |toSave| && toSave[j] == id;
    }
  }

  /** A layer to be saved whose save preconditions fail keeps its save slot
      unwritten: the table still has unsaved data, yet nothing counts as
      canceled or failed, so no warning appears and the dialog stays open
      with its action unchanged. */
  lemma FailedSaveCheckIsSilent(action0: UserAction, closed0: bool,
                                up: LayerId -> UploadAnswer, sv: LayerId -> SaveAnswer)
    requires !sv(7).saveConditionsOk
    ensures var r := Run(Populated([LayerEntry(7, false, true, false, Writable)], EditingData, []), action0, closed0, up, sv, NoPress);
      && r.store.HasUnsavedData()
      && 7 !in r.store.save
      && r.warning == None
      && r.action == action0 && r.closed == closed0
      && (forall job :: job !in r.submitted)
  {
    var es := [LayerEntry(7, false, true, false, Writable)];
    var s0 := Populated(es, EditingData, []);
    var r := Run(s0, action0, closed0, up, sv, NoPress);
    assert Ids(es) == [7];
    assert s0.LayersToUpload() == [] && s0.LayersToSave() == [7];
    RunStates(s0, action0, closed0, up, sv, NoPress);
    RunJobs(s0, action0, closed0, up, sv, NoPress);
    RunDecision(s0, action0, closed0, up, sv, NoPress);
    assert Get(r.store.save, 7) == None;
    assert r.store.Unsaved(r.store.entries[0]);
    assert r.store.CountState(r.store.entries, Canceled) == 0 by {
      assert r.store.entries[1..] == [];
    }
    assert r.store.CountState(r.store.entries, Failed) == 0 by {
      assert r.store.entries[1..] == [];
    }
  }

  /** The mode a notification sets, if it sets one. */
  function ModeOf(e: Event): seq<Mode>
  {
    if e.ModeSet? then [e.mode] else []
  }

  /** The modes a sequence of notifications sets, in order. */
  function Modes(h: seq<Event>): seq<Mode>
  {
    if h == [] then [] else ModeOf(h[0]) + Modes(h[1..])
  }

  lemma {:induction false} ModesAppend(a: seq<Event>, b: seq<Event>)
    ensures Modes(a + b) == Modes(a) + Modes(b)
  {
    if a == [] {
      assert a + b == b;
    } else {
      var ab := a + b;
      assert ab[0] == a[0];
      assert ab[1..] == a[1..] + b;
      ModesAppend(a[1..], b);
      assert Modes(ab) == ModeOf(a[0]) + Modes(ab[1..]);
    }
  }

  lemma {:induction false} ModesOfStateEvents(h: seq<Event>)
    requires forall k :: 0 <= k < |h| ==> !h[k].ModeSet?
    ensures Modes(h) == []
  {
    if h != [] {
      assert forall k :: 0 <= k < |h[1..]| ==> h[1..][k] == h[k + 1];
      ModesOfStateEvents(h[1..]);
    }
  }

  /** Finalization with nothing unsaved sets EDITING_DATA once. */
  lemma FinishQuiet(p2: Progress, action0: UserAction, closed0: bool)
    requires !Finish(p2, action0, closed0).store.HasUnsavedData()
    ensures Finish(p2, action0, closed0).store.history == p2.store.history + [ModeSet(EditingData)]
  {
    var s3 := p2.store.Apply(ModeSet(EditingData));
    UnsavedSameStates(s3, Finish(p2, action0, closed0).store);
  }

  /** The modes of a run's notifications: the two mode changes around
      state notifications only. */
  lemma {:induction false} ModesAround(h0: seq<Event>, u: seq<Event>, v: seq<Event>)
    requires forall k :: 0 <= k < |u| ==> u[k].UploadStateSet?
    requires SaveEventsOnly(v)
    ensures Modes((h0 + [ModeSet(UploadingAndSaving)] + u + v + [ModeSet(EditingData)])[|h0|..]) == [UploadingAndSaving, EditingData]
  {
    assert (h0 + [ModeSet(UploadingAndSaving)] + u + v + [ModeSet(EditingData)])[|h0|..] ==
      [ModeSet(UploadingAndSaving)] + (u + (v + [ModeSet(EditingData)]));
    ModesOfStateEvents(u);
    ModesOfStateEvents(v);
    ModesAppend(v, [ModeSet(EditingData)]);
    ModesAppend(u, v + [ModeSet(EditingData)]);
    ModesAppend([ModeSet(UploadingAndSaving)], u + (v + [ModeSet(EditingData)]));
  }

  /** A run without a Cancel press that leaves nothing unsaved sets exactly
      two modes: UPLOADING_AND_SAVING, then EDITING_DATA. */
  lemma {:induction false} QuietRunModes(s0: Store, action0: UserAction, closed0: bool,
                                         up: LayerId -> UploadAnswer, sv: LayerId -> SaveAnswer)
    requires !Run(s0, action0, closed0, up, sv, NoPress).store.HasUnsavedData()
    ensures var h := Run(s0, action0, closed0, up, sv, NoPress).store.history;
      |s0.history| <= |h| && Modes(h[|s0.history|..]) == [UploadingAndSaving, EditingData]
  {
    var p1 := AfterUploads(s0, up, NoPress);
    AfterUploadsFrame(s0, up, NoPress);
    var toSave := p1.store.LayersToSave();
    SavePhaseFrame(p1, toSave, sv);
    var p2 := SavePhase(p1, toSave, sv);
    FinishQuiet(p2, action0, closed0);
    var h0, h1, h2 := s0.history, p1.store.history, p2.store.history;
    var u, v := h1[|h0| + 1..], h2[|h1|..];
    assert h1 == h0 + [ModeSet(UploadingAndSaving)] + u;
    assert h2 == h1 + v;
    forall k | 0 <= k < |u| ensures u[k].UploadStateSet? {
      assert u[k] == h1[|h0| + 1 + k];
    }
    ModesAround(h0, u, v);
  }

  /** Three layers (upload only, save only, both), every task succeeding:
      all slots end OK, the dialog closes with PROCEED without a warning,
      and the modes set are UPLOADING_AND_SAVING then EDITING_DATA. */
  lemma ThreeLayersAllOk(s0: Store, action0: UserAction, closed0: bool, up: LayerId -> UploadAnswer, sv: LayerId -> SaveAnswer)
    requires s0.entries == [LayerEntry(1, true, false, false, NoFile), LayerEntry(2, false, true, false, Writable),
                            LayerEntry(3, true, true, false, Writable)]
    requires s0.upload == map[] && s0.save == map[] && s0.history == []
    requires forall id :: up(id) == UploadAnswer(true, NoUploadDialog, Some(TaskOutcome(Returned, false, false)))
    requires forall id :: sv(id) == SaveAnswer(true, TaskOutcome(Returned, false, false))
    ensures var r := Run(s0, action0, closed0, up, sv, NoPress);
      && r.store.upload == map[1 := Ok, 3 := Ok]
      && r.store.save == map[2 := Ok, 3 := Ok]
      && r.warning == None && r.action == Proceed && r.closed
      && Modes(r.store.history) == [UploadingAndSaving, EditingData]
  {
    var r := Run(s0, action0, closed0, up, sv, NoPress);
    ThreeLayersLists(s0);
    AllSucceed(s0, action0, closed0, up, sv);
    QuietRunModes(s0, action0, closed0, up, sv);
    assert r.store.history[0..] == r.store.history;
    ThreeLayersStates(s0, action0, closed0, up, sv);
  }

  lemma ThreeLayersStates(s0: Store, action0: UserAction, closed0: bool, up: LayerId -> UploadAnswer, sv: LayerId -> SaveAnswer)
    requires s0.entries == [LayerEntry(1, true, false, false, NoFile), LayerEntry(2, false, true, false, Writable),
                            LayerEntry(3, true, true, false, Writable)]
    requires s0.upload == map[] && s0.save == map[]
    requires forall id :: up(id) == UploadAnswer(true, NoUploadDialog, Some(TaskOutcome(Returned, false, false)))
    requires forall id :: sv(id) == SaveAnswer(true, TaskOutcome(Returned, false, false))
    ensures var r := Run(s0, action0, closed0, up, sv, NoPress);
      r.store.upload == map[1 := Ok, 3 := Ok] && r.store.save == map[2 := Ok, 3 := Ok]
  {
    var r := Run(s0, action0, closed0, up, sv, NoPress);
    ThreeLayersLists(s0);
    RunStates(s0, action0, closed0, up, sv, NoPress);
    assert Get(r.store.upload, s0.LayersToUpload()[0]) == Some(Ok) && Get(r.store.upload, s0.LayersToUpload()[1]) == Some(Ok);
    assert Get(r.store.save, s0.LayersToSave()[0]) == Some(Ok) && Get(r.store.save, s0.LayersToSave()[1]) == Some(Ok);
    MapOfTwo(r.store.upload, s0.LayersToUpload(), Ok);
    MapOfTwo(r.store.save, s0.LayersToSave(), Ok);
  }

  /** A state map holding `v` for the two ids of `ids` and nothing else. */
  lemma MapOfTwo(m: map<LayerId, UploadOrSaveState>, ids: seq<LayerId>, v: UploadOrSaveState)
    requires |ids| == 2 && Get(m, ids[0]) == Some(v) && Get(m, ids[1]) == Some(v)
    requires forall id :: id !in ids ==> Get(m, id) == Get(map[], id)
    ensures m == map[ids[0] := v, ids[1] := v]
  {
    forall id ensures Get(m, id) == Get(map[ids[0] := v, ids[1] := v], id) {
      if id != ids[0] && id != ids[1] {
        assert id !in ids;
      }
    }
    GetExtensional(m, map[ids[0] := v, ids[1] := v]);
  }

  lemma ThreeLayersLists(s0: Store)
    requires s0.entries == [LayerEntry(1, true, false, false, NoFile), LayerEntry(2, false, true, false, Writable),
                            LayerEntry(3, true, true, false, Writable)]
    ensures Distinct(Ids(s0.entries)) && s0.LayersToUpload() == [1, 3] && s0.LayersToSave() == [2, 3]
  {
    var es := s0.entries;
    assert es[1..][1..][1..] == [];
    assert Ids(es[1..][1..]) == [3];
    assert Ids(es[1..]) == [2, 3];
    assert Ids(es) == [1, 2, 3];
    assert Select(es[1..][1..], WantsUpload) == [3] && Select(es[1..][1..], WantsSave) == [3];
    assert Select(es[1..], WantsUpload) == [3] && Select(es[1..], WantsSave) == [2, 3];
  }

  lemma GetExtensional(m: map<LayerId, UploadOrSaveState>, n: map<LayerId, UploadOrSaveState>)
    requires forall id :: Get(m, id) == Get(n, id)
    ensures m == n
  {
    assert forall id :: id in m <==> Get(m, id).Some?;
    assert forall id :: id in n <==> Get(n, id).Some?;
  }

  /** Two layers to be saved, Cancel pressed before anything is done: both
      saves end CANCELED, no task reaches the worker and the warning counts
      two problems. */
  lemma TwoSavesCanceled(s0: Store, action0: UserAction, closed0: bool, up: LayerId -> UploadAnswer, sv: LayerId -> SaveAnswer)
    requires s0.entries == [LayerEntry(1, false, true, false, Writable), LayerEntry(2, false, true, false, Writable)]
    requires s0.upload == map[] && s0.save == map[]
    ensures var r := Run(s0, action0, closed0, up, sv, PressBefore(0));
      && r.store.save == map[1 := Canceled, 2 := Canceled]
      && (forall job :: job !in r.submitted)
      && r.warning == Some(2) && r.action == Cancel && r.closed
  {
    TwoSavesLists(s0);
    CancelBeforeAnyUpload(s0, action0, closed0, up, sv);
    CancelBeforeAnyUploadCloses(s0, action0, closed0, up, sv);
    TwoSavesStates(s0, action0, closed0, up, sv);
    RunWarning(s0, action0, closed0, up, sv, PressBefore(0));
    TwoCanceledCount(Run(s0, action0, closed0, up, sv, PressBefore(0)).store);
  }

  lemma TwoSavesLists(s0: Store)
    requires s0.entries == [LayerEntry(1, false, true, false, Writable), LayerEntry(2, false, true, false, Writable)]
    ensures Distinct(Ids(s0.entries)) && s0.LayersToUpload() == [] && s0.LayersToSave() == [1, 2]
  {
    var es := s0.entries;
    assert es[1..][1..] == [];
    assert Ids(es[1..]) == [2];
    assert Ids(es) == [1, 2];
    assert Select(es[1..], WantsUpload) == [] && Select(es[1..], WantsSave) == [2];
  }

  lemma TwoSavesStates(s0: Store, action0: UserAction, closed0: bool, up: LayerId -> UploadAnswer, sv: LayerId -> SaveAnswer)
    requires s0.entries == [LayerEntry(1, false, true, false, Writable), LayerEntry(2, false, true, false, Writable)]
    requires s0.upload == map[] && s0.save == map[]
    ensures var r := Run(s0, action0, closed0, up, sv, PressBefore(0));
      r.store.entries == s0.entries && r.store.upload == map[] && r.store.save == map[1 := Canceled, 2 := Canceled]
  {
    var r := Run(s0, action0, closed0, up, sv, PressBefore(0));
    TwoSavesLists(s0);
    RunStates(s0, action0, closed0, up, sv, PressBefore(0));
    assert Get(r.store.save, s0.LayersToSave()[0]) == Some(Canceled) && Get(r.store.save, s0.LayersToSave()[1]) == Some(Canceled);
    MapOfTwo(r.store.save, s0.LayersToSave(), Canceled);
    GetExtensional(r.store.upload, map[]);
  }

  lemma TwoCanceledCount(t: Store)
    requires t.entries == [LayerEntry(1, false, true, false, Writable), LayerEntry(2, false, true, false, Writable)]
    requires t.upload == map[] && t.save == map[1 := Canceled, 2 := Canceled]
    ensures t.NumCancel() == 2 && t.NumFailed() == 0
  {
    var es := t.entries;
    assert es[1..] == [es[1]] && es[1..][1..] == [];
    assert t.CountState(es[1..], Canceled) == 1;
    assert t.CountState(es[1..], Failed) == 0;
  }
}
