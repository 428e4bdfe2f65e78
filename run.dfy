/** One run of SaveAndUploadTask as a function on values (mode change,
    upload phase, save phase, finalization), and what a run guarantees. */
module UploadSaveRun {
  import opened SaveLayerTypes
  import opened LayersModel
  import opened UploadSavePipeline

  /** Everything a run changes: the table, the task's flag and worker jobs,
      the warning shown (its problem count), the dialog's action and whether
      it was closed. */
  datatype RunResult = RunResult(
    store: Store,
    canceled: bool,
    submitted: seq<Job>,
    warning: Option<nat>,
    action: UserAction,
    closed: bool)

  /** warnBecauseOfUnsavedData: a warning with the number of problems, none if zero. */
  function Warning(s: Store): (w: Option<nat>)
    ensures w.Some? <==> s.NumCancel() + s.NumFailed() > 0
    ensures w.Some? ==> w.value == s.NumCancel() + s.NumFailed()
  {
    var n := s.NumCancel() + s.NumFailed();
    if n == 0 then None else Some(n)
  }

  /** The table and task after the mode change, the upload phase and a
      press that came after the last upload, if any. */
  function AfterUploads(s0: Store, up: LayerId -> UploadAnswer, press: CancelPress): Progress
  {
    var s1 := s0.Apply(ModeSet(UploadingAndSaving));
    var toUpload := s1.LayersToUpload();
    var p1 := UploadPhase(Progress(s1, false, []), toUpload, up, press);
    if press.PressBefore? && press.uploadsDone >= |toUpload| then PressCancel(p1) else p1
  }

  /** The table and task after the save phase. */
  function AfterSaves(s0: Store, up: LayerId -> UploadAnswer, sv: LayerId -> SaveAnswer, press: CancelPress): Progress
  {
    var p1 := AfterUploads(s0, up, press);
    SavePhase(p1, p1.store.LayersToSave(), sv)
  }

  /** The end of run: mode back to EDITING_DATA, then the decision. */
  function Finish(p2: Progress, action0: UserAction, closed0: bool): RunResult
  {
    var s3 := p2.store.Apply(ModeSet(EditingData));
    if s3.HasUnsavedData() then
      var s4 := s3.Apply(ModeSet(EditingData));
      if p2.canceled then RunResult(s4, true, p2.submitted, Warning(s3), Cancel, true)
      else RunResult(s4, false, p2.submitted, Warning(s3), action0, closed0)
    else RunResult(s3, p2.canceled, p2.submitted, None, Proceed, true)
  }

  /** SaveAndUploadTask.run for a fresh task. */
  function Run(s0: Store, action0: UserAction, closed0: bool,
               up: LayerId -> UploadAnswer, sv: LayerId -> SaveAnswer, press: CancelPress): RunResult
  {
    Finish(AfterSaves(s0, up, sv, press), action0, closed0)
  }

  /** Finalization only sets the mode, once or twice, and decides. */
  lemma FinishFrame(p2: Progress, action0: UserAction, closed0: bool)
    ensures var r := Finish(p2, action0, closed0);
      && r.store.entries == p2.store.entries
      && r.store.upload == p2.store.upload && r.store.save == p2.store.save
      && r.store.checkPending == p2.store.checkPending
      && r.store.mode == EditingData
      && r.canceled == p2.canceled && r.submitted == p2.submitted
      && (r.store.history == p2.store.history + [ModeSet(EditingData)] ||
          r.store.history == p2.store.history + [ModeSet(EditingData), ModeSet(EditingData)])
  {
  }

  /** Frame facts of the first part of a run. */
  lemma {:induction false} AfterUploadsFrame(s0: Store, up: LayerId -> UploadAnswer, press: CancelPress)
    ensures var p1 := AfterUploads(s0, up, press); var h0 := s0.history;
      && p1.store.entries == s0.entries
      && p1.store.save == s0.save
      && p1.store.checkPending == s0.checkPending
      && p1.canceled == press.PressBefore?
      && h0 + [ModeSet(UploadingAndSaving)] <= p1.store.history
      && UploadEventsOnly(p1.store.history[|h0| + 1..])
      && (press == NoPress ==> forall k :: |h0| < k < |p1.store.history| ==> p1.store.history[k].UploadStateSet?)
      && (forall k :: 0 <= k < |p1.submitted| ==> p1.submitted[k].phase == Upload)
  {
    var s1 := s0.Apply(ModeSet(UploadingAndSaving));
    var toUpload := s1.LayersToUpload();
    var p0 := Progress(s1, false, []);
    UploadPhaseFrame(p0, toUpload, up, press);
    var p1 := UploadPhase(p0, toUpload, up, press);
    var h1 := s1.history;
    if press.PressBefore? && press.uploadsDone >= |toUpload| {
      var p1' := PressCancel(p1);
      assert p1'.store.history == p1.store.history + [ModeSet(EditingData)];
      forall k | |h1| <= k < |p1'.store.history|
        ensures p1'.store.history[k].UploadStateSet? || p1'.store.history[k] == ModeSet(EditingData)
      {
        if k < |p1.store.history| {
          assert p1'.store.history[k] == p1.store.history[|h1|..][k - |h1|];
        }
      }
    } else {
      forall k | |h1| <= k < |p1.store.history|
        ensures p1.store.history[k] == p1.store.history[|h1|..][k - |h1|]
      {
      }
    }
  }

  /** The Save/Upload action is disabled from the start of a run until a
      Cancel press or the end of the run, and enabled again afterwards. */
  lemma {:induction false} RunActionsEnabled(s0: Store, action0: UserAction, closed0: bool,
                                             up: LayerId -> UploadAnswer, sv: LayerId -> SaveAnswer, press: CancelPress)
    ensures ActionsEnabled(AfterUploads(s0, up, press).store.mode) <==> press.PressBefore?
    ensures ActionsEnabled(Run(s0, action0, closed0, up, sv, press).store.mode)
  {
    var s1 := s0.Apply(ModeSet(UploadingAndSaving));
    UploadPhaseFrame(Progress(s1, false, []), s1.LayersToUpload(), up, press);
    RunOrdering(s0, action0, closed0, up, sv, press);
  }

  /** Every upload is handled before any save: the run's notifications
      start with UPLOADING_AND_SAVING, end with EDITING_DATA, set no other
      mode in between, and no upload state follows a save state. */
  lemma {:induction false} RunOrdering(s0: Store, action0: UserAction, closed0: bool,
                                       up: LayerId -> UploadAnswer, sv: LayerId -> SaveAnswer, press: CancelPress)
    ensures var r := Run(s0, action0, closed0, up, sv, press); var h0 := s0.history; var h := r.store.history;
      && h0 + [ModeSet(UploadingAndSaving)] < h
      && h[|h| - 1] == ModeSet(EditingData) && r.store.mode == EditingData
      && (forall k :: |h0| < k < |h| && h[k].ModeSet? ==> h[k].mode == EditingData)
      && (forall i, j :: |h0| <= i < j < |h| && h[i].SaveStateSet? ==> !h[j].UploadStateSet?)
  {
    var p1 := AfterUploads(s0, up, press);
    AfterUploadsFrame(s0, up, press);
    var toSave := p1.store.LayersToSave();
    SavePhaseFrame(p1, toSave, sv);
    var p2 := SavePhase(p1, toSave, sv);
    FinishFrame(p2, action0, closed0);
    var h0, h1, h2 := s0.history, p1.store.history, p2.store.history;
    var h := Finish(p2, action0, closed0).store.history;
    HistoryInOrder(h0, h1, h2, h);
  }

  /** The history facts of a run, from its three segments. */
  lemma HistoryInOrder(h0: seq<Event>, h1: seq<Event>, h2: seq<Event>, h: seq<Event>)
    requires h0 + [ModeSet(UploadingAndSaving)] <= h1 && UploadEventsOnly(h1[|h0| + 1..])
    requires h1 <= h2 && SaveEventsOnly(h2[|h1|..])
    requires h == h2 + [ModeSet(EditingData)] || h == h2 + [ModeSet(EditingData), ModeSet(EditingData)]
    ensures h0 + [ModeSet(UploadingAndSaving)] < h
    ensures h[|h| - 1] == ModeSet(EditingData)
    ensures forall k :: |h0| < k < |h| && h[k].ModeSet? ==> h[k].mode == EditingData
    ensures forall i, j :: |h0| <= i < j < |h| && h[i].SaveStateSet? ==> !h[j].UploadStateSet?
  {
    forall k | |h0| < k < |h1| ensures h[k].UploadStateSet? || h[k] == ModeSet(EditingData) {
      assert h[k] == h1[k] == h1[|h0| + 1..][k - |h0| - 1];
    }
    forall k | |h1| <= k < |h2| ensures h[k].SaveStateSet? {
      assert h[k] == h2[k] == h2[|h1|..][k - |h1|];
    }
    SegmentsInOrder(h, |h0| + 1, |h1|, |h2|);
    assert h[|h0|] == ModeSet(UploadingAndSaving);
  }

  /** Every upload task reaches the worker before any save task. */
  lemma {:induction false} RunSubmitOrder(s0: Store, action0: UserAction, closed0: bool,
                                          up: LayerId -> UploadAnswer, sv: LayerId -> SaveAnswer, press: CancelPress)
    ensures var r := Run(s0, action0, closed0, up, sv, press);
      forall i, j :: 0 <= i < j < |r.submitted| && r.submitted[i].phase == Save ==> r.submitted[j].phase == Save
  {
    var p1 := AfterUploads(s0, up, press);
    AfterUploadsFrame(s0, up, press);
    var toSave := p1.store.LayersToSave();
    SavePhaseFrame(p1, toSave, sv);
    var p2 := SavePhase(p1, toSave, sv);
    FinishFrame(p2, action0, closed0);
    var r := Finish(p2, action0, closed0);
    forall i, j | 0 <= i < j < |r.submitted| && r.submitted[i].phase == Save ensures r.submitted[j].phase == Save {
      assert i >= |p1.submitted|;
    }
  }

  /** Upload (or mode-reset) notifications, then save notifications, then
      mode resets: no upload state after a save state, no busy mode. */
  lemma SegmentsInOrder(h: seq<Event>, a: nat, b: nat, c: nat)
    requires a <= b <= c <= |h|
    requires forall k :: a <= k < b ==> h[k].UploadStateSet? || h[k] == ModeSet(EditingData)
    requires forall k :: b <= k < c ==> h[k].SaveStateSet?
    requires forall k :: c <= k < |h| ==> h[k] == ModeSet(EditingData)
    ensures forall i, j :: a <= i < j < |h| && h[i].SaveStateSet? ==> !h[j].UploadStateSet?
    ensures forall k :: a <= k < |h| && h[k].ModeSet? ==> h[k].mode == EditingData
  {
  }

  /** The state every layer ends a run in: each upload decided by its own
      answers and by whether Cancel came before it; each save decided by its
      own answers, its pending check and whether Cancel came at all. */
  lemma {:induction false} RunStates(s0: Store, action0: UserAction, closed0: bool,
                                     up: LayerId -> UploadAnswer, sv: LayerId -> SaveAnswer, press: CancelPress)
    requires Distinct(Ids(s0.entries))
    ensures var r := Run(s0, action0, closed0, up, sv, press);
      var toUpload := s0.LayersToUpload(); var toSave := s0.LayersToSave();
      && r.store.entries == s0.entries
      && r.canceled == press.PressBefore?
      && (forall j :: 0 <= j < |toUpload| ==>
            Get(r.store.upload, toUpload[j]) == Some(UploadResult(PressedBy(press, j), up(toUpload[j]))))
      && (forall id :: id !in toUpload ==> Get(r.store.upload, id) == Get(s0.upload, id))
      && (forall j :: 0 <= j < |toSave| ==>
            var pending := toSave[j] in s0.checkPending;
            && Get(r.store.save, toSave[j]) == Overwrite(Get(s0.save, toSave[j]), SaveResult(press.PressBefore?, pending, sv(toSave[j])))
            && (toSave[j] in r.store.checkPending <==> pending && !SaveSubmits(press.PressBefore?, pending, sv(toSave[j]))))
      && (forall id :: id !in toSave ==> Get(r.store.save, id) == Get(s0.save, id))
      && (forall id :: id !in toSave ==> (id in r.store.checkPending <==> id in s0.checkPending))
  {
    var s1 := s0.Apply(ModeSet(UploadingAndSaving));
    var toUpload := s1.LayersToUpload();
    SelectDistinct(s0.entries, WantsUpload);
    SelectDistinct(s0.entries, WantsSave);
    var p0 := Progress(s1, false, []);
    UploadPhaseStates(p0, toUpload, up, press);
    AfterUploadsFrame(s0, up, press);
    var p1 := AfterUploads(s0, up, press);
    SavePhaseStates(p1, p1.store.LayersToSave(), sv);
    SavePhaseFrame(p1, p1.store.LayersToSave(), sv);
    FinishFrame(AfterSaves(s0, up, sv, press), action0, closed0);
  }

  /** The jobs of a run: those of the upload phase, then save jobs only. */
  lemma {:induction false} RunJobsSplit(s0: Store, action0: UserAction, closed0: bool,
                                        up: LayerId -> UploadAnswer, sv: LayerId -> SaveAnswer, press: CancelPress)
    ensures var r := Run(s0, action0, closed0, up, sv, press); var p1 := AfterUploads(s0, up, press);
      && p1.submitted <= r.submitted
      && (forall k :: |p1.submitted| <= k < |r.submitted| ==> r.submitted[k].phase == Save && r.submitted[k].layer in s0.LayersToSave())
      && (forall k :: 0 <= k < |p1.submitted| ==> p1.submitted[k].phase == Upload)
  {
    AfterUploadsFrame(s0, up, press);
    var p1 := AfterUploads(s0, up, press);
    var toSave := p1.store.LayersToSave();
    SavePhaseFrame(p1, toSave, sv);
    FinishFrame(SavePhase(p1, toSave, sv), action0, closed0);
  }

  /** Which upload tasks reach the worker in a run: exactly those of the
      layers whose checks pass before Cancel is pressed. */
  lemma {:induction false} RunUploadJobs(s0: Store, action0: UserAction, closed0: bool,
                                         up: LayerId -> UploadAnswer, sv: LayerId -> SaveAnswer, press: CancelPress)
    requires Distinct(Ids(s0.entries))
    ensures var r := Run(s0, action0, closed0, up, sv, press); var toUpload := s0.LayersToUpload();
      forall j :: 0 <= j < |toUpload| ==>
        (Job(Upload, toUpload[j]) in r.submitted <==> UploadSubmits(PressedBy(press, j), up(toUpload[j])))
  {
    var s1 := s0.Apply(ModeSet(UploadingAndSaving));
    var toUpload := s1.LayersToUpload();
    SelectDistinct(s0.entries, WantsUpload);
    var p0 := Progress(s1, false, []);
    UploadPhaseJobs(p0, toUpload, up, press);
    RunJobsSplit(s0, action0, closed0, up, sv, press);
    var pre := AfterUploads(s0, up, press).submitted;
    assert pre == UploadPhase(p0, toUpload, up, press).submitted;
    assert pre[0..] == pre;
    forall j | 0 <= j < |toUpload| {
      UploadJobBeforeSaves(Run(s0, action0, closed0, up, sv, press).submitted, pre, Job(Upload, toUpload[j]));
    }
  }

  /** An upload job is among a run's jobs exactly when the upload phase submitted it. */
  lemma UploadJobBeforeSaves(all: seq<Job>, pre: seq<Job>, job: Job)
    requires pre <= all && job.phase == Upload
    requires forall k :: |pre| <= k < |all| ==> all[k].phase == Save
    ensures job in all <==> job in pre
  {
    if job in all {
      var k :| 0 <= k < |all| && all[k] == job;
      assert k < |pre| && pre[k] == job;
    }
  }

  /** Which save tasks reach the worker in a run: exactly those of the
      layers saved after passing (or having passed) their check, and none
      once Cancel was pressed. */
  lemma {:induction false} RunSaveJobs(s0: Store, action0: UserAction, closed0: bool,
                                       up: LayerId -> UploadAnswer, sv: LayerId -> SaveAnswer, press: CancelPress)
    requires Distinct(Ids(s0.entries))
    ensures var r := Run(s0, action0, closed0, up, sv, press); var toSave := s0.LayersToSave();
      forall j :: 0 <= j < |toSave| ==>
        (Job(Save, toSave[j]) in r.submitted <==> SaveSubmits(press.PressBefore?, toSave[j] in s0.checkPending, sv(toSave[j])))
  {
    SelectDistinct(s0.entries, WantsSave);
    AfterUploadsFrame(s0, up, press);
    var p1 := AfterUploads(s0, up, press);
    var toSave := p1.store.LayersToSave();
    SavePhaseStates(p1, toSave, sv);
    RunJobsSplit(s0, action0, closed0, up, sv, press);
    FinishFrame(SavePhase(p1, toSave, sv), action0, closed0);
    forall j | 0 <= j < |toSave| ensures Job(Save, toSave[j]) !in p1.submitted {
    }
  }

  /** Every job of a run is an upload of a layer to be uploaded or a save
      of a layer to be saved. */
  lemma {:induction false} RunJobLayers(s0: Store, action0: UserAction, closed0: bool,
                                        up: LayerId -> UploadAnswer, sv: LayerId -> SaveAnswer, press: CancelPress)
    ensures var r := Run(s0, action0, closed0, up, sv, press);
      forall job :: job in r.submitted ==> job.layer in (if job.phase == Upload then s0.LayersToUpload() else s0.LayersToSave())
  {
    var s1 := s0.Apply(ModeSet(UploadingAndSaving));
    var p0 := Progress(s1, false, []);
    UploadPhaseFrame(p0, s1.LayersToUpload(), up, press);
    RunJobsSplit(s0, action0, closed0, up, sv, press);
    var p1 := AfterUploads(s0, up, press);
    var r := Run(s0, action0, closed0, up, sv, press);
    forall job | job in r.submitted ensures job.layer in (if job.phase == Upload then s0.LayersToUpload() else s0.LayersToSave()) {
      var k :| 0 <= k < |r.submitted| && r.submitted[k] == job;
      if k < |p1.submitted| {
        assert job == p1.submitted[k];
      }
    }
  }

  /** Which tasks reach the worker in a run. */
  lemma RunJobs(s0: Store, action0: UserAction, closed0: bool,
                up: LayerId -> UploadAnswer, sv: LayerId -> SaveAnswer, press: CancelPress)
    requires Distinct(Ids(s0.entries))
    ensures var r := Run(s0, action0, closed0, up, sv, press);
      var toUpload := s0.LayersToUpload(); var toSave := s0.LayersToSave();
      && (forall j :: 0 <= j < |toUpload| ==>
            (Job(Upload, toUpload[j]) in r.submitted <==> UploadSubmits(PressedBy(press, j), up(toUpload[j]))))
      && (forall j :: 0 <= j < |toSave| ==>
            (Job(Save, toSave[j]) in r.submitted <==>
               SaveSubmits(press.PressBefore?, toSave[j] in s0.checkPending, sv(toSave[j]))))
      && (forall job :: job in r.submitted ==> job.layer in (if job.phase == Upload then toUpload else toSave))
  {
    RunUploadJobs(s0, action0, closed0, up, sv, press);
    RunSaveJobs(s0, action0, closed0, up, sv, press);
    RunJobLayers(s0, action0, closed0, up, sv, press);
  }

  /** The worker receives the run's upload jobs in the order of the upload
      list, then its save jobs in the order of the save list, and no job
      twice. */
  lemma {:induction false} RunJobOrder(s0: Store, action0: UserAction, closed0: bool,
                                       up: LayerId -> UploadAnswer, sv: LayerId -> SaveAnswer, press: CancelPress)
    requires Distinct(Ids(s0.entries))
    ensures var r := Run(s0, action0, closed0, up, sv, press);
      var toUpload := s0.LayersToUpload(); var toSave := s0.LayersToSave();
      && r.submitted ==
           Chosen(Upload, toUpload, UploadDecisions(false, toUpload, up, press)) +
           Chosen(Save, toSave, SaveDecisions(s0.checkPending, press.PressBefore?, toSave, sv))
      && (forall a, b :: 0 <= a < b < |r.submitted| ==> r.submitted[a] != r.submitted[b])
  {
    var s1 := s0.Apply(ModeSet(UploadingAndSaving));
    var toUpload := s1.LayersToUpload();
    var p0 := Progress(s1, false, []);
    UploadPhaseJobOrder(p0, toUpload, up, press);
    AfterUploadsFrame(s0, up, press);
    var p1 := AfterUploads(s0, up, press);
    var toSave := p1.store.LayersToSave();
    SelectDistinct(s0.entries, WantsUpload);
    SelectDistinct(s0.entries, WantsSave);
    SavePhaseJobOrder(p1, toSave, sv);
    FinishFrame(SavePhase(p1, toSave, sv), action0, closed0);
    var us := Chosen(Upload, toUpload, UploadDecisions(false, toUpload, up, press));
    var ss := Chosen(Save, toSave, SaveDecisions(s0.checkPending, press.PressBefore?, toSave, sv));
    assert p1.submitted == us;
    ChosenInOrder(Upload, toUpload, UploadDecisions(false, toUpload, up, press));
    ChosenInOrder(Save, toSave, SaveDecisions(s0.checkPending, press.PressBefore?, toSave, sv));
    ChosenLayers(Upload, toUpload, UploadDecisions(false, toUpload, up, press));
    ChosenLayers(Save, toSave, SaveDecisions(s0.checkPending, press.PressBefore?, toSave, sv));
    JoinDistinct(us, ss);
  }

  /** Two duplicate-free job lists of different phases join without duplicates. */
  lemma JoinDistinct(us: seq<Job>, ss: seq<Job>)
    requires forall a, b :: 0 <= a < b < |us| ==> us[a] != us[b]
    requires forall a, b :: 0 <= a < b < |ss| ==> ss[a] != ss[b]
    requires forall k :: 0 <= k < |us| ==> us[k].phase == Upload
    requires forall k :: 0 <= k < |ss| ==> ss[k].phase == Save
    ensures forall a, b :: 0 <= a < b < |us + ss| ==> (us + ss)[a] != (us + ss)[b]
  {
    forall a, b | 0 <= a < b < |us + ss| ensures (us + ss)[a] != (us + ss)[b] {
      if a >= |us| {
        assert (us + ss)[a] == ss[a - |us|] && (us + ss)[b] == ss[b - |us|];
      }
    }
  }

  /** A run writes states only into slots their entries ask for. */
  lemma {:induction false} RunKeepsConsistent(s0: Store, action0: UserAction, closed0: bool,
                                              up: LayerId -> UploadAnswer, sv: LayerId -> SaveAnswer, press: CancelPress)
    requires Distinct(Ids(s0.entries)) && s0.Consistent()
    ensures Run(s0, action0, closed0, up, sv, press).store.Consistent()
  {
    var r := Run(s0, action0, closed0, up, sv, press);
    RunStates(s0, action0, closed0, up, sv, press);
    var es := s0.entries;
    IdsAt(es);
    forall i | 0 <= i < |es|
      ensures (es[i].id in r.store.upload ==> es[i].doUpload) && (es[i].id in r.store.save ==> es[i].doSave)
    {
      forall k | 0 <= k < |es| && es[k].id == es[i].id ensures k == i {
        assert Ids(es)[k] == Ids(es)[i];
      }
      if !es[i].doUpload {
        assert es[i].id !in s0.LayersToUpload();
        assert Get(r.store.upload, es[i].id) == Get(s0.upload, es[i].id);
      }
      if !es[i].doSave {
        assert es[i].id !in s0.LayersToSave();
        assert Get(r.store.save, es[i].id) == Get(s0.save, es[i].id);
      }
    }
  }

  /** The warning a run shows carries the number of canceled plus failed
      entries and appears exactly when that number is not 0. */
  lemma {:induction false} RunWarning(s0: Store, action0: UserAction, closed0: bool,
                                      up: LayerId -> UploadAnswer, sv: LayerId -> SaveAnswer, press: CancelPress)
    requires Distinct(Ids(s0.entries)) && s0.Consistent()
    ensures var r := Run(s0, action0, closed0, up, sv, press);
      var n := r.store.NumCancel() + r.store.NumFailed();
      && (r.warning.Some? <==> n > 0)
      && (r.warning.Some? ==> r.warning.value == n)
  {
    var r := Run(s0, action0, closed0, up, sv, press);
    RunKeepsConsistent(s0, action0, closed0, up, sv, press);
    var p2 := AfterSaves(s0, up, sv, press);
    var s3 := p2.store.Apply(ModeSet(EditingData));
    FinishFrame(p2, action0, closed0);
    CountSameStates(s3, r.store, s3.entries, Canceled);
    CountSameStates(s3, r.store, s3.entries, Failed);
    UnsavedSameStates(s3, r.store);
    if !r.store.HasUnsavedData() {
      var es := r.store.entries;
      forall e | e in es ensures !r.store.Unsaved(e) && (e.id in r.store.upload ==> e.doUpload) && (e.id in r.store.save ==> e.doSave) {
        var i :| 0 <= i < |es| && es[i] == e;
      }
      NoProblemsWithoutUnsavedData(r.store, es, Canceled);
      NoProblemsWithoutUnsavedData(r.store, es, Failed);
    }
  }

  /** How a run ends: PROCEED and closed when no unsaved data remains;
      otherwise CANCEL and closed if Cancel was pressed, else the dialog
      stays open with its action as it was. The warning carries the number
      of canceled plus failed entries and appears exactly when that is not 0. */
  lemma {:induction false} RunDecision(s0: Store, action0: UserAction, closed0: bool,
                                       up: LayerId -> UploadAnswer, sv: LayerId -> SaveAnswer, press: CancelPress)
    requires Distinct(Ids(s0.entries)) && s0.Consistent()
    ensures var r := Run(s0, action0, closed0, up, sv, press);
      var n := r.store.NumCancel() + r.store.NumFailed();
      && r.store.Consistent()
      && (!r.store.HasUnsavedData() ==> r.action == Proceed && r.closed)
      && (r.store.HasUnsavedData() && press.PressBefore? ==> r.action == Cancel && r.closed)
      && (r.store.HasUnsavedData() && press == NoPress ==> r.action == action0 && r.closed == closed0)
      && (action0 == Cancel ==> (r.action == Proceed <==> !r.store.HasUnsavedData()))
      && (r.warning.Some? <==> n > 0)
      && (r.warning.Some? ==> r.warning.value == n)
  {
    RunKeepsConsistent(s0, action0, closed0, up, sv, press);
    RunWarning(s0, action0, closed0, up, sv, press);
    AfterUploadsFrame(s0, up, press);
    var p1 := AfterUploads(s0, up, press);
    SavePhaseFrame(p1, p1.store.LayersToSave(), sv);
    var p2 := AfterSaves(s0, up, sv, press);
    var s3 := p2.store.Apply(ModeSet(EditingData));
    FinishFrame(p2, action0, closed0);
    UnsavedSameStates(s3, Finish(p2, action0, closed0).store);
  }
}
