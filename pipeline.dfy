/** The upload/save pipeline of SaveAndUploadTask as functions on values:
    one step per layer, each phase a fold over its ordered list of layers,
    and lemmas about the state every layer ends in. */
module UploadSavePipeline {
  import opened SaveLayerTypes
  import opened LayersModel

  /** What the orchestrator has done so far: the table, the `canceled` flag
      and the jobs handed to the single worker, in order. */
  datatype Progress = Progress(store: Store, canceled: bool, submitted: seq<Job>)

  /** Every new notification is an upload state or the mode reset of a cancel press. */
  predicate UploadEventsOnly(h: seq<Event>)
  {
    forall k :: 0 <= k < |h| ==> h[k].UploadStateSet? || h[k] == ModeSet(EditingData)
  }

  predicate SaveEventsOnly(h: seq<Event>)
  {
    forall k :: 0 <= k < |h| ==> h[k].SaveStateSet?
  }

  /** The notifications in `h` after its first `n` are all about layer `id`. */
  predicate NewEventsAbout(h: seq<Event>, n: nat, id: LayerId, phase: Phase)
  {
    n <= |h| &&
    forall k :: n <= k < |h| ==>
      (if phase == Upload then h[k].UploadStateSet? else h[k].SaveStateSet?) && h[k].layer == id
  }

  // ---------------------------------------------------------------- upload

  /** The upload of a layer reaches the worker: not canceled, the pre-upload
      check passed, the upload dialog was not canceled, and a task was made. */
  predicate UploadSubmits(canceled: bool, a: UploadAnswer)
  {
    !canceled && a.preUploadOk && a.dialog != DialogCanceled && a.task.Some?
  }

  /** The upload state a layer is left in: a submitted task's own flags
      decide; otherwise the reason it was skipped does. */
  function UploadResult(canceled: bool, a: UploadAnswer): UploadOrSaveState
  {
    if UploadSubmits(canceled, a) then FinalState(a.task.value)
    else if canceled then Canceled
    else if !a.preUploadOk then Failed
    else if a.dialog == DialogCanceled then Canceled
    else Failed
  }

  /** The write made by the catch clause around the upload future's get(). */
  function UploadHandler(s: Store, id: LayerId, f: FutureResult): (r: Store)
    ensures r.entries == s.entries && r.save == s.save && r.checkPending == s.checkPending && r.mode == s.mode
    ensures f.Returned? <==> r == s
    ensures !f.Returned? ==>
      && r.upload == s.upload[id := if f.CancellationThrown? then Canceled else Failed]
      && |r.history| == |s.history| + 1 && NewEventsAbout(r.history, |s.history|, id, Upload)
  {
    match f
    case Returned => s
    case CancellationThrown => s.Apply(UploadStateSet(id, Canceled))
    case InterruptedThrown => s.Apply(UploadStateSet(id, Failed))
    case ExecutionThrown => s.Apply(UploadStateSet(id, Failed))
  }

  /** One iteration of uploadLayers, including uploadLayersUploadModelStateOnFinish. */
  function UploadItem(p: Progress, id: LayerId, a: UploadAnswer): (r: Progress)
    ensures r.store.upload == p.store.upload[id := UploadResult(p.canceled, a)]
    ensures r.store.entries == p.store.entries && r.store.save == p.store.save
    ensures r.store.checkPending == p.store.checkPending && r.store.mode == p.store.mode
    ensures r.canceled == p.canceled
    ensures r.submitted == p.submitted + (if UploadSubmits(p.canceled, a) then [Job(Upload, id)] else [])
    ensures p.store.history < r.store.history
    ensures NewEventsAbout(r.store.history, |p.store.history|, id, Upload)
  {
    if p.canceled then p.(store := p.store.Apply(UploadStateSet(id, Canceled)))
    else if !a.preUploadOk then p.(store := p.store.Apply(UploadStateSet(id, Failed)))
    else if a.dialog == DialogCanceled then p.(store := p.store.Apply(UploadStateSet(id, Canceled)))
    else if a.task.None? then p.(store := p.store.Apply(UploadStateSet(id, Failed)))
    else
      var t := a.task.value;
      var s := UploadHandler(p.store, id, t.future);
      Progress(s.Apply(UploadStateSet(id, FinalState(t))), false, p.submitted + [Job(Upload, id)])
  }

  /** Cancel pressed in UPLOADING_AND_SAVING: the flag is set and the mode reset. */
  function PressCancel(p: Progress): (r: Progress)
    ensures r.canceled && r.submitted == p.submitted && r.store.mode == EditingData
    ensures r.store.entries == p.store.entries && r.store.upload == p.store.upload && r.store.save == p.store.save
    ensures r.store.checkPending == p.store.checkPending
    ensures r.store.history == p.store.history + [ModeSet(EditingData)]
  {
    Progress(p.store.Apply(ModeSet(EditingData)), true, p.submitted)
  }

  /** The press, if it comes right before upload item `k`. */
  function PressAt(p: Progress, k: nat, press: CancelPress): Progress
  {
    if press == PressBefore(k) then PressCancel(p) else p
  }

  /** Whether the press came before upload item `j`. */
  predicate PressedBy(press: CancelPress, j: nat)
  {
    press.PressBefore? && press.uploadsDone <= j
  }

  /** uploadLayers over `ids`, with the cancel press interleaved. */
  function UploadPhase(p: Progress, ids: seq<LayerId>, ans: LayerId -> UploadAnswer, press: CancelPress): Progress
    decreases |ids|
  {
    if ids == [] then p
    else
      var n := |ids| - 1;
      UploadItem(PressAt(UploadPhase(p, ids[..n], ans, press), n, press), ids[n], ans(ids[n]))
  }

  /** What the upload phase leaves alone, and what it may add. */
  lemma {:induction false} UploadPhaseFrame(p: Progress, ids: seq<LayerId>, ans: LayerId -> UploadAnswer, press: CancelPress)
    ensures var r := UploadPhase(p, ids, ans, press);
      && r.store.entries == p.store.entries
      && r.store.save == p.store.save
      && r.store.checkPending == p.store.checkPending
      && r.canceled == (p.canceled || (press.PressBefore? && press.uploadsDone < |ids|))
      && r.store.mode == (if press.PressBefore? && press.uploadsDone < |ids| then EditingData else p.store.mode)
      && p.store.history <= r.store.history
      && UploadEventsOnly(r.store.history[|p.store.history|..])
      && (press == NoPress ==> forall k :: |p.store.history| <= k < |r.store.history| ==> r.store.history[k].UploadStateSet?)
      && p.submitted <= r.submitted
      && (forall k :: |p.submitted| <= k < |r.submitted| ==> r.submitted[k].phase == Upload && r.submitted[k].layer in ids)
  {
    if ids != [] {
      var n := |ids| - 1;
      UploadPhaseFrame(p, ids[..n], ans, press);
      var q := UploadPhase(p, ids[..n], ans, press);
      var q' := PressAt(q, n, press);
      var r := UploadItem(q', ids[n], ans(ids[n]));
      assert r == UploadPhase(p, ids, ans, press);
      assert forall id :: id in ids[..n] ==> id in ids;
      var h0, hq, hr := p.store.history, q.store.history, r.store.history;
      forall k | |h0| <= k < |hr|
        ensures hr[k].UploadStateSet? || hr[k] == ModeSet(EditingData)
        ensures press == NoPress ==> hr[k].UploadStateSet?
      {
        if k < |hq| {
          assert hr[k] == hq[k] == hq[|h0|..][k - |h0|];
        }
      }
    }
  }

  /** Once `canceled` is set, every remaining layer is marked CANCELED and
      no upload task is created or submitted. */
  lemma {:induction false} CanceledUploadPhase(p: Progress, ids: seq<LayerId>, ans: LayerId -> UploadAnswer, press: CancelPress)
    requires p.canceled
    ensures var r := UploadPhase(p, ids, ans, press);
      && r.submitted == p.submitted
      && (forall id :: id in ids ==> Get(r.store.upload, id) == Some(Canceled))
      && (forall id :: id !in ids ==> Get(r.store.upload, id) == Get(p.store.upload, id))
  {
    if ids != [] {
      var n := |ids| - 1;
      CanceledUploadPhase(p, ids[..n], ans, press);
      UploadPhaseFrame(p, ids[..n], ans, press);
      assert forall id :: id in ids ==> id in ids[..n] || id == ids[n];
    }
  }

  /** The upload state of every layer after the phase: each listed layer
      ends in UploadResult for its own answers and for whether Cancel was
      pressed before it; the others are untouched. */
  lemma {:induction false} UploadPhaseStates(p: Progress, ids: seq<LayerId>, ans: LayerId -> UploadAnswer, press: CancelPress)
    requires Distinct(ids)
    ensures var r := UploadPhase(p, ids, ans, press);
      && (forall j :: 0 <= j < |ids| ==>
            Get(r.store.upload, ids[j]) == Some(UploadResult(p.canceled || PressedBy(press, j), ans(ids[j]))))
      && (forall id :: id !in ids ==> Get(r.store.upload, id) == Get(p.store.upload, id))
  {
    if ids != [] {
      var n := |ids| - 1;
      assert Distinct(ids[..n]);
      UploadPhaseStates(p, ids[..n], ans, press);
      UploadPhaseFrame(p, ids[..n], ans, press);
      var q := UploadPhase(p, ids[..n], ans, press);
      var q' := PressAt(q, n, press);
      assert q'.canceled == (p.canceled || PressedBy(press, n));
      var r := UploadItem(q', ids[n], ans(ids[n]));
      assert r == UploadPhase(p, ids, ans, press);
      forall j | 0 <= j < |ids|
        ensures Get(r.store.upload, ids[j]) == Some(UploadResult(p.canceled || PressedBy(press, j), ans(ids[j])))
      {
        if j < n {
          assert ids[j] == ids[..n][j] && ids[j] != ids[n];
        }
      }
      assert forall id :: id !in ids ==> id !in ids[..n] && id != ids[n];
    }
  }

  /** Which upload tasks reach the worker: exactly those of the layers that
      pass every check before Cancel is pressed. */
  lemma {:induction false} UploadPhaseJobs(p: Progress, ids: seq<LayerId>, ans: LayerId -> UploadAnswer, press: CancelPress)
    requires Distinct(ids)
    ensures var r := UploadPhase(p, ids, ans, press);
      p.submitted <= r.submitted &&
      forall j :: 0 <= j < |ids| ==>
        (Job(Upload, ids[j]) in r.submitted[|p.submitted|..] <==> UploadSubmits(p.canceled || PressedBy(press, j), ans(ids[j])))
  {
    if ids != [] {
      var n := |ids| - 1;
      assert Distinct(ids[..n]);
      UploadPhaseJobs(p, ids[..n], ans, press);
      UploadPhaseFrame(p, ids[..n], ans, press);
      var q := UploadPhase(p, ids[..n], ans, press);
      var q' := PressAt(q, n, press);
      var r := UploadItem(q', ids[n], ans(ids[n]));
      assert r == UploadPhase(p, ids, ans, press);
      var m := |p.submitted|;
      var news := if UploadSubmits(q'.canceled, ans(ids[n])) then [Job(Upload, ids[n])] else [];
      assert r.submitted[m..] == q.submitted[m..] + news;
      forall j | 0 <= j < |ids|
        ensures Job(Upload, ids[j]) in r.submitted[m..] <==> UploadSubmits(p.canceled || PressedBy(press, j), ans(ids[j]))
      {
        if j < n {
          assert ids[j] == ids[..n][j] && ids[j] != ids[n];
          assert Job(Upload, ids[j]) !in news;
        } else {
          assert Job(Upload, ids[n]) !in q.submitted[m..] by {
            forall k | 0 <= k < |q.submitted[m..]| ensures q.submitted[m..][k] != Job(Upload, ids[n]) {
              assert q.submitted[m + k].layer in ids[..n];
              assert ids[n] !in ids[..n];
            }
          }
        }
      }
    }
  }

  // ------------------------------------------------------------------ save

  /** The save of a layer reaches the worker: not canceled, and its save
      conditions are no longer to be checked or pass now. */
  predicate SaveSubmits(canceled: bool, pending: bool, a: SaveAnswer)
  {
    !canceled && (!pending || a.saveConditionsOk)
  }

  /** The save state a layer is left in; None when a failing save-condition
      check leaves it as it was. */
  function SaveResult(canceled: bool, pending: bool, a: SaveAnswer): Option<UploadOrSaveState>
  {
    if canceled then Some(Canceled)
    else if pending && !a.saveConditionsOk then None
    else Some(FinalState(a.task))
  }

  /** A write, when there is one, replaces the state before it. */
  function Overwrite(prior: Option<UploadOrSaveState>, written: Option<UploadOrSaveState>): Option<UploadOrSaveState>
  {
    if written.Some? then written else prior
  }

  /** The write made by the catch clause around the save future's get(). */
  function SaveHandler(s: Store, id: LayerId, f: FutureResult): (r: Store)
    ensures r.entries == s.entries && r.upload == s.upload && r.checkPending == s.checkPending && r.mode == s.mode
    ensures f.Returned? <==> r == s
    ensures !f.Returned? ==>
      && r.save == s.save[id := if f.CancellationThrown? then Canceled else Failed]
      && |r.history| == |s.history| + 1 && NewEventsAbout(r.history, |s.history|, id, Save)
  {
    match f
    case Returned => s
    case CancellationThrown => s.Apply(SaveStateSet(id, Canceled))
    case InterruptedThrown => s.Apply(SaveStateSet(id, Failed))
    case ExecutionThrown => s.Apply(SaveStateSet(id, Failed))
  }

  /** One iteration of saveLayers. */
  function SaveItem(p: Progress, id: LayerId, a: SaveAnswer): (r: Progress)
    ensures var pending := id in p.store.checkPending;
      && Get(r.store.save, id) == Overwrite(Get(p.store.save, id), SaveResult(p.canceled, pending, a))
      && (forall x :: x != id ==> Get(r.store.save, x) == Get(p.store.save, x))
      && r.store.checkPending == (if SaveSubmits(p.canceled, pending, a) then p.store.checkPending - {id} else p.store.checkPending)
      && r.submitted == p.submitted + (if SaveSubmits(p.canceled, pending, a) then [Job(Save, id)] else [])
    ensures r.store.entries == p.store.entries && r.store.upload == p.store.upload
    ensures r.store.mode == p.store.mode && r.canceled == p.canceled
    ensures p.store.history <= r.store.history
    ensures NewEventsAbout(r.store.history, |p.store.history|, id, Save)
  {
    if p.canceled then p.(store := p.store.Apply(SaveStateSet(id, Canceled)))
    else if id in p.store.checkPending && !a.saveConditionsOk then p
    else
      var s0 := if id in p.store.checkPending then p.store.(checkPending := p.store.checkPending - {id}) else p.store;
      var s1 := SaveHandler(s0, id, a.task.future);
      Progress(s1.Apply(SaveStateSet(id, FinalState(a.task))), false, p.submitted + [Job(Save, id)])
  }

  /** saveLayers over `ids`; no cancel press can interleave with it. */
  function SavePhase(p: Progress, ids: seq<LayerId>, ans: LayerId -> SaveAnswer): Progress
    decreases |ids|
  {
    if ids == [] then p
    else
      var n := |ids| - 1;
      SaveItem(SavePhase(p, ids[..n], ans), ids[n], ans(ids[n]))
  }

  /** What the save phase leaves alone, and what it may add. */
  lemma {:induction false} SavePhaseFrame(p: Progress, ids: seq<LayerId>, ans: LayerId -> SaveAnswer)
    ensures var r := SavePhase(p, ids, ans);
      && r.store.entries == p.store.entries
      && r.store.upload == p.store.upload
      && r.store.mode == p.store.mode
      && r.canceled == p.canceled
      && r.store.checkPending <= p.store.checkPending
      && p.store.history <= r.store.history
      && SaveEventsOnly(r.store.history[|p.store.history|..])
      && p.submitted <= r.submitted
      && (forall k :: |p.submitted| <= k < |r.submitted| ==> r.submitted[k].phase == Save && r.submitted[k].layer in ids)
  {
    if ids != [] {
      var n := |ids| - 1;
      SavePhaseFrame(p, ids[..n], ans);
      var q := SavePhase(p, ids[..n], ans);
      var r := SaveItem(q, ids[n], ans(ids[n]));
      assert forall id :: id in ids[..n] ==> id in ids;
      var h0, hq, hr := p.store.history, q.store.history, r.store.history;
      assert SaveEventsOnly(hr[|h0|..]) by {
        forall k | |h0| <= k < |hr| ensures hr[k].SaveStateSet? {
          if k < |hq| {
            assert hr[k] == hq[k] == hq[|h0|..][k - |h0|];
          }
        }
      }
    }
  }

  /** Once `canceled` is set, every layer of the save phase is marked
      CANCELED, no save task is submitted and no save check runs. */
  lemma {:induction false} CanceledSavePhase(p: Progress, ids: seq<LayerId>, ans: LayerId -> SaveAnswer)
    requires p.canceled
    ensures var r := SavePhase(p, ids, ans);
      && r.submitted == p.submitted
      && r.store.checkPending == p.store.checkPending
      && (forall id :: id in ids ==> Get(r.store.save, id) == Some(Canceled))
      && (forall id :: id !in ids ==> Get(r.store.save, id) == Get(p.store.save, id))
  {
    if ids != [] {
      var n := |ids| - 1;
      CanceledSavePhase(p, ids[..n], ans);
      SavePhaseFrame(p, ids[..n], ans);
      assert forall id :: id in ids ==> id in ids[..n] || id == ids[n];
    }
  }

  /** The save state of every layer after the phase, decided by that
      layer's own answer and pending check. */
  lemma {:induction false} SavePhaseSaves(p: Progress, ids: seq<LayerId>, ans: LayerId -> SaveAnswer)
    requires Distinct(ids)
    ensures var r := SavePhase(p, ids, ans);
      && (forall j :: 0 <= j < |ids| ==>
            Get(r.store.save, ids[j]) == Overwrite(Get(p.store.save, ids[j]), SaveResult(p.canceled, ids[j] in p.store.checkPending, ans(ids[j]))))
      && (forall id :: id !in ids ==> Get(r.store.save, id) == Get(p.store.save, id))
  {
    if ids != [] {
      var n := |ids| - 1;
      assert Distinct(ids[..n]);
      SavePhaseSaves(p, ids[..n], ans);
      SavePhaseChecks(p, ids[..n], ans);
      SavePhaseFrame(p, ids[..n], ans);
      var q := SavePhase(p, ids[..n], ans);
      var last := ids[n];
      var r := SaveItem(q, last, ans(last));
      assert r == SavePhase(p, ids, ans);
      assert last !in ids[..n];
      assert last in q.store.checkPending <==> last in p.store.checkPending;
      forall j | 0 <= j < |ids|
        ensures Get(r.store.save, ids[j]) == Overwrite(Get(p.store.save, ids[j]), SaveResult(p.canceled, ids[j] in p.store.checkPending, ans(ids[j])))
      {
        if j < n {
          assert ids[j] == ids[..n][j] && ids[j] != last;
        }
      }
      forall id | id !in ids ensures Get(r.store.save, id) == Get(p.store.save, id) {
        assert id !in ids[..n] && id != last;
      }
    }
  }

  /** The pending save check of every layer after the phase: kept exactly
      when it was pending and the layer's save did not go ahead. */
  lemma {:induction false} SavePhaseChecks(p: Progress, ids: seq<LayerId>, ans: LayerId -> SaveAnswer)
    requires Distinct(ids)
    ensures var r := SavePhase(p, ids, ans);
      && (forall j :: 0 <= j < |ids| ==>
            var pending := ids[j] in p.store.checkPending;
            (ids[j] in r.store.checkPending <==> pending && !SaveSubmits(p.canceled, pending, ans(ids[j]))))
      && (forall id :: id !in ids ==> (id in r.store.checkPending <==> id in p.store.checkPending))
  {
    if ids != [] {
      var n := |ids| - 1;
      assert Distinct(ids[..n]);
      SavePhaseChecks(p, ids[..n], ans);
      SavePhaseFrame(p, ids[..n], ans);
      var last := ids[n];
      assert last !in ids[..n];
      forall j | 0 <= j < n ensures ids[j] == ids[..n][j] && ids[j] != last {
      }
      assert forall id :: id !in ids ==> id !in ids[..n] && id != last;
    }
  }

  /** The save tasks the phase submits: exactly those of the layers whose
      save goes ahead. */
  lemma {:induction false} SavePhaseJobs(p: Progress, ids: seq<LayerId>, ans: LayerId -> SaveAnswer)
    requires Distinct(ids)
    ensures var r := SavePhase(p, ids, ans);
      && p.submitted <= r.submitted
      && (forall j :: 0 <= j < |ids| ==>
            (Job(Save, ids[j]) in r.submitted[|p.submitted|..] <==> SaveSubmits(p.canceled, ids[j] in p.store.checkPending, ans(ids[j]))))
  {
    if ids != [] {
      var n := |ids| - 1;
      assert Distinct(ids[..n]);
      SavePhaseJobs(p, ids[..n], ans);
      SavePhaseChecks(p, ids[..n], ans);
      SavePhaseFrame(p, ids[..n], ans);
      var q := SavePhase(p, ids[..n], ans);
      var r := SaveItem(q, ids[n], ans(ids[n]));
      var m := |p.submitted|;
      var last := ids[n];
      assert last !in ids[..n];
      var news := if SaveSubmits(q.canceled, last in q.store.checkPending, ans(last)) then [Job(Save, last)] else [];
      assert r.submitted[m..] == q.submitted[m..] + news;
      forall j | 0 <= j < n ensures ids[j] == ids[..n][j] && Job(Save, ids[j]) !in news {
      }
      assert Job(Save, last) !in q.submitted[m..] by {
        forall k | 0 <= k < |q.submitted[m..]| ensures q.submitted[m..][k] != Job(Save, last) {
          assert q.submitted[m + k].layer in ids[..n];
        }
      }
    }
  }

  /** The save state, the pending save check and the submission of every
      layer after the phase, each decided by that layer's own answers. */
  lemma SavePhaseStates(p: Progress, ids: seq<LayerId>, ans: LayerId -> SaveAnswer)
    requires Distinct(ids)
    ensures var r := SavePhase(p, ids, ans);
      && p.submitted <= r.submitted
      && (forall j :: 0 <= j < |ids| ==>
            var pending := ids[j] in p.store.checkPending;
            && Get(r.store.save, ids[j]) == Overwrite(Get(p.store.save, ids[j]), SaveResult(p.canceled, pending, ans(ids[j])))
            && (ids[j] in r.store.checkPending <==> pending && !SaveSubmits(p.canceled, pending, ans(ids[j])))
            && (Job(Save, ids[j]) in r.submitted[|p.submitted|..] <==> SaveSubmits(p.canceled, pending, ans(ids[j]))))
      && (forall id :: id !in ids ==> Get(r.store.save, id) == Get(p.store.save, id))
      && (forall id :: id !in ids ==> (id in r.store.checkPending <==> id in p.store.checkPending))
  {
    SavePhaseSaves(p, ids, ans);
    SavePhaseChecks(p, ids, ans);
    SavePhaseJobs(p, ids, ans);
  }

  /** A layer whose save conditions already passed is never checked again:
      the phase does not depend on what its check would answer. */
  lemma {:induction false} SaveCheckedOnce(p: Progress, ids: seq<LayerId>, ans: LayerId -> SaveAnswer, ans': LayerId -> SaveAnswer, id: LayerId)
    requires id !in p.store.checkPending
    requires forall x :: x != id ==> ans'(x) == ans(x)
    requires ans'(id).task == ans(id).task
    ensures SavePhase(p, ids, ans') == SavePhase(p, ids, ans)
  {
    if ids != [] {
      var n := |ids| - 1;
      SaveCheckedOnce(p, ids[..n], ans, ans', id);
      SavePhaseFrame(p, ids[..n], ans);
    }
  }

  /** A failing save-condition check changes nothing and submits nothing;
      a passing one clears the layer's pending check. */
  lemma SaveCheckOutcome(p: Progress, id: LayerId, a: SaveAnswer)
    requires !p.canceled && id in p.store.checkPending
    ensures !a.saveConditionsOk ==> SaveItem(p, id, a) == p
    ensures a.saveConditionsOk ==> id !in SaveItem(p, id, a).store.checkPending && |SaveItem(p, id, a).submitted| == |p.submitted| + 1
  {
  }

  // ------------------------------------------------------------ job order

  /** The jobs of `phase` for the layers of `ids` whose decision in `go` is
      true, in list order. */
  function Chosen(phase: Phase, ids: seq<LayerId>, go: seq<bool>): seq<Job>
    requires |go| == |ids|
    decreases |ids|
  {
    if ids == [] then []
    else
      var n := |ids| - 1;
      Chosen(phase, ids[..n], go[..n]) + (if go[n] then [Job(phase, ids[n])] else [])
  }

  /** Every chosen job is of the phase and for a layer of the list. */
  lemma {:induction false} ChosenLayers(phase: Phase, ids: seq<LayerId>, go: seq<bool>)
    requires |go| == |ids|
    ensures forall k :: 0 <= k < |Chosen(phase, ids, go)| ==>
      Chosen(phase, ids, go)[k].phase == phase && Chosen(phase, ids, go)[k].layer in ids
  {
    if ids != [] {
      var n := |ids| - 1;
      ChosenLayers(phase, ids[..n], go[..n]);
      var js' := Chosen(phase, ids[..n], go[..n]);
      var js := js' + (if go[n] then [Job(phase, ids[n])] else []);
      assert Chosen(phase, ids, go) == js;
      forall k | 0 <= k < |js| ensures js[k].phase == phase && js[k].layer in ids {
        if k < |js'| {
          assert js'[k].layer in ids[..n];
          assert js[k] == js'[k];
        }
      }
    }
  }

  /** Over distinct layers, a layer's job is chosen exactly when it is decided for. */
  lemma {:induction false} ChosenMembers(phase: Phase, ids: seq<LayerId>, go: seq<bool>)
    requires |go| == |ids| && Distinct(ids)
    ensures forall j :: 0 <= j < |ids| ==> (Job(phase, ids[j]) in Chosen(phase, ids, go) <==> go[j])
  {
    if ids != [] {
      var n := |ids| - 1;
      var pre, last := ids[..n], ids[n];
      assert Distinct(pre);
      ChosenMembers(phase, pre, go[..n]);
      ChosenLayers(phase, pre, go[..n]);
      var js' := Chosen(phase, pre, go[..n]);
      var js := js' + (if go[n] then [Job(phase, last)] else []);
      assert last !in pre;
      forall j | 0 <= j < |ids| ensures Job(phase, ids[j]) in js <==> go[j] {
        if j < n {
          assert ids[j] == pre[j] && go[j] == go[..n][j] && ids[j] != last;
        } else {
          assert Job(phase, last) !in js';
        }
      }
    }
  }

  /** The jobs of `js` are for layers of `ids`, each later job for a later layer. */
  predicate InListOrder(phase: Phase, js: seq<Job>, ids: seq<LayerId>)
  {
    forall a, b :: 0 <= a < b < |js| ==>
      exists i, j :: 0 <= i < j < |ids| && js[a] == Job(phase, ids[i]) && js[b] == Job(phase, ids[j])
  }

  predicate NoRepeats(js: seq<Job>)
  {
    forall a, b :: 0 <= a < b < |js| ==> js[a] != js[b]
  }

  /** Over distinct layers the chosen jobs follow the order of the list,
      and no job is chosen twice. */
  lemma {:induction false} ChosenInOrder(phase: Phase, ids: seq<LayerId>, go: seq<bool>)
    requires |go| == |ids| && Distinct(ids)
    ensures InListOrder(phase, Chosen(phase, ids, go), ids)
    ensures NoRepeats(Chosen(phase, ids, go))
  {
    if ids != [] {
      var n := |ids| - 1;
      var pre := ids[..n];
      assert Distinct(pre);
      ChosenInOrder(phase, pre, go[..n]);
      ChosenLayers(phase, pre, go[..n]);
      var js' := Chosen(phase, pre, go[..n]);
      var js := js' + (if go[n] then [Job(phase, ids[n])] else []);
      assert Chosen(phase, ids, go) == js;
      assert forall k :: 0 <= k < |js'| ==> js[k] == js'[k];
      forall a, b | 0 <= a < b < |js|
        ensures exists i, j :: 0 <= i < j < |ids| && js[a] == Job(phase, ids[i]) && js[b] == Job(phase, ids[j])
      {
        assert js[a] == js'[a];
        if b < |js'| {
          var i, j :| 0 <= i < j < |pre| && js'[a] == Job(phase, pre[i]) && js'[b] == Job(phase, pre[j]);
          assert pre[i] == ids[i] && pre[j] == ids[j] && js[b] == js'[b];
        } else {
          assert js'[a].layer in pre;
          var i :| 0 <= i < n && pre[i] == js'[a].layer;
          assert js[a] == Job(phase, ids[i]) && js[b] == Job(phase, ids[n]);
        }
      }
      assert forall a, b :: 0 <= a < b < |js| ==>
        exists i, j :: 0 <= i < j < |ids| && js[a] == Job(phase, ids[i]) && js[b] == Job(phase, ids[j]);
      assert InListOrder(phase, js, ids);
      forall a, b | 0 <= a < b < |js| ensures js[a] != js[b] {
        var i, j :| 0 <= i < j < |ids| && js[a] == Job(phase, ids[i]) && js[b] == Job(phase, ids[j]);
      }
    }
  }

  /** Whether each upload of `ids` goes ahead, from the flag at the start
      and the press. */
  function UploadDecisions(canceled: bool, ids: seq<LayerId>, ans: LayerId -> UploadAnswer, press: CancelPress): seq<bool>
  {
    seq(|ids|, j requires 0 <= j < |ids| => UploadSubmits(canceled || PressedBy(press, j), ans(ids[j])))
  }

  /** The upload phase hands the worker the jobs of the layers whose upload
      goes ahead, in list order. */
  lemma {:induction false} UploadPhaseJobOrder(p: Progress, ids: seq<LayerId>, ans: LayerId -> UploadAnswer, press: CancelPress)
    ensures UploadPhase(p, ids, ans, press).submitted ==
      p.submitted + Chosen(Upload, ids, UploadDecisions(p.canceled, ids, ans, press))
  {
    if ids != [] {
      var n := |ids| - 1;
      UploadPhaseJobOrder(p, ids[..n], ans, press);
      UploadPhaseFrame(p, ids[..n], ans, press);
      var q' := PressAt(UploadPhase(p, ids[..n], ans, press), n, press);
      assert q'.canceled == (p.canceled || PressedBy(press, n));
      assert UploadDecisions(p.canceled, ids, ans, press)[..n] == UploadDecisions(p.canceled, ids[..n], ans, press);
    }
  }

  /** Whether each save of `ids` goes ahead, from the flag and the pending
      checks at the start. */
  function SaveDecisions(pending: set<LayerId>, canceled: bool, ids: seq<LayerId>, ans: LayerId -> SaveAnswer): seq<bool>
  {
    seq(|ids|, j requires 0 <= j < |ids| => SaveSubmits(canceled, ids[j] in pending, ans(ids[j])))
  }

  /** The save phase hands the worker the jobs of the layers whose save
      goes ahead, in list order. */
  lemma {:induction false} SavePhaseJobOrder(p: Progress, ids: seq<LayerId>, ans: LayerId -> SaveAnswer)
    requires Distinct(ids)
    ensures SavePhase(p, ids, ans).submitted ==
      p.submitted + Chosen(Save, ids, SaveDecisions(p.store.checkPending, p.canceled, ids, ans))
  {
    if ids != [] {
      var n := |ids| - 1;
      assert Distinct(ids[..n]);
      SavePhaseJobOrder(p, ids[..n], ans);
      SavePhaseChecks(p, ids[..n], ans);
      SavePhaseFrame(p, ids[..n], ans);
      assert ids[n] !in ids[..n];
      assert SaveDecisions(p.store.checkPending, p.canceled, ids, ans)[..n] ==
             SaveDecisions(p.store.checkPending, p.canceled, ids[..n], ans);
    }
  }

  /** The upload phase notifies about its layers one after the other, in
      list order: a later upload state is never about an earlier layer. */
  lemma {:induction false} UploadEventOrder(p: Progress, ids: seq<LayerId>, ans: LayerId -> UploadAnswer, press: CancelPress)
    ensures var h := UploadPhase(p, ids, ans, press).store.history; var m := |p.store.history|;
      && p.store.history <= h
      && (forall k :: m <= k < |h| && h[k].UploadStateSet? ==> h[k].layer in ids)
      && (forall k1, k2 :: m <= k1 < k2 < |h| && h[k1].UploadStateSet? && h[k2].UploadStateSet? ==>
            exists i, j :: 0 <= i <= j < |ids| && h[k1].layer == ids[i] && h[k2].layer == ids[j])
  {
    if ids != [] {
      var n := |ids| - 1;
      var pre := ids[..n];
      UploadEventOrder(p, pre, ans, press);
      UploadPhaseFrame(p, pre, ans, press);
      var q := UploadPhase(p, pre, ans, press);
      var q' := PressAt(q, n, press);
      var h := UploadItem(q', ids[n], ans(ids[n])).store.history;
      var m := |p.store.history|;
      assert q.store.history <= q'.store.history < h;
      assert |q'.store.history| == |q.store.history| || q'.store.history[|q.store.history|] == ModeSet(EditingData);
      assert forall k :: m <= k < |q.store.history| ==> h[k] == q.store.history[k];
      forall k | m <= k < |h| && h[k].UploadStateSet? ensures h[k].layer in ids {
        if k < |q.store.history| {
          assert h[k].layer in pre;
        }
      }
      forall k1, k2 | m <= k1 < k2 < |h| && h[k1].UploadStateSet? && h[k2].UploadStateSet?
        ensures exists i, j :: 0 <= i <= j < |ids| && h[k1].layer == ids[i] && h[k2].layer == ids[j]
      {
        if k2 < |q.store.history| {
          var i, j :| 0 <= i <= j < |pre| && h[k1].layer == pre[i] && h[k2].layer == pre[j];
          assert pre[i] == ids[i] && pre[j] == ids[j];
        } else if k1 < |q.store.history| {
          var i :| 0 <= i < n && pre[i] == h[k1].layer;
          assert h[k1].layer == ids[i] && h[k2].layer == ids[n];
        } else {
          assert h[k1].layer == ids[n] && h[k2].layer == ids[n];
        }
      }
    }
  }

  /** The save phase notifies about its layers one after the other, in list
      order: a later save state is never about an earlier layer. */
  lemma {:induction false} SaveEventOrder(p: Progress, ids: seq<LayerId>, ans: LayerId -> SaveAnswer)
    ensures var h := SavePhase(p, ids, ans).store.history; var m := |p.store.history|;
      && p.store.history <= h
      && (forall k :: m <= k < |h| && h[k].SaveStateSet? ==> h[k].layer in ids)
      && (forall k1, k2 :: m <= k1 < k2 < |h| && h[k1].SaveStateSet? && h[k2].SaveStateSet? ==>
            exists i, j :: 0 <= i <= j < |ids| && h[k1].layer == ids[i] && h[k2].layer == ids[j])
  {
    if ids != [] {
      var n := |ids| - 1;
      var pre := ids[..n];
      SaveEventOrder(p, pre, ans);
      var q := SavePhase(p, pre, ans);
      var h := SaveItem(q, ids[n], ans(ids[n])).store.history;
      var m := |p.store.history|;
      assert forall k :: m <= k < |q.store.history| ==> h[k] == q.store.history[k];
      forall k | m <= k < |h| && h[k].SaveStateSet? ensures h[k].layer in ids {
        if k < |q.store.history| {
          assert h[k].layer in pre;
        }
      }
      forall k1, k2 | m <= k1 < k2 < |h| && h[k1].SaveStateSet? && h[k2].SaveStateSet?
        ensures exists i, j :: 0 <= i <= j < |ids| && h[k1].layer == ids[i] && h[k2].layer == ids[j]
      {
        if k2 < |q.store.history| {
          var i, j :| 0 <= i <= j < |pre| && h[k1].layer == pre[i] && h[k2].layer == pre[j];
          assert pre[i] == ids[i] && pre[j] == ids[j];
        } else if k1 < |q.store.history| {
          var i :| 0 <= i < n && pre[i] == h[k1].layer;
          assert h[k1].layer == ids[i] && h[k2].layer == ids[n];
        } else {
          assert h[k1].layer == ids[n] && h[k2].layer == ids[n];
        }
      }
    }
  }
}
