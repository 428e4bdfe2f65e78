/** The dialog's table model (SaveLayersModel): the rows to process, one
    upload and one save state per layer, the one-shot "check save
    conditions" flags, the mode, and the notifications it has sent. */
module LayersModel {
  import opened SaveLayerTypes

  predicate WantsUpload(e: LayerEntry) { e.doUpload }
  predicate WantsSave(e: LayerEntry) { e.doSave }
  predicate UploadWithConflicts(e: LayerEntry) { e.doUpload && e.hasConflicts }
  predicate SaveWithoutFile(e: LayerEntry) { e.doSave && e.file == NoFile }
  predicate SaveToIllegalFile(e: LayerEntry) { e.doSave && e.file == NotWritable }

  /** The ids of the entries that satisfy `f`, in table order. */
  function Select(es: seq<LayerEntry>, f: LayerEntry -> bool): (ids: seq<LayerId>)
    ensures |ids| <= |es|
    ensures forall id :: id in ids <==> exists i :: 0 <= i < |es| && es[i].id == id && f(es[i])
    ensures ids == [] <==> forall i :: 0 <= i < |es| ==> !f(es[i])
  {
    if es == [] then []
    else
      var rest := Select(es[1..], f);
      assert forall i :: 0 < i < |es| ==> es[i] == es[1..][i - 1];
      assert forall i :: 0 <= i < |es[1..]| ==> es[1..][i] == es[i + 1];
      if f(es[0]) then [es[0].id] + rest else rest
  }

  /** The state written for a layer, None when none was written (null). */
  function Get(m: map<LayerId, UploadOrSaveState>, id: LayerId): Option<UploadOrSaveState>
  {
    if id in m then Some(m[id]) else None
  }

  predicate Distinct(ids: seq<LayerId>)
  {
    forall i, j :: 0 <= i < j < |ids| ==> ids[i] != ids[j]
  }

  function Ids(es: seq<LayerEntry>): seq<LayerId>
  {
    if es == [] then [] else [es[0].id] + Ids(es[1..])
  }

  /** Selecting from entries with distinct ids gives distinct ids. */
  lemma {:induction false} SelectDistinct(es: seq<LayerEntry>, f: LayerEntry -> bool)
    requires Distinct(Ids(es))
    ensures Distinct(Select(es, f))
  {
    if es != [] {
      assert Ids(es) == [es[0].id] + Ids(es[1..]);
      assert Distinct(Ids(es[1..])) by {
        forall i, j | 0 <= i < j < |Ids(es[1..])|
          ensures Ids(es[1..])[i] != Ids(es[1..])[j]
        {
          assert Ids(es[1..])[i] == Ids(es)[i + 1];
          assert Ids(es[1..])[j] == Ids(es)[j + 1];
        }
      }
      SelectDistinct(es[1..], f);
      IdsSpan(es);
      var rest := Select(es[1..], f);
      forall k | 0 <= k < |rest| ensures rest[k] != es[0].id {
        assert rest[k] in rest;
        var i :| 0 <= i < |es[1..]| && es[1..][i].id == rest[k] && f(es[1..][i]);
        assert es[1..][i] == es[i + 1];
      }
    }
  }

  /** Every entry id after the first differs from the first. */
  lemma {:induction false} IdsSpan(es: seq<LayerEntry>)
    requires es != [] && Distinct(Ids(es))
    ensures forall i :: 0 < i < |es| ==> es[i].id != es[0].id
  {
    IdsAt(es);
    forall i | 0 < i < |es| ensures es[i].id != es[0].id {
      assert Ids(es)[i] == es[i].id && Ids(es)[0] == es[0].id;
    }
  }

  lemma {:induction false} IdsAt(es: seq<LayerEntry>)
    ensures |Ids(es)| == |es|
    ensures forall i :: 0 <= i < |es| ==> Ids(es)[i] == es[i].id
  {
    if es != [] {
      IdsAt(es[1..]);
      assert forall i :: 0 < i < |es| ==> Ids(es)[i] == Ids(es[1..])[i - 1];
    }
  }

  datatype Store = Store(
    entries: seq<LayerEntry>,
    upload: map<LayerId, UploadOrSaveState>,
    save: map<LayerId, UploadOrSaveState>,
    checkPending: set<LayerId>,
    mode: Mode,
    history: seq<Event>)
  {
    /** The effect of one setMode / setUploadState / setSaveState call. */
    function Apply(e: Event): (s: Store)
    {
      match e
      case ModeSet(m) => this.(mode := m, history := history + [e])
      case UploadStateSet(id, st) => this.(upload := upload[id := st], history := history + [e])
      case SaveStateSet(id, st) => this.(save := save[id := st], history := history + [e])
    }

    /** getLayersToUpload: the entries marked for upload, in table order. */
    function LayersToUpload(): seq<LayerId> { Select(entries, WantsUpload) }

    /** getLayersToSave: the entries marked for saving, in table order. */
    function LayersToSave(): seq<LayerId> { Select(entries, WantsSave) }

    function LayersWithConflictsAndUploadRequest(): seq<LayerId> { Select(entries, UploadWithConflicts) }
    function LayersWithoutFilesAndSaveRequest(): seq<LayerId> { Select(entries, SaveWithoutFile) }
    function LayersWithIllegalFilesAndSaveRequest(): seq<LayerId> { Select(entries, SaveToIllegalFile) }

    /** An entry still has unsaved data when a slot it asks for is not OK. */
    predicate Unsaved(e: LayerEntry)
    {
      (e.doUpload && (e.id !in upload || upload[e.id] != Ok)) ||
      (e.doSave && (e.id !in save || save[e.id] != Ok))
    }

    predicate HasUnsavedData()
    {
      exists i :: 0 <= i < |entries| && Unsaved(entries[i])
    }

    predicate HasState(e: LayerEntry, st: UploadOrSaveState)
    {
      (e.id in upload && upload[e.id] == st) || (e.id in save && save[e.id] == st)
    }

    /** The number of entries among `es` with a slot in state `st`. */
    function CountState(es: seq<LayerEntry>, st: UploadOrSaveState): nat
    {
      if es == [] then 0 else (if HasState(es[0], st) then 1 else 0) + CountState(es[1..], st)
    }

    function NumCancel(): nat { CountState(entries, Canceled) }
    function NumFailed(): nat { CountState(entries, Failed) }

    /** States are written only to the slots an entry asks for. */
    predicate Consistent()
    {
      forall i :: 0 <= i < |entries| ==>
        (entries[i].id in upload ==> entries[i].doUpload) &&
        (entries[i].id in save ==> entries[i].doSave)
    }
  }

  /** The table right after populate: no state written, every save check pending. */
  function Populated(entries: seq<LayerEntry>, mode: Mode, history: seq<Event>): (s: Store)
    ensures s.Consistent()
    ensures s.Consistent() && !s.HasUnsavedData() <==> forall i :: 0 <= i < |entries| ==> !entries[i].doUpload && !entries[i].doSave
    ensures forall i :: 0 <= i < |entries| ==> entries[i].id in s.checkPending
  {
    var s := Store(entries, map[], map[], set e | e in entries :: e.id, mode, history);
    assert forall i :: 0 <= i < |entries| ==> (s.Unsaved(entries[i]) <==> entries[i].doUpload || entries[i].doSave);
    s
  }

  /** In a consistent table without unsaved data nothing was canceled or failed. */
  lemma {:induction false} NoProblemsWithoutUnsavedData(s: Store, es: seq<LayerEntry>, st: UploadOrSaveState)
    requires st != Ok
    requires forall e :: e in es ==> !s.Unsaved(e)
    requires forall e :: e in es ==> (e.id in s.upload ==> e.doUpload) && (e.id in s.save ==> e.doSave)
    ensures s.CountState(es, st) == 0
  {
    if es != [] {
      assert es[0] in es;
      assert forall e :: e in es[1..] ==> e in es;
      NoProblemsWithoutUnsavedData(s, es[1..], st);
    }
  }

  /** The counters read only the state maps. */
  lemma {:induction false} CountSameStates(s: Store, t: Store, es: seq<LayerEntry>, st: UploadOrSaveState)
    requires s.upload == t.upload && s.save == t.save
    ensures s.CountState(es, st) == t.CountState(es, st)
  {
    if es != [] {
      CountSameStates(s, t, es[1..], st);
    }
  }

  /** Whether data is unsaved depends on the entries and their states only. */
  lemma UnsavedSameStates(s: Store, t: Store)
    requires s.entries == t.entries && s.upload == t.upload && s.save == t.save
    ensures s.HasUnsavedData() == t.HasUnsavedData()
  {
    assert forall i :: 0 <= i < |s.entries| ==> (s.Unsaved(s.entries[i]) <==> t.Unsaved(t.entries[i]));
  }

  /** A problem count of zero means: no entry has a slot in that state. */
  lemma {:induction false} CountZeroIff(s: Store, es: seq<LayerEntry>, st: UploadOrSaveState)
    ensures s.CountState(es, st) == 0 <==> forall i :: 0 <= i < |es| ==> !s.HasState(es[i], st)
  {
    if es != [] {
      CountZeroIff(s, es[1..], st);
      assert forall i :: 0 < i < |es| ==> es[i] == es[1..][i - 1];
      assert forall i :: 0 <= i < |es[1..]| ==> es[1..][i] == es[i + 1];
    }
  }

  /** Whether the dialog's Save/Upload and Discard actions are enabled in a mode. */
  function ActionsEnabled(m: Mode): (enabled: bool)
    ensures enabled <==> m != UploadingAndSaving
  {
    match m
    case EditingData => true
    case UploadingAndSaving => false
  }

  /** The table model as an object whose setters the orchestrator calls. */
  class SaveLayersModel {
    var entries: seq<LayerEntry>
    var upload: map<LayerId, UploadOrSaveState>
    var save: map<LayerId, UploadOrSaveState>
    var checkPending: set<LayerId>
    var mode: Mode
    var history: seq<Event>

    function State(): Store
      reads this
    {
      Store(entries, upload, save, checkPending, mode, history)
    }

    constructor ()
      ensures State() == Store([], map[], map[], {}, EditingData, [])
    {
      entries, upload, save, checkPending := [], map[], map[], {};
      mode, history := EditingData, [];
    }

    /** populate: installs the rows; states are unwritten, save checks pending. */
    method Populate(es: seq<LayerEntry>)
      modifies this
      ensures State() == Populated(es, old(mode), old(history))
    {
      entries, upload, save := es, map[], map[];
      checkPending := set e | e in es :: e.id;
    }

    method SetMode(m: Mode)
      modifies this
      ensures State() == old(State()).Apply(ModeSet(m))
    {
      mode := m;
      history := history + [ModeSet(m)];
    }

    method SetUploadState(id: LayerId, st: UploadOrSaveState)
      modifies this
      ensures State() == old(State()).Apply(UploadStateSet(id, st))
    {
      upload := upload[id := st];
      history := history + [UploadStateSet(id, st)];
    }

    method SetSaveState(id: LayerId, st: UploadOrSaveState)
      modifies this
      ensures State() == old(State()).Apply(SaveStateSet(id, st))
    {
      save := save[id := st];
      history := history + [SaveStateSet(id, st)];
    }

    /** setDoCheckSaveConditions(false) on the layer's row. */
    method ClearSaveCheck(id: LayerId)
      modifies this
      ensures State() == old(State()).(checkPending := old(checkPending) - {id})
    {
      checkPending := checkPending - {id};
    }
  }
}
