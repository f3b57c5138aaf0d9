/** Uploads, version uploads, deletions and sweeps over the two stores, the files table and the
    bucket, in any interleaving of their single transactions and storage calls. */
module FileWorld {
  import opened FileTable
  import opened FolderTree
  import opened Text

  type RequestId = nat
  type SweepId = nat

  /** What the bucket holds under a key: the sizes of the versions it keeps, and whether the key is
      there or under a delete marker. The key is the file's id. */
  datatype Object = Object(history: seq<nat>, there: bool)

  /** How far a request has come. A put that returned no version id has `stored == None`. */
  datatype Stage =
    | Claimed(file: FileId)
    | Written(file: FileId, stored: Option<Stored>)
    | Failed(file: FileId)
    | Cleaning(file: FileId)
    | Checked(file: FileId, size: nat)
    | Appending(file: FileId, size: nat, written: Stored)

  datatype Sweeping = Selected(ids: set<FileId>) | Removing(ids: set<FileId>)

  datatype World = World(rows: Rows, objects: map<FileId, Object>, uploads: map<RequestId, Stage>,
                         sweeps: map<SweepId, Sweeping>)

  const EMPTY: World := World([], map[], map[], map[])

  datatype Action =
    | Reserve(request: RequestId, owner: Sub, place: Place, bytes: nat, now: Stamp)
    | Put(request: RequestId, versioned: bool)
    | PutFails(request: RequestId, kept: bool)
    | Finalize(request: RequestId)
    | Abandon(request: RequestId)
    | RemoveBytes(request: RequestId)
    | CheckVersion(request: RequestId, file: FileId, bytes: nat)
    | PutVersion(request: RequestId, versioned: bool)
    | AddVersion(request: RequestId)
    | AppendVersion(file: FileId, bytes: nat, versioned: bool)
    | Dies(request: RequestId)
    | Move(file: FileId, place: Place)
    | SoftDelete(file: FileId)
    | Sweep(job: SweepId, cutoff: Stamp)
    | SweepSelects(job: SweepId, cutoff: Stamp)
    | SweepDeletes(job: SweepId)
    | SweepRemoves(job: SweepId, key: FileId)

  // ---------- steps ----------

  function PutBytes(objects: map<FileId, Object>, f: FileId, size: nat, versioned: bool): map<FileId, Object> {
    var history := if f in objects then objects[f].history else [];
    objects[f := Object(if versioned then history + [size] else history, true)]
  }

  /** The version id that the put returns. */
  function PutId(objects: map<FileId, Object>, f: FileId): Stored {
    if f in objects then |objects[f].history| else 0
  }

  function RemoveObject(objects: map<FileId, Object>, f: FileId): map<FileId, Object> {
    if f in objects then objects[f := objects[f].(there := false)] else objects
  }

  predicate At(w: World, r: RequestId) {
    r in w.uploads
  }

  function SizeOf(w: World, f: FileId): nat {
    if There(w.rows, f) then w.rows[f].value.size else 0
  }

  /** The check of `_append_version`. */
  predicate VersionFits(w: World, f: FileId, size: nat, quota: nat)
    requires There(w.rows, f)
  {
    UsedBytes(w.rows, w.rows[f].value.owner) - w.rows[f].value.size + size <= quota
  }

  predicate Enabled(w: World, a: Action) {
    match a
    case Reserve(r, _, _, _, _) => r !in w.uploads
    case Put(r, _) => At(w, r) && w.uploads[r].Claimed?
    case PutFails(r, _) => At(w, r) && w.uploads[r].Claimed?
    case Finalize(r) => At(w, r) && w.uploads[r].Written? && w.uploads[r].stored.Some?
    case Abandon(r) => At(w, r) && (w.uploads[r].Failed? || (w.uploads[r].Written? && w.uploads[r].stored.None?))
    case RemoveBytes(r) => At(w, r) && w.uploads[r].Cleaning?
    case CheckVersion(r, f, _) => r !in w.uploads && Ready(w.rows, f) && !w.rows[f].value.trashed
    case PutVersion(r, _) => At(w, r) && w.uploads[r].Checked?
    case AddVersion(r) => At(w, r) && w.uploads[r].Appending?
    case AppendVersion(f, _, _) => Ready(w.rows, f) && !w.rows[f].value.trashed
    case Dies(r) => At(w, r)
    case Move(f, place) => CanMove(w.rows, f, place)
    case SoftDelete(f) => Ready(w.rows, f)
    case Sweep(j, _) => j !in w.sweeps
    case SweepSelects(j, _) => j !in w.sweeps
    case SweepDeletes(j) => j in w.sweeps && w.sweeps[j].Selected?
    case SweepRemoves(j, key) => j in w.sweeps && w.sweeps[j].Removing? && key in w.sweeps[j].ids
  }

  function Enter(w: World, r: RequestId, stage: Stage): World {
    w.(uploads := w.uploads[r := stage])
  }

  function Quit(w: World, r: RequestId): World {
    w.(uploads := w.uploads - {r})
  }

  function WriteRow(w: World, f: FileId, row: Row): World
    requires f < |w.rows|
  {
    w.(rows := w.rows[f := Some(row)])
  }

  function Landed(w: World, f: FileId, stored: Stored, size: nat): World {
    if There(w.rows, f) then WriteRow(w, f, WithVersion(w.rows[f].value, stored, size)) else w
  }

  function Step(w: World, a: Action, quota: nat): World
    requires Enabled(w, a)
  {
    match a
    case Reserve(r, o, place, size, now) =>
      if UsedBytes(w.rows, o) + size > quota then w
      else Enter(w.(rows := Reserved(w.rows, o, place, size, now)), r, Claimed(|w.rows|))
    case Put(r, versioned) =>
      var f := w.uploads[r].file;
      var id := PutId(w.objects, f);
      Enter(w.(objects := PutBytes(w.objects, f, SizeOf(w, f), versioned)), r,
            Written(f, if versioned then Some(id) else None))
    case PutFails(r, kept) =>
      var f := w.uploads[r].file;
      Enter(if kept then w.(objects := PutBytes(w.objects, f, SizeOf(w, f), true)) else w, r, Failed(f))
    case Finalize(r) =>
      var f, id := w.uploads[r].file, w.uploads[r].stored.value;
      Quit(if CanFinalize(w.rows, f, id) then w.(rows := Finalized(w.rows, f, id)) else w, r)
    case Abandon(r) =>
      var f := w.uploads[r].file;
      var w' := w.(rows := Deleted(w.rows, {f}));
      if w.uploads[r].Written? then Enter(w', r, Cleaning(f)) else Quit(w', r)
    case RemoveBytes(r) => Quit(w.(objects := RemoveObject(w.objects, w.uploads[r].file)), r)
    case CheckVersion(r, f, size) => if VersionFits(w, f, size, quota) then Enter(w, r, Checked(f, size)) else w
    case PutVersion(r, versioned) =>
      var f, size := w.uploads[r].file, w.uploads[r].size;
      var w' := w.(objects := PutBytes(w.objects, f, size, versioned));
      if versioned then Enter(w', r, Appending(f, size, PutId(w.objects, f))) else Quit(w', r)
    case AddVersion(r) => Quit(Landed(w, w.uploads[r].file, w.uploads[r].written, w.uploads[r].size), r)
    case AppendVersion(f, size, versioned) =>
      if !VersionFits(w, f, size, quota) then w
      else
        var w' := w.(objects := PutBytes(w.objects, f, size, versioned));
        if versioned then Landed(w', f, PutId(w.objects, f), size) else w'
    case Dies(r) => Quit(w, r)
    case Move(f, place) => WriteRow(w, f, w.rows[f].value.(place := place))
    case SoftDelete(f) => WriteRow(w, f, w.rows[f].value.(trashed := true))
    case Sweep(j, cutoff) =>
      var stale := Stale(w.rows, cutoff);
      w.(rows := Deleted(w.rows, stale), sweeps := w.sweeps[j := Removing(stale)])
    case SweepSelects(j, cutoff) => w.(sweeps := w.sweeps[j := Selected(Stale(w.rows, cutoff))])
    case SweepDeletes(j) =>
      w.(rows := Deleted(w.rows, w.sweeps[j].ids), sweeps := w.sweeps[j := Removing(w.sweeps[j].ids)])
    case SweepRemoves(j, key) =>
      w.(objects := RemoveObject(w.objects, key), sweeps := w.sweeps[j := Removing(w.sweeps[j].ids - {key})])
  }

  // ---------- the invariant ----------

  /** The bucket still keeps this version, with its size. */
  predicate Kept(w: World, f: FileId, stored: Stored, size: nat) {
    f in w.objects && stored < |w.objects[f].history| && w.objects[f].history[stored] == size
  }

  predicate Present(w: World, f: FileId) {
    f in w.objects && w.objects[f].there
  }

  /** A ready row has its object, and the bucket keeps every version that it names. */
  ghost predicate RowSound(w: World, f: FileId)
    requires There(w.rows, f)
  {
    var row := w.rows[f].value;
    && WellVersioned(row)
    && (row.ready ==> Present(w, f))
    && (forall i :: 0 <= i < |row.versions| ==> Kept(w, f, row.versions[i].stored, row.versions[i].size))
  }

  ghost predicate RowsInv(w: World) {
    forall f: FileId :: There(w.rows, f) ==> RowSound(w, f)
  }

  predicate Gone(rows: Rows, f: FileId) {
    f < |rows| && rows[f].None?
  }

  /** Requests in these stages are the only ones that may make the file ready or delete it. */
  predicate Owns(stage: Stage) {
    stage.Claimed? || stage.Written? || stage.Failed? || stage.Cleaning?
  }

  predicate StageSound(w: World, stage: Stage) {
    match stage
    case Claimed(f) => f < |w.rows| && !Ready(w.rows, f)
    case Written(f, stored) =>
      && f < |w.rows| && !Ready(w.rows, f)
      && (stored.Some? && There(w.rows, f) ==> Present(w, f) && Kept(w, f, stored.value, w.rows[f].value.size))
    case Failed(f) => f < |w.rows| && !Ready(w.rows, f)
    case Cleaning(f) => Gone(w.rows, f)
    case Checked(f, size) => Gone(w.rows, f) || Ready(w.rows, f)
    case Appending(f, size, written) => (Gone(w.rows, f) || Ready(w.rows, f)) && Kept(w, f, written, size)
  }

  ghost predicate UploadsInv(w: World) {
    forall r :: r in w.uploads ==> StageSound(w, w.uploads[r])
  }

  predicate OwnedBy(w: World, r: RequestId, f: FileId) {
    r in w.uploads && Owns(w.uploads[r]) && w.uploads[r].file == f
  }

  ghost predicate OneOwner(w: World) {
    forall r, s, f: FileId :: OwnedBy(w, r, f) && OwnedBy(w, s, f) ==> r == s
  }

  ghost predicate SweepSound(rows: Rows, sweep: Sweeping) {
    forall f: FileId :: f in sweep.ids ==> f < |rows| && (sweep.Removing? ==> Gone(rows, f))
  }

  ghost predicate SweepsInv(w: World) {
    forall j :: j in w.sweeps ==> SweepSound(w.rows, w.sweeps[j])
  }

  ghost predicate Inv(w: World) {
    RowsInv(w) && UploadsInv(w) && OneOwner(w) && SweepsInv(w)
  }

  // ---------- what single changes keep ----------

  lemma EnterKeeps(w: World, r: RequestId, stage: Stage)
    requires Inv(w) && StageSound(w, stage)
    requires Owns(stage) ==> forall s :: OwnedBy(w, s, stage.file) ==> s == r
    ensures Inv(Enter(w, r, stage))
  {
    hide WellVersioned;
    var w' := Enter(w, r, stage);
    assert forall f: FileId :: There(w'.rows, f) ==> RowSound(w, f);
    forall s, q, f: FileId | OwnedBy(w', s, f) && OwnedBy(w', q, f) ensures s == q {
      assert s != r ==> OwnedBy(w, s, f);
      assert q != r ==> OwnedBy(w, q, f);
    }
    forall s | s in w'.uploads ensures StageSound(w', w'.uploads[s]) {
      assert StageSound(w, w'.uploads[s]);
    }
  }

  lemma QuitKeeps(w: World, r: RequestId)
    requires Inv(w)
    ensures Inv(Quit(w, r))
    ensures forall s, f: FileId :: OwnedBy(Quit(w, r), s, f) <==> OwnedBy(w, s, f) && s != r
  {
    hide WellVersioned;
    var w' := Quit(w, r);
    assert forall f: FileId :: There(w'.rows, f) ==> RowSound(w, f);
    forall s | s in w'.uploads ensures StageSound(w', w'.uploads[s]) {
      assert StageSound(w, w'.uploads[s]);
    }
    assert forall s, f: FileId :: OwnedBy(w', s, f) ==> OwnedBy(w, s, f);
  }

  /** Nothing that was kept is lost by a put, and the put itself is kept under its id. */
  lemma PutKeeps(w: World, f: FileId, size: nat, versioned: bool)
    requires Inv(w)
    ensures var w' := w.(objects := PutBytes(w.objects, f, size, versioned));
      Inv(w') && Present(w', f) && (versioned ==> Kept(w', f, PutId(w.objects, f), size))
  {
    hide WellVersioned;
    var w' := w.(objects := PutBytes(w.objects, f, size, versioned));
    forall g: FileId, id: Stored, n: nat | Kept(w, g, id, n) ensures Kept(w', g, id, n) {}
    forall g: FileId | There(w'.rows, g) ensures RowSound(w', g) {
      assert RowSound(w, g);
    }
    forall r | r in w'.uploads ensures StageSound(w', w'.uploads[r]) {
      assert StageSound(w, w.uploads[r]);
    }
    assert forall r, g: FileId :: OwnedBy(w', r, g) ==> OwnedBy(w, r, g);
  }

  lemma RemoveKeeps(w: World, f: FileId)
    requires Inv(w) && Gone(w.rows, f)
    ensures Inv(w.(objects := RemoveObject(w.objects, f)))
  {
    hide WellVersioned;
    var w' := w.(objects := RemoveObject(w.objects, f));
    forall g: FileId, id: Stored, n: nat | Kept(w, g, id, n) ensures Kept(w', g, id, n) {}
    forall g: FileId | There(w'.rows, g) ensures RowSound(w', g) {
      assert RowSound(w, g);
    }
    forall r | r in w'.uploads ensures StageSound(w', w'.uploads[r]) {
      assert StageSound(w, w.uploads[r]);
    }
    assert forall r, g: FileId :: OwnedBy(w', r, g) ==> OwnedBy(w, r, g);
  }

  lemma DeleteKeeps(w: World, ids: set<FileId>)
    requires Inv(w)
    ensures Inv(w.(rows := Deleted(w.rows, ids)))
  {
    hide WellVersioned;
    var w' := w.(rows := Deleted(w.rows, ids));
    forall g: FileId | There(w'.rows, g) ensures RowSound(w', g) {
      assert There(w.rows, g) && RowSound(w, g);
    }
    forall r | r in w'.uploads ensures StageSound(w', w'.uploads[r]) {
      assert StageSound(w, w.uploads[r]);
    }
    assert forall r, g: FileId :: OwnedBy(w', r, g) ==> OwnedBy(w, r, g);
  }

  lemma ReserveKeeps(w: World, o: Sub, place: Place, size: nat, now: Stamp)
    requires Inv(w)
    ensures var w' := w.(rows := Reserved(w.rows, o, place, size, now));
      Inv(w') && !Ready(w'.rows, |w.rows|) && forall r :: !OwnedBy(w', r, |w.rows|)
  {
    var w' := w.(rows := Reserved(w.rows, o, place, size, now));
    forall g: FileId | There(w'.rows, g) ensures RowSound(w', g) {
      assert g < |w.rows| ==> There(w.rows, g) && RowSound(w, g);
    }
    forall r | r in w'.uploads ensures StageSound(w', w'.uploads[r]) && w'.uploads[r].file < |w.rows| {
      assert StageSound(w, w.uploads[r]);
    }
    assert forall r, g: FileId :: OwnedBy(w', r, g) ==> OwnedBy(w, r, g);
  }

  /** A row may be rewritten as long as it does not stop or start being ready under its owner. */
  lemma WriteKeeps(w: World, f: FileId, row: Row)
    requires Inv(w) && There(w.rows, f)
    requires w.rows[f].value.ready || forall r :: !OwnedBy(w, r, f)
    requires row.ready && Present(w, f) && WellVersioned(row)
    requires forall i :: 0 <= i < |row.versions| ==> Kept(w, f, row.versions[i].stored, row.versions[i].size)
    ensures Inv(WriteRow(w, f, row))
  {
    hide WellVersioned;
    var w' := WriteRow(w, f, row);
    forall g: FileId | There(w'.rows, g) ensures RowSound(w', g) {
      assert g != f ==> There(w.rows, g) && RowSound(w, g);
    }
    forall r | r in w'.uploads ensures StageSound(w', w'.uploads[r]) {
      assert StageSound(w, w.uploads[r]);
      assert OwnedBy(w, r, f) <==> Owns(w.uploads[r]) && w.uploads[r].file == f;
    }
    assert forall r, g: FileId :: OwnedBy(w', r, g) ==> OwnedBy(w, r, g);
  }

  lemma LandKeeps(w: World, f: FileId, stored: Stored, size: nat)
    requires Inv(w) && (Gone(w.rows, f) || Ready(w.rows, f)) && Kept(w, f, stored, size)
    ensures Inv(Landed(w, f, stored, size))
  {
    if There(w.rows, f) {
      assert RowSound(w, f);
      VersionKeepsOrder(w.rows[f].value, stored, size);
      WriteKeeps(w, f, WithVersion(w.rows[f].value, stored, size));
    }
  }

  lemma SweepKeeps(w: World, j: SweepId, sweep: Sweeping)
    requires Inv(w) && SweepSound(w.rows, sweep)
    ensures Inv(w.(sweeps := w.sweeps[j := sweep]))
  {
    hide WellVersioned;
    var w' := w.(sweeps := w.sweeps[j := sweep]);
    assert forall f: FileId :: There(w'.rows, f) ==> RowSound(w, f);
    forall r | r in w'.uploads ensures StageSound(w', w'.uploads[r]) {
      assert StageSound(w, w.uploads[r]);
    }
    assert forall r, g: FileId :: OwnedBy(w', r, g) ==> OwnedBy(w, r, g);
  }
}
