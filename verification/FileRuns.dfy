/** What holds of the files table and the bucket in every run: stored bytes, versions and quota. */
module FileRuns {
  import opened FileTable
  import opened FileWorld
  import opened FolderTree
  import opened Text

  // ---------- every step keeps the invariant ----------

  lemma UploadStepInv(w: World, a: Action, quota: nat)
    requires Inv(w) && Enabled(w, a)
    requires a.Reserve? || a.Put? || a.PutFails? || a.Abandon? || a.RemoveBytes? || a.Dies?
    ensures Inv(Step(w, a, quota))
  {
    hide RowsInv, OneOwner, SweepsInv;
    match a
    case Reserve(r, o, place, size, now) =>
      ReserveKeeps(w, o, place, size, now);
      if UsedBytes(w.rows, o) + size <= quota {
        EnterKeeps(w.(rows := Reserved(w.rows, o, place, size, now)), r, Claimed(|w.rows|));
      }
    case Put(r, versioned) =>
      var f, id := w.uploads[r].file, PutId(w.objects, w.uploads[r].file);
      assert StageSound(w, w.uploads[r]);
      PutKeeps(w, f, SizeOf(w, f), versioned);
      var w' := w.(objects := PutBytes(w.objects, f, SizeOf(w, f), versioned));
      OnlyOwner(w, r, f);
      SameOwners(w, w');
      EnterKeeps(w', r, Written(f, if versioned then Some(id) else None));
    case PutFails(r, kept) =>
      var f := w.uploads[r].file;
      assert StageSound(w, w.uploads[r]);
      PutKeeps(w, f, SizeOf(w, f), true);
      var w' := if kept then w.(objects := PutBytes(w.objects, f, SizeOf(w, f), true)) else w;
      OnlyOwner(w, r, f);
      SameOwners(w, w');
      EnterKeeps(w', r, Failed(f));
    case Abandon(r) =>
      var f := w.uploads[r].file;
      assert StageSound(w, w.uploads[r]);
      DeleteKeeps(w, {f});
      var w' := w.(rows := Deleted(w.rows, {f}));
      OnlyOwner(w, r, f);
      SameOwners(w, w');
      if w.uploads[r].Written? {
        EnterKeeps(w', r, Cleaning(f));
      } else {
        QuitKeeps(w', r);
      }
    case RemoveBytes(r) =>
      assert StageSound(w, w.uploads[r]);
      RemoveKeeps(w, w.uploads[r].file);
      QuitKeeps(w.(objects := RemoveObject(w.objects, w.uploads[r].file)), r);
    case Dies(r) => QuitKeeps(w, r);
  }

  lemma OnlyOwner(w: World, r: RequestId, f: FileId)
    requires OneOwner(w) && OwnedBy(w, r, f)
    ensures forall s :: OwnedBy(w, s, f) ==> s == r
  {
  }

  lemma SameOwners(w: World, w': World)
    requires w.uploads == w'.uploads
    ensures forall s, f: FileId :: OwnedBy(w', s, f) <==> OwnedBy(w, s, f)
  {
  }

  lemma FinalizeInv(w: World, r: RequestId, quota: nat)
    requires Inv(w) && Enabled(w, Finalize(r))
    ensures Inv(Step(w, Finalize(r), quota))
  {
    hide OneOwner, SweepsInv;
    var f, id := w.uploads[r].file, w.uploads[r].stored.value;
    assert StageSound(w, w.uploads[r]);
    OnlyOwner(w, r, f);
    QuitKeeps(w, r);
    var w' := Quit(w, r);
    if CanFinalize(w.rows, f, id) {
      assert RowSound(w, f);
      var row := w.rows[f].value;
      var ready := row.(ready := true, versions := [Version(1, id, row.size)], current := Some(0));
      assert row.versions + [Version(1, id, row.size)] == ready.versions;
      WriteKeeps(w', f, ready);
      assert Step(w, Finalize(r), quota) == WriteRow(w', f, ready);
    }
  }

  lemma VersionStepInv(w: World, a: Action, quota: nat)
    requires Inv(w) && Enabled(w, a)
    requires a.CheckVersion? || a.PutVersion? || a.AddVersion? || a.AppendVersion? || a.Move? || a.SoftDelete?
    ensures Inv(Step(w, a, quota))
  {
    hide OneOwner, SweepsInv;
    match a
    case CheckVersion(r, f, size) => EnterKeeps(w, r, Checked(f, size));
    case PutVersion(r, versioned) =>
      var f, size := w.uploads[r].file, w.uploads[r].size;
      assert StageSound(w, w.uploads[r]);
      PutKeeps(w, f, size, versioned);
      var w' := w.(objects := PutBytes(w.objects, f, size, versioned));
      if versioned {
        EnterKeeps(w', r, Appending(f, size, PutId(w.objects, f)));
      } else {
        QuitKeeps(w', r);
      }
    case AddVersion(r) =>
      assert StageSound(w, w.uploads[r]);
      LandKeeps(w, w.uploads[r].file, w.uploads[r].written, w.uploads[r].size);
      QuitKeeps(Landed(w, w.uploads[r].file, w.uploads[r].written, w.uploads[r].size), r);
    case AppendVersion(f, size, versioned) =>
      PutKeeps(w, f, size, versioned);
      if versioned {
        LandKeeps(w.(objects := PutBytes(w.objects, f, size, versioned)), f, PutId(w.objects, f), size);
      }
    case Move(f, place) =>
      assert RowSound(w, f);
      WriteKeeps(w, f, w.rows[f].value.(place := place));
    case SoftDelete(f) =>
      assert RowSound(w, f);
      WriteKeeps(w, f, w.rows[f].value.(trashed := true));
  }

  lemma SweepStepInv(w: World, a: Action, quota: nat)
    requires Inv(w) && Enabled(w, a)
    requires a.Sweep? || a.SweepSelects? || a.SweepDeletes? || a.SweepRemoves?
    ensures Inv(Step(w, a, quota))
  {
    hide RowsInv, UploadsInv, OneOwner;
    match a
    case Sweep(j, cutoff) =>
      var stale := Stale(w.rows, cutoff);
      DeleteKeeps(w, stale);
      SweepKeeps(w.(rows := Deleted(w.rows, stale)), j, Removing(stale));
    case SweepSelects(j, cutoff) => SweepKeeps(w, j, Selected(Stale(w.rows, cutoff)));
    case SweepDeletes(j) =>
      DeleteKeeps(w, w.sweeps[j].ids);
      assert SweepSound(w.rows, w.sweeps[j]);
      SweepKeeps(w.(rows := Deleted(w.rows, w.sweeps[j].ids)), j, Removing(w.sweeps[j].ids));
    case SweepRemoves(j, key) =>
      assert SweepSound(w.rows, w.sweeps[j]);
      RemoveKeeps(w, key);
      SweepKeeps(w.(objects := RemoveObject(w.objects, key)), j, Removing(w.sweeps[j].ids - {key}));
  }

  lemma StepInv(w: World, a: Action, quota: nat)
    requires Inv(w) && Enabled(w, a)
    ensures Inv(Step(w, a, quota))
  {
    hide Inv;
    if a.Finalize? {
      FinalizeInv(w, a.request, quota);
    } else if a.CheckVersion? || a.PutVersion? || a.AddVersion? || a.AppendVersion? || a.Move? || a.SoftDelete? {
      VersionStepInv(w, a, quota);
    } else if a.Sweep? || a.SweepSelects? || a.SweepDeletes? || a.SweepRemoves? {
      SweepStepInv(w, a, quota);
    } else {
      UploadStepInv(w, a, quota);
    }
  }

  // ---------- runs ----------

  ghost predicate Possible(w: World, run: seq<Action>, quota: nat)
    decreases |run|, 0
  {
    run == [] || (Possible(w, run[..|run| - 1], quota) && Enabled(Exec(w, run[..|run| - 1], quota), run[|run| - 1]))
  }

  ghost function Exec(w: World, run: seq<Action>, quota: nat): World
    requires Possible(w, run, quota)
    decreases |run|, 1
  {
    if run == [] then w else Step(Exec(w, run[..|run| - 1], quota), run[|run| - 1], quota)
  }

  lemma NoSteps(w: World, quota: nat)
    ensures Possible(w, [], quota) && Exec(w, [], quota) == w
  {
  }

  lemma {:induction false} ExecInv(w: World, run: seq<Action>, quota: nat)
    requires Inv(w) && Possible(w, run, quota)
    ensures Inv(Exec(w, run, quota))
    decreases |run|
  {
    hide Inv, Enabled;
    if run != [] {
      ExecInv(w, run[..|run| - 1], quota);
      StepInv(Exec(w, run[..|run| - 1], quota), run[|run| - 1], quota);
    }
  }

  /** In every run a ready row has its object in the bucket; its versions are numbered 1 to n; the
      current one is number n and has the row's size; and the bucket still keeps the bytes, of that
      size, that each version names. A row that is not ready has no version yet. */
  lemma ReadyIsStored(run: seq<Action>, quota: nat, f: FileId)
    requires Possible(EMPTY, run, quota) && There(Exec(EMPTY, run, quota).rows, f)
    ensures var w := Exec(EMPTY, run, quota);
      var row := w.rows[f].value;
      if row.ready then
        var n := |row.versions|;
        && n > 0 && row.current == Some(n - 1) && row.versions[n - 1].no == n && row.versions[n - 1].size == row.size
        && f in w.objects && w.objects[f].there
        && forall i :: 0 <= i < n ==>
            && row.versions[i].no == i + 1 && row.versions[i].stored < |w.objects[f].history|
            && w.objects[f].history[row.versions[i].stored] == row.versions[i].size
      else row.versions == [] && row.current == None
  {
    hide Possible, Exec, UploadsInv, OneOwner, SweepsInv;
    EmptyInv();
    ExecInv(EMPTY, run, quota);
    assert RowSound(Exec(EMPTY, run, quota), f);
  }

  lemma EmptyInv()
    ensures Inv(EMPTY)
  {
  }

  // ---------- finished uploads stay ----------

  /** One step never takes a ready row away, nor one of its versions, except when a sweep deletes by
      id what it had selected in an earlier step: such a row was finished in between. */
  lemma ReadyStays(w: World, a: Action, quota: nat, f: FileId)
    requires Inv(w) && Enabled(w, a) && Ready(w.rows, f)
    ensures Ready(Step(w, a, quota).rows, f) <==> !(a.SweepDeletes? && f in w.sweeps[a.job].ids)
    ensures Ready(Step(w, a, quota).rows, f) ==>
              var before, after := w.rows[f].value, Step(w, a, quota).rows[f].value;
              after.owner == before.owner && before.versions <= after.versions
  {
    hide RowsInv, OneOwner, SweepsInv;
    if a.Abandon? || a.Finalize? {
      assert StageSound(w, w.uploads[a.request]);
    }
  }

  ghost predicate SweepsAtOnce(run: seq<Action>) {
    forall i :: 0 <= i < |run| ==> !run[i].SweepDeletes?
  }

  /** When a sweep selects and deletes in one transaction, a finished upload is there for good. */
  lemma {:induction false} FinishedIsKept(w: World, run: seq<Action>, quota: nat, f: FileId)
    requires Inv(w) && Possible(w, run, quota) && SweepsAtOnce(run) && Ready(w.rows, f)
    ensures Ready(Exec(w, run, quota).rows, f)
    ensures w.rows[f].value.versions <= Exec(w, run, quota).rows[f].value.versions
    decreases |run|
  {
    hide Inv, Enabled, Step;
    if run != [] {
      var before := run[..|run| - 1];
      FinishedIsKept(w, before, quota, f);
      ExecInv(w, before, quota);
      ReadyStays(Exec(w, before, quota), run[|run| - 1], quota, f);
    }
  }

  /** In two transactions it can happen: selected while pending, finished, then deleted with its row. */
  lemma SplitSweepLosesUpload(o: Sub)
    ensures var reserved := Step(EMPTY, Reserve(0, o, Place(None, "a"), 5, 0), 9);
      var selected := Step(reserved, SweepSelects(0, 1), 9);
      var put := Step(selected, Put(0, true), 9);
      var finished := Step(put, Finalize(0), 9);
      && Ready(finished.rows, 0) && Enabled(finished, SweepDeletes(0))
      && !There(Step(finished, SweepDeletes(0), 9).rows, 0)
  {
    var reserved := Step(EMPTY, Reserve(0, o, Place(None, "a"), 5, 0), 9);
    assert IsStale(reserved.rows[0], 1);
  }

  // ---------- names ----------

  ghost predicate DistinctNames(rows: Rows) {
    forall f: FileId, g: FileId :: There(rows, f) && There(rows, g) && f != g ==>
        !SameName(rows[f].value, rows[g].value)
  }

  lemma WriteKeepsNames(rows: Rows, f: FileId, row: Row)
    requires DistinctNames(rows) && f < |rows| && !NameClash(rows, f, row)
    ensures DistinctNames(rows[f := Some(row)])
  {
    var after := rows[f := Some(row)];
    forall g: FileId, h: FileId | There(after, g) && There(after, h) && g != h
      ensures !SameName(after[g].value, after[h].value)
    {
      assert g != f ==> There(rows, g);
      assert h != f ==> There(rows, h);
    }
  }

  /** A row that no longer counts, or counts under the name that it has, clashes with nothing new. */
  lemma SameNameAsBefore(rows: Rows, f: FileId, row: Row)
    requires DistinctNames(rows) && There(rows, f)
    requires forall other :: SameName(other, row) ==> SameName(other, rows[f].value)
    ensures !NameClash(rows, f, row)
  {
    if g: FileId :| g < |rows| && g != f && rows[g].Some? && SameName(rows[g].value, row) {
      assert There(rows, g);
    }
  }

  lemma StepNames(w: World, a: Action, quota: nat)
    requires Inv(w) && Enabled(w, a) && DistinctNames(w.rows)
    ensures DistinctNames(Step(w, a, quota).rows)
  {
    hide RowsInv, OneOwner, SweepsInv, UsedBytes, NameClash, Highest, PutBytes, RemoveObject;
    match a
    case Finalize(r) =>
      var f, id := w.uploads[r].file, w.uploads[r].stored.value;
      if CanFinalize(w.rows, f, id) {
        WriteKeepsNames(w.rows, f, FinalRow(w.rows[f].value, id));
      }
    case Move(f, place) => WriteKeepsNames(w.rows, f, w.rows[f].value.(place := place));
    case SoftDelete(f) =>
      SameNameAsBefore(w.rows, f, w.rows[f].value.(trashed := true));
      WriteKeepsNames(w.rows, f, w.rows[f].value.(trashed := true));
    case AddVersion(r) => LandKeepsNames(w, w.uploads[r].file, w.uploads[r].written, w.uploads[r].size);
    case AppendVersion(f, size, versioned) =>
      LandKeepsNames(w.(objects := PutBytes(w.objects, f, size, versioned)), f, PutId(w.objects, f), size);
    case _ => OtherStepNames(w, a, quota);
  }

  lemma OtherStepNames(w: World, a: Action, quota: nat)
    requires Inv(w) && Enabled(w, a) && DistinctNames(w.rows)
    requires !a.Finalize? && !a.Move? && !a.SoftDelete? && !a.AddVersion? && !a.AppendVersion?
    ensures DistinctNames(Step(w, a, quota).rows)
  {
    hide RowsInv, OneOwner, SweepsInv, UsedBytes, NameClash, Highest, PutBytes, RemoveObject;
  }

  lemma LandKeepsNames(w: World, f: FileId, stored: Stored, size: nat)
    requires DistinctNames(w.rows)
    ensures DistinctNames(Landed(w, f, stored, size).rows)
  {
    if There(w.rows, f) {
      SameNameAsBefore(w.rows, f, WithVersion(w.rows[f].value, stored, size));
      WriteKeepsNames(w.rows, f, WithVersion(w.rows[f].value, stored, size));
    }
  }

  /** In every interleaving an owner never has two live, ready files of one name in one folder. */
  lemma {:induction false} OneFilePerName(run: seq<Action>, quota: nat)
    requires Possible(EMPTY, run, quota)
    ensures DistinctNames(Exec(EMPTY, run, quota).rows)
    ensures var rows := Exec(EMPTY, run, quota).rows;
      forall f: FileId, g: FileId :: There(rows, f) && There(rows, g) && f != g ==>
        var a, b := rows[f].value, rows[g].value;
        a.ready && b.ready && !a.trashed && !b.trashed && a.owner == b.owner && a.place.folder == b.place.folder ==>
          Lower(a.place.name) != Lower(b.place.name)
    decreases |run|
  {
    hide Enabled, Step, DistinctNames, Inv;
    EmptyInv();
    if run == [] {
      NoNames();
      NoSteps(EMPTY, quota);
    } else {
      OneFilePerName(run[..|run| - 1], quota);
      ExecInv(EMPTY, run[..|run| - 1], quota);
      StepNames(Exec(EMPTY, run[..|run| - 1], quota), run[|run| - 1], quota);
    }
    NamesDiffer(Exec(EMPTY, run, quota).rows);
  }

  lemma NamesDiffer(rows: Rows)
    requires DistinctNames(rows)
    ensures forall f: FileId, g: FileId :: There(rows, f) && There(rows, g) && f != g ==>
        var a, b := rows[f].value, rows[g].value;
        a.ready && b.ready && !a.trashed && !b.trashed && a.owner == b.owner && a.place.folder == b.place.folder ==>
          Lower(a.place.name) != Lower(b.place.name)
  {
  }

  lemma NoNames()
    ensures DistinctNames([])
  {
  }

  // ---------- quota ----------

  ghost predicate WithinQuota(w: World, quota: nat) {
    forall o :: UsedBytes(w.rows, o) <= quota
  }

  /** A version that lands still fits at that moment. */
  predicate LandsFitting(w: World, a: Action, quota: nat)
    requires Enabled(w, a)
  {
    a.AddVersion? && There(w.rows, w.uploads[a.request].file) ==>
      VersionFits(w, w.uploads[a.request].file, w.uploads[a.request].size, quota)
  }

  lemma LandingChangesUsed(w: World, f: FileId, stored: Stored, size: nat, o: Sub)
    requires There(w.rows, f)
    ensures UsedBytes(Landed(w, f, stored, size).rows, o) ==
            UsedBytes(w.rows, o) + if o == w.rows[f].value.owner then size - w.rows[f].value.size else 0
  {
    WriteChangesUsed(w.rows, f, Some(WithVersion(w.rows[f].value, stored, size)), o);
  }

  lemma FinalizeChangesNothing(rows: Rows, f: FileId, stored: Stored, o: Sub)
    requires There(rows, f)
    ensures UsedBytes(Finalized(rows, f, stored), o) == UsedBytes(rows, o)
  {
    WriteChangesUsed(rows, f, Finalized(rows, f, stored)[f], o);
  }

  lemma QuotaStep(w: World, a: Action, quota: nat)
    requires Enabled(w, a) && WithinQuota(w, quota) && LandsFitting(w, a, quota)
    ensures WithinQuota(Step(w, a, quota), quota)
  {
    hide UsedBytes, PutBytes, RemoveObject, WithVersion;
    forall o ensures UsedBytes(Step(w, a, quota).rows, o) <= quota {
      match a {
        case Reserve(r, owner, place, size, now) => ReserveChangesUsed(w.rows, owner, place, size, now, o);
        case Finalize(r) =>
          if CanFinalize(w.rows, w.uploads[r].file, w.uploads[r].stored.value) {
            FinalizeChangesNothing(w.rows, w.uploads[r].file, w.uploads[r].stored.value, o);
          }
        case Abandon(r) => DeleteReturns(w.rows, {w.uploads[r].file}, o);
        case AddVersion(r) =>
          if There(w.rows, w.uploads[r].file) {
            LandingChangesUsed(w, w.uploads[r].file, w.uploads[r].written, w.uploads[r].size, o);
          }
        case AppendVersion(f, size, versioned) =>
          LandingChangesUsed(w.(objects := PutBytes(w.objects, f, size, versioned)), f, PutId(w.objects, f), size, o);
        case Move(f, place) => WriteChangesUsed(w.rows, f, Some(w.rows[f].value.(place := place)), o);
        case SoftDelete(f) => WriteChangesUsed(w.rows, f, Some(w.rows[f].value.(trashed := true)), o);
        case Sweep(j, cutoff) => DeleteReturns(w.rows, Stale(w.rows, cutoff), o);
        case SweepDeletes(j) => DeleteReturns(w.rows, w.sweeps[j].ids, o);
        case _ =>
      }
    }
  }

  ghost predicate AllLandFitting(w: World, run: seq<Action>, quota: nat)
    requires Possible(w, run, quota)
    decreases |run|
  {
    run == [] ||
    (AllLandFitting(w, run[..|run| - 1], quota)
     && LandsFitting(Exec(w, run[..|run| - 1], quota), run[|run| - 1], quota))
  }

  /** No owner's rows, trashed and pending ones included, ever add up to more than the quota, as long
      as each version whose check and landing are two steps still fits when it lands. */
  lemma {:induction false} QuotaHolds(run: seq<Action>, quota: nat)
    requires Possible(EMPTY, run, quota) && AllLandFitting(EMPTY, run, quota)
    ensures WithinQuota(Exec(EMPTY, run, quota), quota)
    decreases |run|
  {
    hide Enabled, Step, LandsFitting;
    if run != [] {
      QuotaHolds(run[..|run| - 1], quota);
      QuotaStep(Exec(EMPTY, run[..|run| - 1], quota), run[|run| - 1], quota);
    }
  }

  /** So the quota holds in every run that takes version uploads as one step. */
  lemma {:induction false} OneStepVersionsFit(w: World, run: seq<Action>, quota: nat)
    requires Possible(w, run, quota) && forall i :: 0 <= i < |run| ==> !run[i].AddVersion?
    ensures AllLandFitting(w, run, quota)
    decreases |run|
  {
    if run != [] {
      OneStepVersionsFit(w, run[..|run| - 1], quota);
    }
  }

  /** And the condition is exact: the landing of a version keeps the quota if and only if it fits then. */
  lemma LandingKeepsQuotaIff(w: World, r: RequestId, quota: nat)
    requires Enabled(w, AddVersion(r)) && WithinQuota(w, quota)
    ensures WithinQuota(Step(w, AddVersion(r), quota), quota) <==> LandsFitting(w, AddVersion(r), quota)
  {
    hide UsedBytes, WithVersion;
    if LandsFitting(w, AddVersion(r), quota) {
      QuotaStep(w, AddVersion(r), quota);
    } else {
      var f := w.uploads[r].file;
      LandingChangesUsed(w, f, w.uploads[r].written, w.uploads[r].size, w.rows[f].value.owner);
    }
  }

  ghost predicate AlwaysWithin(w: World, run: seq<Action>, quota: nat)
    requires Possible(w, run, quota)
    decreases |run|
  {
    WithinQuota(Exec(w, run, quota), quota) && (run == [] || AlwaysWithin(w, run[..|run| - 1], quota))
  }

  /** Over whole runs: the quota is kept at every moment if and only if every version that lands apart
      from its check still fits when it lands. */
  lemma {:induction false} QuotaHoldsIff(run: seq<Action>, quota: nat)
    requires Possible(EMPTY, run, quota)
    ensures AlwaysWithin(EMPTY, run, quota) <==> AllLandFitting(EMPTY, run, quota)
    decreases |run|
  {
    hide Enabled, Step, LandsFitting, WithinQuota;
    if run == [] {
      EmptyWithin(quota);
    } else {
      var n := |run| - 1;
      QuotaHoldsIff(run[..n], quota);
      if AlwaysWithin(EMPTY, run[..n], quota) {
        StepWithinIff(Exec(EMPTY, run[..n], quota), run[n], quota);
      }
    }
  }

  lemma EmptyWithin(quota: nat)
    ensures WithinQuota(EMPTY, quota)
  {
  }

  lemma StepWithinIff(w: World, a: Action, quota: nat)
    requires Enabled(w, a) && WithinQuota(w, quota)
    ensures WithinQuota(Step(w, a, quota), quota) <==> LandsFitting(w, a, quota)
  {
    hide WithinQuota, Step;
    if a.AddVersion? {
      LandingKeepsQuotaIff(w, a.request, quota);
    } else {
      QuotaStep(w, a, quota);
    }
  }

  /** Abandoning gives back exactly what was reserved, at once. */
  lemma AbandonGivesBack(w: World, r: RequestId, quota: nat, o: Sub)
    requires Enabled(w, Abandon(r)) && There(w.rows, w.uploads[r].file)
    ensures var row := w.rows[w.uploads[r].file].value;
      UsedBytes(Step(w, Abandon(r), quota).rows, o) == UsedBytes(w.rows, o) - if row.owner == o then row.size else 0
  {
    var f := w.uploads[r].file;
    assert Deleted(w.rows, {f}) == w.rows[f := None];
    WriteChangesUsed(w.rows, f, None, o);
  }

  // ---------- the repository ----------

  /** The repository's methods are what these steps do to the table; `selected` lists what a sweep that
      deletes in a second transaction had selected. */
  method Serve(repo: FileRepository, w: World, a: Action, quota: nat, selected: seq<FileId>)
    requires Inv(w) && repo.rows == w.rows && Enabled(w, a)
    requires a.SweepDeletes? ==> (set f | f in selected) == w.sweeps[a.job].ids
    modifies repo
    ensures repo.rows == Step(w, a, quota).rows
  {
    hide RowsInv, UploadsInv, OneOwner, UsedBytes, Highest;
    match a {
      case Reserve(_, o, place, size, now) =>
        var _ := repo.Reserve(o, place, size, quota, now);
      case Finalize(r) =>
        var _ := repo.Finalize(w.uploads[r].file, w.uploads[r].stored.value);
      case Abandon(r) => repo.Abandon(w.uploads[r].file);
      case AddVersion(r) =>
        var _ := repo.AddVersion(w.uploads[r].file, w.uploads[r].written, w.uploads[r].size);
      case AppendVersion(f, size, versioned) =>
        if VersionFits(w, f, size, quota) && versioned {
          var _ := repo.AddVersion(f, PutId(w.objects, f), size);
        }
      case Move(f, place) =>
        var _ := repo.Update(f, place);
      case SoftDelete(f) => repo.SoftDelete(f);
      case Sweep(_, cutoff) =>
        var _ := repo.SweepPending(cutoff);
      case SweepDeletes(j) =>
        assert SweepSound(w.rows, w.sweeps[j]);
        assert forall f :: f in selected ==> f in w.sweeps[j].ids;
        repo.DeleteRows(selected);
      case _ =>
    }
  }
}
