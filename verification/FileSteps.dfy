/** What each step does to the rows of the files table, column by column, and which rows a sweep drops. */
module FileSteps {
  import opened FileTable
  import opened FileWorld
  import opened FileRuns
  import opened FolderTree
  import opened Text

  // ---------- sweeps ----------

  /** A sweep drops exactly the rows that are not ready and older than its cutoff, and those are the keys
      whose bytes it then removes; every other row stays as it is. */
  lemma SweepDropsOldReservations(w: World, j: SweepId, cutoff: Stamp, quota: nat)
    requires Enabled(w, Sweep(j, cutoff))
    ensures var v := Step(w, Sweep(j, cutoff), quota);
      && |v.rows| == |w.rows| && j in v.sweeps && v.sweeps[j].Removing?
      && (forall f: FileId :: f in v.sweeps[j].ids <==>
            There(w.rows, f) && !w.rows[f].value.ready && w.rows[f].value.createdAt < cutoff)
      && (forall f: FileId :: f < |w.rows| ==> v.rows[f] == if f in v.sweeps[j].ids then None else w.rows[f])
      && v.uploads == w.uploads && v.objects == w.objects
  {
  }

  /** In two transactions: the first one only selects, and the second one drops what was selected. */
  lemma SelectThenDelete(w: World, j: SweepId, cutoff: Stamp, quota: nat)
    ensures Enabled(w, SweepSelects(j, cutoff)) ==>
              var v := Step(w, SweepSelects(j, cutoff), quota);
              && v.rows == w.rows && v.uploads == w.uploads && v.objects == w.objects
              && j in v.sweeps && v.sweeps[j].Selected?
              && (forall f: FileId :: f in v.sweeps[j].ids <==>
                    There(w.rows, f) && !w.rows[f].value.ready && w.rows[f].value.createdAt < cutoff)
    ensures Enabled(w, SweepDeletes(j)) ==>
              var v := Step(w, SweepDeletes(j), quota);
              && |v.rows| == |w.rows|
              && forall f: FileId :: f < |w.rows| ==> v.rows[f] == if f in w.sweeps[j].ids then None else w.rows[f]
  {
  }

  /** A row goes with its own request's abandonment or with a sweep, and with nothing else. */
  lemma RowGoesIff(w: World, a: Action, quota: nat, f: FileId)
    requires Enabled(w, a) && There(w.rows, f)
    ensures !There(Step(w, a, quota).rows, f) <==>
              || (a.Abandon? && w.uploads[a.request].file == f)
              || (a.Sweep? && !w.rows[f].value.ready && w.rows[f].value.createdAt < a.cutoff)
              || (a.SweepDeletes? && f in w.sweeps[a.job].ids)
  {
    hide UsedBytes, NameClash, PutBytes, WithVersion, RemoveObject;
  }

  /** What stays of a row's columns: owner and age always; its place but for a move of it, its bin but for a
      deletion of it; it gets ready by its own finalization only, and size and versions change only by that
      or by a version of it. */
  lemma ColumnsStay(w: World, a: Action, quota: nat, f: FileId)
    requires Enabled(w, a) && There(w.rows, f) && There(Step(w, a, quota).rows, f)
    ensures var before, after := w.rows[f].value, Step(w, a, quota).rows[f].value;
      && after.owner == before.owner && after.createdAt == before.createdAt
      && after.place == (if a.Move? && a.file == f then a.place else before.place)
      && (after.trashed <==> before.trashed || (a.SoftDelete? && a.file == f))
      && (after.ready != before.ready ==> a.Finalize? && w.uploads[a.request].file == f)
      && (after.versions != before.versions || after.current != before.current ==>
            || ((a.Finalize? || a.AddVersion?) && w.uploads[a.request].file == f)
            || (a.AppendVersion? && a.file == f))
      && (after.size != before.size ==>
            || (a.AddVersion? && w.uploads[a.request].file == f && after.size == w.uploads[a.request].size)
            || (a.AppendVersion? && a.file == f && after.size == a.bytes))
  {
    hide UsedBytes, NameClash, PutBytes, Highest, RemoveObject;
  }

  /** What a version or a finalization leaves of its row: the new version last and current, under the id that
      the put returned, and the size with it; a put without a version id, or of what does not fit, leaves it. */
  lemma VersionLands(w: World, a: Action, quota: nat)
    requires Enabled(w, a) && (a.AddVersion? || a.AppendVersion?)
    ensures var f := if a.AddVersion? then w.uploads[a.request].file else a.file;
      var size := if a.AddVersion? then w.uploads[a.request].size else a.bytes;
      var id := if a.AddVersion? then w.uploads[a.request].written
                else if f in w.objects then |w.objects[f].history| else 0;
      var rows := Step(w, a, quota).rows;
      && OnlyRow(w.rows, rows, f)
      && if There(w.rows, f) && (a.AddVersion? || (a.versioned && VersionFits(w, f, size, quota))) then
           var before, after := w.rows[f].value, rows[f].value;
           && There(rows, f) && after.size == size && after.current == Some(|before.versions|)
           && |after.versions| == |before.versions| + 1 && before.versions <= after.versions
           && after.versions[|before.versions|].stored == id && after.versions[|before.versions|].size == size
         else rows == w.rows
  {
    hide UsedBytes, NameClash, Highest, PutBytes;
  }

  lemma FinalizationLands(w: World, r: RequestId, quota: nat)
    requires Enabled(w, Finalize(r))
    ensures var f, rows := w.uploads[r].file, Step(w, Finalize(r), quota).rows;
      && OnlyRow(w.rows, rows, f)
      && (rows != w.rows ==>
            && There(w.rows, f) && There(rows, f) && rows[f].value.ready
            && rows[f].value.versions
               == w.rows[f].value.versions + [Version(1, w.uploads[r].stored.value, w.rows[f].value.size)]
            && rows[f].value.current == Some(|w.rows[f].value.versions|))
      && (There(w.rows, f) && !w.rows[f].value.ready && (forall g: FileId :: There(w.rows, g) && g != f ==>
            || w.rows[g].value.trashed || !w.rows[g].value.ready || w.rows[g].value.owner != w.rows[f].value.owner
            || w.rows[g].value.place.folder != w.rows[f].value.place.folder
            || Lower(w.rows[g].value.place.name) != Lower(w.rows[f].value.place.name)) ==>
            rows != w.rows)
  {
    hide UsedBytes, Highest, PutBytes;
  }

  // ---------- the bucket and the requests ----------

  /** This step puts bytes under the key. */
  predicate PutsInto(w: World, a: Action, quota: nat, f: FileId)
    requires Enabled(w, a)
  {
    || ((a.Put? || a.PutVersion? || (a.PutFails? && a.kept)) && w.uploads[a.request].file == f)
    || (a.AppendVersion? && a.file == f && VersionFits(w, f, a.bytes, quota))
  }

  /** A put adds a version of its size where the bucket keeps versions, and the key is there afterwards; a
      removal leaves a delete marker over the versions; nothing else touches the bucket. */
  lemma ObjectsAfter(w: World, a: Action, quota: nat, f: FileId)
    requires Enabled(w, a)
    ensures var before, after := w.objects, Step(w, a, quota).objects;
      var kept := if f in before then before[f].history else [];
      if PutsInto(w, a, quota, f) then
        var size := if a.AppendVersion? then a.bytes
                    else if a.PutVersion? then w.uploads[a.request].size
                    else if There(w.rows, f) then w.rows[f].value.size else 0;
        && f in after && after[f].there
        && after[f].history == (if a.PutFails? || a.versioned then kept + [size] else kept)
      else if (a.RemoveBytes? && w.uploads[a.request].file == f) || (a.SweepRemoves? && a.key == f) then
        (f in after <==> f in before) && (f in after ==> after[f].history == kept && !after[f].there)
      else (f in after <==> f in before) && (f in after ==> after[f] == before[f])
  {
    hide UsedBytes, NameClash, Highest, WithVersion;
  }

  /** The way of a request: the claim, the put with the version id that the bucket gave, the end or the
      abandonment with its clean-up; and for a version the check, the put and the landing. */
  lemma StageAfter(w: World, a: Action, quota: nat)
    requires Enabled(w, a) && (a.Put? || a.PutFails? || a.Abandon? || a.PutVersion?)
    ensures var r := a.request;
      var v, f := Step(w, a, quota), w.uploads[r].file;
      var id := if f in w.objects then |w.objects[f].history| else 0;
      && (a.Put? ==> v.uploads == w.uploads[r := Written(f, if a.versioned then Some(id) else None)])
      && (a.PutFails? ==> v.uploads == w.uploads[r := Failed(f)])
      && (a.Abandon? ==> v.uploads == if w.uploads[r].Written? then w.uploads[r := Cleaning(f)] else w.uploads - {r})
      && (a.PutVersion? ==>
            v.uploads == if a.versioned then w.uploads[r := Appending(f, w.uploads[r].size, id)] else w.uploads - {r})
  {
    hide UsedBytes, NameClash, Highest, WithVersion, PutBytes;
  }

  lemma OtherStagesAfter(w: World, a: Action, quota: nat)
    requires Enabled(w, a) && !a.Put? && !a.PutFails? && !a.Abandon? && !a.PutVersion?
    ensures var v := Step(w, a, quota);
      if a.Reserve? then
        v.uploads == if UsedBytes(w.rows, a.owner) + a.bytes <= quota then w.uploads[a.request := Claimed(|w.rows|)]
                     else w.uploads
      else if a.CheckVersion? then
        v.uploads == if VersionFits(w, a.file, a.bytes, quota) then w.uploads[a.request := Checked(a.file, a.bytes)]
                     else w.uploads
      else if a.Finalize? || a.RemoveBytes? || a.AddVersion? || a.Dies? then v.uploads == w.uploads - {a.request}
      else v.uploads == w.uploads
  {
    hide UsedBytes, NameClash, Highest, WithVersion, PutBytes;
  }

  /** A sweep is over its keys one by one, and no other step touches it. */
  lemma SweepsAfter(w: World, a: Action, quota: nat)
    requires Enabled(w, a) && !a.Sweep? && !a.SweepSelects?
    ensures var v := Step(w, a, quota);
      if a.SweepDeletes? then v.sweeps == w.sweeps[a.job := Removing(w.sweeps[a.job].ids)]
      else if a.SweepRemoves? then v.sweeps == w.sweeps[a.job := Removing(w.sweeps[a.job].ids - {a.key})]
      else v.sweeps == w.sweeps
  {
    hide UsedBytes, NameClash, Highest, WithVersion, PutBytes;
  }

  /** What may happen when: versions, moves and deletions of files that are there and ready, the first two not
      of what is in the bin; every stage of a request once, in its order; deletions only of what was selected. */
  lemma MayHappen(w: World, r: RequestId, f: FileId, size: nat, b: bool, j: SweepId, at: Stamp)
    ensures var live := There(w.rows, f) && w.rows[f].value.ready && !w.rows[f].value.trashed;
      && (Enabled(w, CheckVersion(r, f, size)) <==> r !in w.uploads && live)
      && (Enabled(w, AppendVersion(f, size, b)) <==> live)
      && (Enabled(w, SoftDelete(f)) <==> There(w.rows, f) && w.rows[f].value.ready)
    ensures Enabled(w, Put(r, b)) <==> r in w.uploads && w.uploads[r].Claimed?
    ensures Enabled(w, PutFails(r, b)) <==> r in w.uploads && w.uploads[r].Claimed?
    ensures Enabled(w, Finalize(r)) <==> r in w.uploads && w.uploads[r].Written? && w.uploads[r].stored.Some?
    ensures Enabled(w, Abandon(r)) <==>
              r in w.uploads && (w.uploads[r].Failed? || (w.uploads[r].Written? && w.uploads[r].stored.None?))
    ensures Enabled(w, RemoveBytes(r)) <==> r in w.uploads && w.uploads[r].Cleaning?
    ensures Enabled(w, PutVersion(r, b)) <==> r in w.uploads && w.uploads[r].Checked?
    ensures Enabled(w, AddVersion(r)) <==> r in w.uploads && w.uploads[r].Appending?
    ensures Enabled(w, Sweep(j, at)) <==> j !in w.sweeps
    ensures Enabled(w, SweepSelects(j, at)) <==> j !in w.sweeps
    ensures Enabled(w, SweepDeletes(j)) <==> j in w.sweeps && w.sweeps[j].Selected?
    ensures Enabled(w, SweepRemoves(j, f)) <==> j in w.sweeps && w.sweeps[j].Removing? && f in w.sweeps[j].ids
  {
  }

  /** A version is let through if and only if its owner stays within the quota with it in the place of the
      current one. */
  lemma VersionFitsIff(w: World, f: FileId, size: nat, quota: nat)
    requires There(w.rows, f)
    ensures VersionFits(w, f, size, quota) <==>
              UsedBytes(w.rows[f := Some(w.rows[f].value.(size := size))], w.rows[f].value.owner) <= quota
  {
    WriteChangesUsed(w.rows, f, Some(w.rows[f].value.(size := size)), w.rows[f].value.owner);
  }

  // ---------- over whole runs ----------

  /** The row's own request gave it up at some moment of this run. */
  ghost predicate AbandonedDuring(w: World, run: seq<Action>, quota: nat, f: FileId)
    requires Possible(w, run, quota)
    decreases |run|
  {
    run != [] &&
    var n := |run| - 1;
    || AbandonedDuring(w, run[..n], quota, f)
    || (run[n].Abandon? && Exec(w, run[..n], quota).uploads[run[n].request].file == f)
  }

  /** No sweep of the run has a cutoff later than this moment. */
  ghost predicate SweepsBefore(run: seq<Action>, moment: Stamp) {
    forall i :: 0 <= i < |run| && (run[i].Sweep? || run[i].SweepSelects?) ==> run[i].cutoff <= moment
  }

  ghost predicate Unselected(w: World, f: FileId) {
    forall j :: j in w.sweeps ==> f !in w.sweeps[j].ids
  }

  lemma YoungStep(w: World, a: Action, quota: nat, f: FileId)
    requires Enabled(w, a) && There(w.rows, f) && Unselected(w, f)
    requires (a.Sweep? || a.SweepSelects?) ==> a.cutoff <= w.rows[f].value.createdAt
    requires !(a.Abandon? && w.uploads[a.request].file == f)
    ensures var v := Step(w, a, quota);
      There(v.rows, f) && v.rows[f].value.createdAt == w.rows[f].value.createdAt && Unselected(v, f)
  {
    hide UsedBytes, NameClash, PutBytes, Highest, RemoveObject, WithVersion;
    RowGoesIff(w, a, quota, f);
    ColumnsStay(w, a, quota, f);
    var v := Step(w, a, quota);
    forall j | j in v.sweeps ensures f !in v.sweeps[j].ids {
      assert j in w.sweeps ==> f !in w.sweeps[j].ids;
    }
  }

  lemma {:induction false} YoungStays(w: World, run: seq<Action>, quota: nat, f: FileId)
    requires Possible(w, run, quota) && There(w.rows, f) && Unselected(w, f)
    requires SweepsBefore(run, w.rows[f].value.createdAt)
    ensures var v := Exec(w, run, quota);
      || AbandonedDuring(w, run, quota, f)
      || (There(v.rows, f) && v.rows[f].value.createdAt == w.rows[f].value.createdAt && Unselected(v, f))
    decreases |run|
  {
    hide Enabled, Step, Unselected;
    if run != [] {
      var n := |run| - 1;
      YoungStays(w, run[..n], quota, f);
      if !AbandonedDuring(w, run, quota, f) {
        YoungStep(Exec(w, run[..n], quota), run[n], quota, f);
      }
    }
  }

  /** In every run: a reservation that is at least as young as every later cutoff is there until its own
      request gives it up, whatever sweeps had selected or deleted before. */
  lemma YoungReservationStays(before: seq<Action>, a: Action, after: seq<Action>, quota: nat)
    requires Possible(EMPTY, before, quota)
    requires var w := Exec(EMPTY, before, quota);
      && a.Reserve? && Enabled(w, a) && UsedBytes(w.rows, a.owner) + a.bytes <= quota
      && Possible(Step(w, a, quota), after, quota)
    requires SweepsBefore(after, a.now)
    ensures var w := Exec(EMPTY, before, quota);
      var f := |w.rows|;
      || AbandonedDuring(Step(w, a, quota), after, quota, f)
      || There(Exec(Step(w, a, quota), after, quota).rows, f)
  {
    hide Possible, Exec, AbandonedDuring, Inv, SweepsBefore;
    EmptyInv();
    ExecInv(EMPTY, before, quota);
    var w := Exec(EMPTY, before, quota);
    NewIsUnselected(w, a, quota);
    YoungStays(Step(w, a, quota), after, quota, |w.rows|);
  }

  lemma NewIsUnselected(w: World, a: Action, quota: nat)
    requires Inv(w) && a.Reserve? && Enabled(w, a) && UsedBytes(w.rows, a.owner) + a.bytes <= quota
    ensures var v := Step(w, a, quota);
      There(v.rows, |w.rows|) && v.rows[|w.rows|].value.createdAt == a.now && Unselected(v, |w.rows|)
  {
    hide RowsInv, UploadsInv, OneOwner, UsedBytes;
    assert forall j :: j in w.sweeps ==> SweepSound(w.rows, w.sweeps[j]);
  }
}
