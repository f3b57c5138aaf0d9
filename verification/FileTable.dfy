/** The files table: reservations, versions, deletion and the sweep, and what an owner is using. */
module FileTable {
  import opened FolderTree
  import opened Text

  /** The bucket's version ids of one key, as positions in the history of its writes. */
  type Stored = nat
  type FileId = nat

  datatype Version = Version(no: nat, stored: Stored, size: nat)

  /** The folder, None for the root, and the name. */
  datatype Place = Place(folder: Option<FolderId>, name: string)

  /** `current` is a position in `versions`: the rows of the version table that are this file's. */
  datatype Row = Row(owner: Sub, place: Place, size: nat, ready: bool, createdAt: Stamp, trashed: bool,
                     versions: seq<Version>, current: Option<nat>)

  /** A file's id is its position: ids are never reused, and a deleted row leaves a gap. */
  type Rows = seq<Option<Row>>

  // ---------- queries ----------

  predicate There(rows: Rows, f: FileId) {
    f < |rows| && rows[f].Some?
  }

  predicate Ready(rows: Rows, f: FileId) {
    There(rows, f) && rows[f].value.ready
  }

  /** Two live, ready files of one owner with one name in one folder, up to case. */
  predicate SameName(a: Row, b: Row) {
    && a.ready && b.ready && !a.trashed && !b.trashed
    && a.owner == b.owner && a.place.folder == b.place.folder && Lower(a.place.name) == Lower(b.place.name)
  }

  /** The unique index on such names refuses this row. */
  predicate NameClash(rows: Rows, f: FileId, row: Row) {
    exists g: FileId :: g < |rows| && g != f && rows[g].Some? && SameName(rows[g].value, row)
  }

  /** `coalesce(sum(size_bytes), 0)` over all rows of the owner: pending and trashed ones too. */
  function UsedBytes(rows: Rows, o: Sub): nat
    decreases |rows|
  {
    if rows == [] then 0
    else UsedBytes(rows[..|rows| - 1], o) + SizeFor(rows[|rows| - 1], o)
  }

  function SizeFor(row: Option<Row>, o: Sub): nat {
    if row.Some? && row.value.owner == o then row.value.size else 0
  }

  /** `max(version_no)`, or 0. */
  function Highest(versions: seq<Version>): nat
    decreases |versions|
  {
    if versions == [] then 0
    else
      var h, no := Highest(versions[..|versions| - 1]), versions[|versions| - 1].no;
      if no > h then no else h
  }

  predicate IsStale(row: Option<Row>, cutoff: Stamp) {
    row.Some? && !row.value.ready && row.value.createdAt < cutoff
  }

  /** Every other row is as it was. */
  predicate OnlyRow(before: Rows, after: Rows, f: FileId) {
    |after| == |before| && forall g: FileId :: g < |before| && g != f ==> after[g] == before[g]
  }

  // ---------- writes ----------

  function Reserved(rows: Rows, o: Sub, place: Place, size: nat, now: Stamp): Rows {
    rows + [Some(Row(o, place, size, false, now, false, [], None))]
  }

  function WithVersion(row: Row, stored: Stored, size: nat): Row {
    row.(versions := row.versions + [Version(Highest(row.versions) + 1, stored, size)],
         current := Some(|row.versions|), size := size)
  }

  function FinalRow(row: Row, stored: Stored): Row {
    row.(ready := true, versions := row.versions + [Version(1, stored, row.size)], current := Some(|row.versions|))
  }

  predicate CanFinalize(rows: Rows, f: FileId, stored: Stored) {
    There(rows, f) && !NameClash(rows, f, FinalRow(rows[f].value, stored))
  }

  function Finalized(rows: Rows, f: FileId, stored: Stored): Rows
    requires There(rows, f)
  {
    rows[f := Some(FinalRow(rows[f].value, stored))]
  }

  predicate CanMove(rows: Rows, f: FileId, place: Place) {
    Ready(rows, f) && !rows[f].value.trashed && !NameClash(rows, f, rows[f].value.(place := place))
  }

  function Deleted(rows: Rows, ids: set<FileId>): Rows {
    seq(|rows|, i requires 0 <= i < |rows| => if i in ids then None else rows[i])
  }

  function Stale(rows: Rows, cutoff: Stamp): set<FileId> {
    set f | 0 <= f < |rows| && IsStale(rows[f], cutoff)
  }

  class FileRepository {
    var rows: Rows

    constructor ()
      ensures rows == []
    {
      rows := [];
    }

    /** Check and claim under the owner's lock. */
    method Reserve(o: Sub, place: Place, size: nat, quota: nat, now: Stamp) returns (file: Option<FileId>)
      modifies this
      ensures file.Some? <==> UsedBytes(old(rows), o) + size <= quota
      ensures file.Some? ==> file.value == |old(rows)| && rows == Reserved(old(rows), o, place, size, now)
      ensures file.Some? ==>
                && |rows| == |old(rows)| + 1 && rows[..|old(rows)|] == old(rows) && There(rows, file.value)
                && var row := rows[file.value].value;
                && row.owner == o && row.place == place && row.size == size && row.createdAt == now
                && !row.ready && !row.trashed && row.versions == [] && row.current == None
      ensures file.None? ==> rows == old(rows)
    {
      var used := UsedBytes(rows, o);
      if used + size > quota {
        return None;
      }
      file := Some(|rows|);
      rows := rows + [Some(Row(o, place, size, false, now, false, [], None))];
    }

    /** False when the row is gone, for the version's foreign key and the update both fail, and when a
        live file has got the name meanwhile, for the unique index refuses the row. */
    method Finalize(f: FileId, stored: Stored) returns (ok: bool)
      modifies this
      ensures ok == CanFinalize(old(rows), f, stored)
      ensures rows == if ok then Finalized(old(rows), f, stored) else old(rows)
      ensures ok <==>
                && There(old(rows), f)
                && var row := old(rows)[f].value;
                   row.trashed || !exists g: FileId ::
                     (There(old(rows), g) && g != f
                      && var other := old(rows)[g].value;
                         && other.ready && !other.trashed && other.owner == row.owner
                         && other.place.folder == row.place.folder && Lower(other.place.name) == Lower(row.place.name))
      ensures OnlyRow(old(rows), rows, f)
      ensures ok ==>
                var before, after := old(rows)[f].value, rows[f].value;
                && after.ready && after.versions == before.versions + [Version(1, stored, before.size)]
                && after.current == Some(|before.versions|) && after.size == before.size
                && after.owner == before.owner && after.place == before.place
                && after.createdAt == before.createdAt && after.trashed == before.trashed
    {
      if f >= |rows| || rows[f].None? {
        return false;
      }
      var row := rows[f].value;
      var version := Version(1, stored, row.size);
      row := row.(versions := row.versions + [version]);
      row := row.(ready := true);
      row := row.(current := Some(|row.versions| - 1));
      ok := !NameClash(rows, f, row);
      if ok {
        rows := rows[f := Some(row)];
      }
    }

    /** A rename or a move; no bytes move. */
    method Update(f: FileId, place: Place) returns (ok: bool)
      requires Ready(rows, f) && !rows[f].value.trashed
      modifies this
      ensures ok == CanMove(old(rows), f, place)
      ensures ok <==>
                !exists g: FileId ::
                  (There(old(rows), g) && g != f
                   && var other := old(rows)[g].value;
                      && other.ready && !other.trashed && other.owner == old(rows)[f].value.owner
                      && other.place.folder == place.folder && Lower(other.place.name) == Lower(place.name))
      ensures rows == if ok then old(rows)[f := Some(old(rows)[f].value.(place := place))] else old(rows)
    {
      var row := rows[f].value.(place := place);
      ok := !NameClash(rows, f, row);
      if ok {
        rows := rows[f := Some(row)];
      }
    }

    method AddVersion(f: FileId, stored: Stored, size: nat) returns (ok: bool)
      modifies this
      ensures ok == There(old(rows), f)
      ensures rows == if ok then old(rows)[f := Some(WithVersion(old(rows)[f].value, stored, size))] else old(rows)
      ensures OnlyRow(old(rows), rows, f)
      ensures ok ==>
                var before, after := old(rows)[f].value, rows[f].value;
                && |after.versions| == |before.versions| + 1 && before.versions <= after.versions
                && after.current == Some(|before.versions|) && after.size == size
                && var added := after.versions[|before.versions|];
                && added.stored == stored && added.size == size && added.no > 0
                && (forall v :: v in before.versions ==> v.no < added.no)
                && (added.no == 1 || exists v :: v in before.versions && v.no == added.no - 1)
                && after.owner == before.owner && after.place == before.place && after.ready == before.ready
                && after.createdAt == before.createdAt && after.trashed == before.trashed
    {
      if f >= |rows| || rows[f].None? {
        return false;
      }
      var row := rows[f].value;
      var highest := Highest(row.versions);
      HighestIsMax(row.versions);
      var version := Version(highest + 1, stored, size);
      row := row.(versions := row.versions + [version]);
      row := row.(size := size);
      row := row.(current := Some(|row.versions| - 1));
      rows := rows[f := Some(row)];
      ok := true;
    }

    method Abandon(f: FileId)
      modifies this
      ensures rows == Deleted(old(rows), {f})
      ensures OnlyRow(old(rows), rows, f) && !There(rows, f)
    {
      if f < |rows| {
        rows := rows[f := None];
      }
    }

    method SoftDelete(f: FileId)
      requires There(rows, f)
      modifies this
      ensures rows == old(rows)[f := Some(old(rows)[f].value.(trashed := true))]
    {
      rows := rows[f := Some(rows[f].value.(trashed := true))];
    }

    /** The first half of the sweep: the reservations older than the cutoff. */
    method SelectStale(cutoff: Stamp) returns (keys: seq<FileId>)
      ensures forall f :: f in keys <==> f in Stale(rows, cutoff)
      ensures forall f: FileId :: f in keys <==>
                There(rows, f) && !rows[f].value.ready && rows[f].value.createdAt < cutoff
      ensures forall i, j :: 0 <= i < j < |keys| ==> keys[i] < keys[j]
    {
      keys := [];
      for i := 0 to |rows|
        invariant forall f :: f in keys <==> 0 <= f < i && IsStale(rows[f], cutoff)
        invariant forall k :: 0 <= k < |keys| ==> keys[k] < i
        invariant forall k, j :: 0 <= k < j < |keys| ==> keys[k] < keys[j]
      {
        if IsStale(rows[i], cutoff) {
          keys := keys + [i];
        }
      }
    }

    /** The second half: the rows go by their ids, whatever they are by then. */
    method DeleteRows(keys: seq<FileId>)
      requires forall f :: f in keys ==> f < |rows|
      modifies this
      ensures rows == Deleted(old(rows), set f | f in keys)
    {
      ghost var before := rows;
      for i := 0 to |keys|
        invariant |rows| == |before|
        invariant forall f :: 0 <= f < |rows| ==> rows[f] == if f in keys[..i] then None else before[f]
      {
        assert keys[i] in keys;
        rows := rows[keys[i] := None];
      }
      assert keys[..|keys|] == keys;
    }

    /** Drops the reservations older than the cutoff and returns the keys whose bytes may be left. */
    method SweepPending(cutoff: Stamp) returns (keys: seq<FileId>)
      modifies this
      ensures rows == Deleted(old(rows), Stale(old(rows), cutoff))
      ensures |rows| == |old(rows)|
      ensures forall f: FileId :: f in keys <==>
                There(old(rows), f) && !old(rows)[f].value.ready && old(rows)[f].value.createdAt < cutoff
      ensures forall f: FileId :: f < |rows| ==> rows[f] == if f in keys then None else old(rows)[f]
      ensures forall i, j :: 0 <= i < j < |keys| ==> keys[i] < keys[j]
    {
      keys := SelectStale(cutoff);
      assert (set f | f in keys) == Stale(rows, cutoff);
      DeleteRows(keys);
    }
  }

  // ---------- the sum ----------

  /** Writing one row changes its owner's total by the difference of the sizes, and no other's. */
  lemma {:induction false} WriteChangesUsed(rows: Rows, f: FileId, row: Option<Row>, o: Sub)
    requires f < |rows|
    ensures UsedBytes(rows[f := row], o) == UsedBytes(rows, o) - SizeFor(rows[f], o) + SizeFor(row, o)
    ensures SizeFor(rows[f], o) <= UsedBytes(rows, o)
    decreases |rows|
  {
    var n := |rows| - 1;
    var changed := rows[f := row];
    if f < n {
      assert changed[..n] == rows[..n][f := row];
      WriteChangesUsed(rows[..n], f, row, o);
    } else {
      assert changed[..n] == rows[..n];
    }
  }

  /** Every row of the owner counts with its size, pending and trashed ones too, and no other row. */
  lemma UsedCountsEveryRow(rows: Rows, row: Row, o: Sub)
    ensures UsedBytes([], o) == 0 && UsedBytes(rows + [None], o) == UsedBytes(rows, o)
    ensures UsedBytes(rows + [Some(row)], o) == UsedBytes(rows, o) + if row.owner == o then row.size else 0
  {
    assert (rows + [None])[..|rows|] == rows && (rows + [Some(row)])[..|rows|] == rows;
  }

  lemma ReserveChangesUsed(rows: Rows, o: Sub, place: Place, size: nat, now: Stamp, other: Sub)
    ensures UsedBytes(Reserved(rows, o, place, size, now), other)
        == UsedBytes(rows, other) + if other == o then size else 0
  {
    var longer := Reserved(rows, o, place, size, now);
    assert longer[..|longer| - 1] == rows;
  }

  /** What is deleted is given back, and only to its owners. */
  lemma {:induction false} DeleteReturns(rows: Rows, ids: set<FileId>, o: Sub)
    ensures UsedBytes(Deleted(rows, ids), o) <= UsedBytes(rows, o)
    ensures (forall f :: f in ids && f < |rows| ==> SizeFor(rows[f], o) == 0) ==>
              UsedBytes(Deleted(rows, ids), o) == UsedBytes(rows, o)
    decreases |rows|
  {
    if rows != [] {
      var n := |rows| - 1;
      DeleteReturns(rows[..n], ids, o);
      assert Deleted(rows, ids)[..n] == Deleted(rows[..n], ids);
    }
  }

  // ---------- versions ----------

  /** The numbers are 1 to n in order, and the current version is the last one, with the row's size. */
  ghost predicate WellVersioned(row: Row) {
    && (forall i :: 0 <= i < |row.versions| ==> row.versions[i].no == i + 1)
    && (if row.ready
        then row.versions != [] && row.current == Some(|row.versions| - 1)
             && row.versions[|row.versions| - 1].size == row.size
        else row.versions == [] && row.current == None)
  }

  lemma {:induction false} HighestIsMax(versions: seq<Version>)
    ensures forall v :: v in versions ==> v.no <= Highest(versions)
    ensures Highest(versions) == 0 || exists v :: v in versions && v.no == Highest(versions)
    decreases |versions|
  {
    if versions != [] {
      var n := |versions| - 1;
      HighestIsMax(versions[..n]);
      assert versions == versions[..n] + [versions[n]];
      assert versions[n] in versions;
    }
  }

  lemma {:induction false} HighestIsLast(versions: seq<Version>)
    requires forall i :: 0 <= i < |versions| ==> versions[i].no == i + 1
    ensures Highest(versions) == |versions|
    decreases |versions|
  {
    if versions != [] {
      HighestIsLast(versions[..|versions| - 1]);
    }
  }

  lemma VersionKeepsOrder(row: Row, stored: Stored, size: nat)
    requires WellVersioned(row) && row.ready
    ensures WellVersioned(WithVersion(row, stored, size))
  {
    HighestIsLast(row.versions);
  }
}
