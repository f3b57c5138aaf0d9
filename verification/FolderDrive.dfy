/** Creating, moving, renaming and deleting folders: what every such step keeps in any serial run. */
module FolderDrive {
  import opened FolderTree
  import opened Text

  type FileId = nat

  datatype File = File(owner: Sub, folder: Option<FolderId>, ready: bool, deletedAt: Option<Stamp>)

  datatype Drive = Drive(folders: Table, files: map<FileId, File>)

  datatype Reply = Done | NoSuchFolder | NameTaken | WouldCycle
                 | NotEmpty(folders: nat, files: nat) | Trashed(folders: nat, files: nat)

  // ---------- the steps ----------

  /** The unique index on live siblings' names, for a row `x` about to be written. */
  predicate Clashes(t: Table, x: FolderId, row: Folder) {
    exists y :: y in t && y != x && t[y].deletedAt.None? && t[y].owner == row.owner && t[y].parent == row.parent
                && Lower(t[y].name) == Lower(row.name)
  }

  function Created(t: Table, o: Sub, x: FolderId, name: string, parent: Option<FolderId>): (r: (Table, Reply)) {
    var row := Folder(o, name, parent, None);
    if parent.Some? && !Has(t, o, parent.value, true) then (t, NoSuchFolder)
    else if Clashes(t, x, row) then (t, NameTaken)
    else (t[x := row], Done)
  }

  /** `name` and `move` are what the request carries: an absent field, or its new value. */
  function Updated(t: Table, o: Sub, x: FolderId, name: Option<string>, move: Option<Option<FolderId>>):
    (r: (Table, Reply))
  {
    if !Has(t, o, x, true) then (t, NoSuchFolder)
    else
      var parent := if move.Some? then move.value else t[x].parent;
      var row := t[x].(name := if name.Some? then name.value else t[x].name, parent := parent);
      if parent != t[x].parent && parent.Some? && !Has(t, o, parent.value, true) then (t, NoSuchFolder)
      else if parent != t[x].parent && parent.Some? && IsCycle(t, o, x, parent.value) then (t, WouldCycle)
      else if row != t[x] && Clashes(t, x, row) then (t, NameTaken)
      else (t[x := row], Done)
  }

  function LiveFilesIn(files: map<FileId, File>, o: Sub, ids: set<FolderId>): set<FileId> {
    set f | f in files && files[f].owner == o && files[f].deletedAt.None? && files[f].ready
            && files[f].folder.Some? && files[f].folder.value in ids
  }

  function Counts(d: Drive, o: Sub, x: FolderId): (r: (nat, nat)) {
    var ids := Subtree(d.folders, o, x);
    (if |ids| > 0 then |ids| - 1 else 0, |LiveFilesIn(d.files, o, ids)|)
  }

  function TrashFolders(t: Table, ids: set<FolderId>, now: Stamp): Table {
    map x | x in t :: if x in ids then t[x].(deletedAt := Some(now)) else t[x]
  }

  function TrashFiles(files: map<FileId, File>, ids: set<FileId>, now: Stamp): map<FileId, File> {
    map f | f in files :: if f in ids then files[f].(deletedAt := Some(now)) else files[f]
  }

  function Deleted(d: Drive, o: Sub, x: FolderId, recursive: bool, now: Stamp): (r: (Drive, Reply)) {
    if !Has(d.folders, o, x, true) then (d, NoSuchFolder)
    else
      var (below, files) := Counts(d, o, x);
      if (below > 0 || files > 0) && !recursive then (d, NotEmpty(below, files))
      else
        var ids := Subtree(d.folders, o, x);
        (Drive(TrashFolders(d.folders, ids, now), TrashFiles(d.files, LiveFilesIn(d.files, o, ids), now)),
         Trashed(below, files))
  }

  // ---------- the routes ----------

  class FolderRoutes {
    var folders: Table
    var files: map<FileId, File>

    constructor ()
      ensures folders == map[] && files == map[]
    {
      folders, files := map[], map[];
    }

    method CreateFolder(o: Sub, id: FolderId, name: string, parent: Option<FolderId>) returns (reply: Reply)
      requires id !in folders
      modifies this`folders
      ensures (folders, reply) == Created(old(folders), o, id, name, parent)
    {
      if parent.Some? && !Has(folders, o, parent.value, true) {
        return NoSuchFolder;
      }
      reply := Commit(id, Folder(o, name, parent, None));
    }

    method UpdateFolder(o: Sub, id: FolderId, name: Option<string>, move: Option<Option<FolderId>>)
      returns (reply: Reply)
      modifies this`folders
      ensures (folders, reply) == Updated(old(folders), o, id, name, move)
    {
      if !Has(folders, o, id, true) {
        return NoSuchFolder;
      }
      var row := folders[id];
      var changes := row;
      if name.Some? && name.value != row.name {
        changes := changes.(name := name.value);
      }
      if move.Some? && move.value != row.parent {
        if move.value.Some? {
          if !Has(folders, o, move.value.value, true) {
            return NoSuchFolder;
          }
          if IsCycle(folders, o, id, move.value.value) {
            return WouldCycle;
          }
        }
        changes := changes.(parent := move.value);
      }
      if changes != row {
        reply := Commit(id, changes);
      } else {
        assert folders == folders[id := row];
        reply := Done;
      }
    }

    /** The write itself: the unique index refuses it or the whole row is there. */
    method Commit(id: FolderId, row: Folder) returns (reply: Reply)
      modifies this`folders
      ensures reply == if Clashes(old(folders), id, row) then NameTaken else Done
      ensures folders == if Clashes(old(folders), id, row) then old(folders) else old(folders)[id := row]
    {
      if Clashes(folders, id, row) {
        return NameTaken;
      }
      folders := folders[id := row];
      reply := Done;
    }

    method DeleteFolder(o: Sub, id: FolderId, recursive: bool, now: Stamp) returns (reply: Reply)
      modifies this
      ensures (Drive(folders, files), reply) == Deleted(old(Drive(folders, files)), o, id, recursive, now)
    {
      if !Has(folders, o, id, true) {
        return NoSuchFolder;
      }
      var ids := Subtree(folders, o, id);
      var inside := LiveFilesIn(files, o, ids);
      var below, held := if |ids| > 0 then |ids| - 1 else 0, |inside|;
      if (below > 0 || held > 0) && !recursive {
        return NotEmpty(below, held);
      }
      files := TrashFiles(files, inside, now);
      folders := TrashFolders(folders, ids, now);
      reply := Trashed(below, held);
    }
  }

  // ---------- creation and change ----------

  /** A live folder of this owner. */
  predicate IsLive(t: Table, o: Sub, x: FolderId) {
    x in t && t[x].owner == o && t[x].deletedAt.None?
  }

  /** A new folder is refused for a missing parent, or for a live sibling of its name up to case; otherwise it
      is there as asked. */
  lemma CreateIsExact(t: Table, o: Sub, x: FolderId, name: string, parent: Option<FolderId>)
    requires x !in t
    ensures var (t', reply) := Created(t, o, x, name, parent);
      && (reply == NoSuchFolder <==> parent.Some? && !IsLive(t, o, parent.value))
      && (reply == NameTaken <==>
            reply != NoSuchFolder
            && exists y :: IsLive(t, o, y) && t[y].parent == parent && Lower(t[y].name) == Lower(name))
      && (reply == Done || reply == NoSuchFolder || reply == NameTaken)
      && t' == if reply == Done then t[x := Folder(o, name, parent, None)] else t
  {
  }

  /** The refusals of a change: a folder or a new parent that is not there, a new parent below the folder, and
      a live sibling of the new name at the new place; a move to where it is, is none. */
  lemma UpdateRefusals(t: Table, o: Sub, x: FolderId, name: Option<string>, move: Option<Option<FolderId>>)
    ensures var (t', reply) := Updated(t, o, x, name, move);
      if !IsLive(t, o, x) then reply == NoSuchFolder
      else
        var parent := if move.Some? then move.value else t[x].parent;
        var called := if name.Some? then name.value else t[x].name;
        var moves := parent != t[x].parent && parent.Some?;
        && (reply == NoSuchFolder <==> moves && !IsLive(t, o, parent.value))
        && (reply == WouldCycle <==> moves && IsLive(t, o, parent.value) && Climbs(t, o, parent.value, x, false))
        && (reply == NameTaken <==>
              && reply != NoSuchFolder && reply != WouldCycle && (parent != t[x].parent || called != t[x].name)
              && exists y :: y != x && IsLive(t, o, y) && t[y].parent == parent && Lower(t[y].name) == Lower(called))
        && (reply == Done || reply == NoSuchFolder || reply == WouldCycle || reply == NameTaken)
  {
    hide IsCycle, Climbs;
    if move.Some? && move.value.Some? {
      CycleTestExact(t, o, x, move.value.value);
    }
  }

  // ---------- deletion ----------

  /** A recursive delete stamps exactly the folder, the live folders below it through live ones, and
      their owner's live ready files; it reports the numbers that the refusal had announced. */
  lemma DeleteIsExact(d: Drive, o: Sub, x: FolderId, now: Stamp)
    requires Has(d.folders, o, x, true)
    ensures var (d', reply) := Deleted(d, o, x, true, now);
      && d'.folders.Keys == d.folders.Keys && d'.files.Keys == d.files.Keys
      && (forall y :: y in d.folders ==>
            d'.folders[y] == if Climbs(d.folders, o, y, x, true) then d.folders[y].(deletedAt := Some(now))
                else d.folders[y])
      && (forall f :: f in d.files ==>
            var file := d.files[f];
            d'.files[f] == if file.owner == o && file.ready && file.deletedAt.None? && file.folder.Some?
                              && Climbs(d.folders, o, file.folder.value, x, true)
                           then file.(deletedAt := Some(now)) else file)
      && reply.Trashed?
      && Deleted(d, o, x, false, now) ==
           if reply.folders == 0 && reply.files == 0 then (d', reply) else (d, NotEmpty(reply.folders, reply.files))
  {
    forall y ensures y in Subtree(d.folders, o, x) <==> Climbs(d.folders, o, y, x, true) {
      SubtreeExact(d.folders, o, x, y);
    }
    assert Up(d.folders, o, x, 0, true) == Some(x);
  }

  /** A folder that is not there, not live or another's is not deleted. */
  lemma DeleteRefused(d: Drive, o: Sub, x: FolderId, recursive: bool, now: Stamp)
    requires !IsLive(d.folders, o, x)
    ensures Deleted(d, o, x, recursive, now) == (d, NoSuchFolder)
  {
  }

  /** The two numbers are what the stamps show: the folders other than the deleted one, and the files. */
  lemma CountsAreWhatIsStamped(d: Drive, o: Sub, x: FolderId, now: Stamp)
    requires Has(d.folders, o, x, true)
    ensures var (d', reply) := Deleted(d, o, x, true, now);
      && reply.folders == |set y | y in d.folders && y != x && d'.folders[y] != d.folders[y]|
      && reply.files == |set f | f in d.files && d'.files[f] != d.files[f]|
  {
    hide IsCycle;
    var (d', reply) := Deleted(d, o, x, true, now);
    var ids := Subtree(d.folders, o, x);
    assert x in ids;
    AllLive(d.folders, o, x);
    assert (set y | y in d.folders && y != x && d'.folders[y] != d.folders[y]) == ids - {x};
    assert (set f | f in d.files && d'.files[f] != d.files[f]) == LiveFilesIn(d.files, o, ids);
  }

  lemma AllLive(t: Table, o: Sub, x: FolderId)
    ensures forall y :: y in Subtree(t, o, x) ==> Has(t, o, y, true)
  {
    forall y | y in Subtree(t, o, x) ensures Has(t, o, y, true) {
      SubtreeExact(t, o, x, y);
    }
  }

  /** One shared stamp: when no row carried it before, the batch can be told from everything else. */
  lemma BatchCanBeRestored(d: Drive, o: Sub, x: FolderId, now: Stamp, y: FolderId)
    requires Has(d.folders, o, x, true) && y in d.folders
    requires forall z :: z in d.folders ==> d.folders[z].deletedAt != Some(now)
    ensures var d' := Deleted(d, o, x, true, now).0;
      && (d'.folders[y].deletedAt == Some(now) <==> y in Subtree(d.folders, o, x))
      && d.folders[y] == if d'.folders[y].deletedAt == Some(now) then d'.folders[y].(deletedAt := None)
          else d'.folders[y]
  {
    AllLive(d.folders, o, x);
  }

  /** On any table, a delete leaves none of the owner's live folders directly under what it trashed. */
  lemma NothingLiveIsLeftBelow(d: Drive, o: Sub, x: FolderId, now: Stamp, y: FolderId)
    requires Has(d.folders, o, x, true)
    requires y in Deleted(d, o, x, true, now).0.folders
    ensures var t := Deleted(d, o, x, true, now).0.folders;
      Has(t, o, y, true) && t[y].parent.Some? ==> t[y].parent.value !in Subtree(d.folders, o, x)
  {
    var t := Deleted(d, o, x, true, now).0.folders;
    if Has(t, o, y, true) && t[y].parent.Some? {
      assert ChildOf(d.folders, y, t[y].parent.value);
    }
  }

  /** A refused request changes nothing; a granted one changes the name and the parent of this one row
      as asked, and after it the row is a live folder beside no other of its name. */
  lemma UpdateTouchesOneRow(t: Table, o: Sub, x: FolderId, name: Option<string>, move: Option<Option<FolderId>>)
    requires DistinctSiblings(t)
    ensures var (t', reply) := Updated(t, o, x, name, move);
      && (reply != Done ==> t' == t)
      && t'.Keys == t.Keys && (forall y :: y in t && y != x ==> t'[y] == t[y])
      && (reply == Done ==>
            && Has(t', o, x, true)
            && (name.Some? ==> t'[x].name == name.value) && (name.None? ==> t'[x].name == t[x].name)
            && (move.Some? ==> t'[x].parent == move.value) && (move.None? ==> t'[x].parent == t[x].parent)
            && !Clashes(t', x, t'[x]))
  {
    hide IsCycle;
    var (t', reply) := Updated(t, o, x, name, move);
    if reply.Done? {
      if y :| y in t' && y != x && t'[y].deletedAt.None? && t'[y].owner == t'[x].owner && t'[y].parent == t'[x].parent
              && Lower(t'[y].name) == Lower(t'[x].name) {
        assert false;
      }
    }
  }

  // ---------- every serial run ----------

  predicate Siblings(a: Folder, b: Folder) {
    a.deletedAt.None? && b.deletedAt.None? && a.owner == b.owner && a.parent == b.parent
  }

  ghost predicate DistinctSiblings(t: Table) {
    forall x, y :: x in t && y in t && x != y && Siblings(t[x], t[y]) ==> Lower(t[x].name) != Lower(t[y].name)
  }

  ghost predicate Sound(t: Table) {
    LiveClosed(t) && Acyclic(t) && DistinctSiblings(t)
  }

  datatype Action =
    | Create(owner: Sub, id: FolderId, name: string, parent: Option<FolderId>)
    | Update(owner: Sub, id: FolderId, rename: Option<string>, move: Option<Option<FolderId>>)
    | Delete(owner: Sub, id: FolderId, recursive: bool, now: Stamp)
    | FilesBecome(files: map<FileId, File>)

  /** New ids are fresh UUIDs; everything else may be asked for at any time. */
  predicate Enabled(d: Drive, a: Action) {
    a.Create? ==> a.id !in d.folders
  }

  function Step(d: Drive, a: Action): Drive {
    match a
    case Create(o, x, name, parent) => d.(folders := Created(d.folders, o, x, name, parent).0)
    case Update(o, x, name, move) => d.(folders := Updated(d.folders, o, x, name, move).0)
    case Delete(o, x, recursive, now) => Deleted(d, o, x, recursive, now).0
    case FilesBecome(files) => d.(files := files)
  }

  predicate Possible(d: Drive, run: seq<Action>)
    decreases |run|
  {
    run == [] || (Possible(d, run[..|run| - 1]) && Enabled(Exec(d, run[..|run| - 1]), run[|run| - 1]))
  }

  function Exec(d: Drive, run: seq<Action>): Drive
    decreases |run|
  {
    if run == [] then d else Step(Exec(d, run[..|run| - 1]), run[|run| - 1])
  }

  /** Each step writes what its route writes: folders are created and changed without touching a file, a deletion
      stamps both, and other changes of files leave the folders. */
  lemma StepWrites(d: Drive, a: Action)
    ensures var d' := Step(d, a);
      && (a.Create? ==> d'.folders == Created(d.folders, a.owner, a.id, a.name, a.parent).0 && d'.files == d.files)
      && (a.Update? ==> d'.folders == Updated(d.folders, a.owner, a.id, a.rename, a.move).0 && d'.files == d.files)
      && (a.Delete? ==> d' == Deleted(d, a.owner, a.id, a.recursive, a.now).0)
      && (a.FilesBecome? ==> d'.folders == d.folders && d'.files == a.files)
  {
  }

  /** A new folder has nothing below it and a finite climb above it. */
  lemma CreateKeepsAcyclic(t: Table, x: FolderId, row: Folder)
    requires Acyclic(t) && x !in t && (row.parent.Some? ==> row.parent.value in t)
    requires LiveClosed(t) && ParentsKnown(t)
    ensures Acyclic(t[x := row])
  {
    var u := t[x := row];
    forall o, y ensures Rooted(u, o, y) {
      if y == x && row.parent.Some? {
        var p := row.parent.value;
        assert Rooted(t, o, p);
        var n: nat :| Up(t, o, p, n, false).None?;
        NewUnnoticed(t, x, row, o, p, n);
        assert Up(u, o, x, n + 1, false).None?;
      } else if y == x {
        assert Up(u, o, x, 1, false).None?;
      } else {
        assert Rooted(t, o, y);
        var n: nat :| Up(t, o, y, n, false).None?;
        NewUnnoticed(t, x, row, o, y, n);
      }
    }
  }

  /** The foreign key on `parent_id`. */
  ghost predicate ParentsKnown(t: Table) {
    forall x :: x in t && t[x].parent.Some? ==> t[x].parent.value in t
  }

  lemma {:induction false} NewUnnoticed(t: Table, x: FolderId, row: Folder, o: Sub, y: FolderId, n: nat)
    requires x !in t && y != x && ParentsKnown(t)
    ensures Up(t[x := row], o, y, n, false) == Up(t, o, y, n, false)
    decreases n
  {
    if n > 0 && Has(t, o, y, false) && t[y].parent.Some? {
      NewUnnoticed(t, x, row, o, t[y].parent.value, n - 1);
    }
  }

  lemma CreateKeepsSound(t: Table, o: Sub, x: FolderId, name: string, parent: Option<FolderId>)
    requires Sound(t) && ParentsKnown(t) && x !in t
    ensures var t' := Created(t, o, x, name, parent).0; Sound(t') && ParentsKnown(t')
  {
    hide Acyclic;
    var (t', reply) := Created(t, o, x, name, parent);
    if reply.Done? {
      CreateKeepsAcyclic(t, x, Folder(o, name, parent, None));
      assert DistinctSiblings(t');
    }
  }

  lemma UpdateKeepsSound(t: Table, o: Sub, x: FolderId, name: Option<string>, move: Option<Option<FolderId>>)
    requires Sound(t) && ParentsKnown(t)
    ensures var t' := Updated(t, o, x, name, move).0; Sound(t') && ParentsKnown(t')
  {
    hide Acyclic, IsCycle;
    var (t', reply) := Updated(t, o, x, name, move);
    if reply.Done? {
      MoveKeepsAcyclic(t, t', o, x);
      assert LiveClosed(t');
      assert DistinctSiblings(t');
    }
  }

  lemma DeleteKeepsSound(d: Drive, o: Sub, x: FolderId, recursive: bool, now: Stamp)
    requires Sound(d.folders) && ParentsKnown(d.folders)
    ensures var t := Deleted(d, o, x, recursive, now).0.folders; Sound(t) && ParentsKnown(t)
  {
    hide IsCycle;
    var (d', reply) := Deleted(d, o, x, recursive, now);
    if reply.Trashed? {
      var ids := Subtree(d.folders, o, x);
      var t := TrashFolders(d.folders, ids, now);
      forall o', y ensures Rooted(t, o', y) {
        assert Rooted(d.folders, o', y);
        var n: nat :| Up(d.folders, o', y, n, false).None?;
        SameParentsSameClimb(d.folders, t, o', y, n);
      }
      AllLive(d.folders, o, x);
      forall y | y in t && t[y].deletedAt.None? && t[y].parent.Some?
        ensures Has(t, t[y].owner, t[y].parent.value, true)
      {
        assert ChildOf(d.folders, y, t[y].parent.value);
      }
    }
  }

  /** In every serial run from the empty drive, moves keep the folders acyclic, no live folder is ever
      under a missing, foreign or trashed one, and live siblings have different names. */
  lemma {:induction false} EveryRunIsSound(run: seq<Action>)
    requires Possible(Drive(map[], map[]), run)
    ensures var t := Exec(Drive(map[], map[]), run).folders; Sound(t) && ParentsKnown(t)
    decreases |run|
  {
    hide Sound;
    if run == [] {
      EmptyIsSound();
    } else {
      EveryRunIsSound(run[..|run| - 1]);
      var d, a := Exec(Drive(map[], map[]), run[..|run| - 1]), run[|run| - 1];
      match a
      case Create(o, x, name, parent) => CreateKeepsSound(d.folders, o, x, name, parent);
      case Update(o, x, name, move) => UpdateKeepsSound(d.folders, o, x, name, move);
      case Delete(o, x, recursive, now) => DeleteKeepsSound(d, o, x, recursive, now);
      case FilesBecome(files) =>
    }
  }

  lemma EmptyIsSound()
    ensures Sound(map[]) && ParentsKnown(map[])
  {
    forall o, x ensures Rooted(map[], o, x) {
      assert Up(map[], o, x, 0, false).None?;
    }
  }

  /** The routes do what the steps say. */
  method Serve(routes: FolderRoutes, a: Action)
    requires Enabled(Drive(routes.folders, routes.files), a)
    modifies routes
    ensures Drive(routes.folders, routes.files) == Step(old(Drive(routes.folders, routes.files)), a)
  {
    match a {
      case Create(o, x, name, parent) =>
        var _ := routes.CreateFolder(o, x, name, parent);
      case Update(o, x, name, move) =>
        var _ := routes.UpdateFolder(o, x, name, move);
      case Delete(o, x, recursive, now) =>
        var _ := routes.DeleteFolder(o, x, recursive, now);
      case FilesBecome(files) => routes.files := files;
    }
  }

  /** So the routes, serving any requests one after the other, keep the table sound. */
  method ServeAll(run: seq<Action>) returns (routes: FolderRoutes)
    requires Possible(Drive(map[], map[]), run)
    ensures Drive(routes.folders, routes.files) == Exec(Drive(map[], map[]), run) && Sound(routes.folders)
  {
    hide Sound, Step, Enabled;
    routes := new FolderRoutes();
    for i := 0 to |run|
      invariant fresh(routes) && Drive(routes.folders, routes.files) == Exec(Drive(map[], map[]), run[..i])
      invariant Possible(Drive(map[], map[]), run[..i])
    {
      PrefixPossible(Drive(map[], map[]), run, i + 1);
      assert run[..i + 1][..i] == run[..i];
      Serve(routes, run[i]);
    }
    assert run[..|run|] == run;
    EveryRunIsSound(run);
  }

  lemma {:induction false} PrefixPossible(d: Drive, run: seq<Action>, n: nat)
    requires Possible(d, run) && n <= |run|
    ensures Possible(d, run[..n])
    decreases |run|
  {
    hide Step, Enabled;
    if n < |run| {
      PrefixPossible(d, run[..|run| - 1], n);
      assert run[..|run| - 1][..n] == run[..n];
    } else {
      assert run[..n] == run;
    }
  }

  /** So after any run a move of a live folder is refused as a cycle exactly when the new parent is
      one of the folders that deleting it would trash. */
  lemma RefusedExactlyBelow(run: seq<Action>, o: Sub, x: FolderId, p: FolderId)
    requires Possible(Drive(map[], map[]), run)
    requires var t := Exec(Drive(map[], map[]), run).folders; Has(t, o, x, true) && Has(t, o, p, true)
    ensures var t := Exec(Drive(map[], map[]), run).folders;
      Updated(t, o, x, None, Some(Some(p))).1 == WouldCycle <==> p in Subtree(t, o, x)
  {
    hide Exec, Possible;
    var t := Exec(Drive(map[], map[]), run).folders;
    EveryRunIsSound(run);
    UpwardAgreesWithDownward(t, o, x, p);
    if t[x].parent == Some(p) {
      if p in Subtree(t, o, x) {
        SubtreeExact(t, o, x, p);
        var n: nat :| Up(t, o, p, n, true) == Some(x);
        LiveClimbIsClimb(t, o, p, n);
        assert Up(t, o, x, n + 1, false) == Some(x);
        NoOwnAncestor(t, o, x, n + 1);
      }
    }
  }

  /** Two moves whose checks both passed on one sound table and whose rows are then both written: the
      result is acyclic unless each of the two folders was sent into the other. */
  lemma BothCheckedThenWritten(t: Table, o: Sub, x: FolderId, p: FolderId, y: FolderId, q: FolderId)
    requires Sound(t) && x != y && Has(t, o, x, true) && Has(t, o, y, true)
    requires t[x].parent != Some(p) && t[y].parent != Some(q)
    requires Updated(t, o, x, None, Some(Some(p))) == (Moved(t, x, p), Done)
    requires Updated(t, o, y, None, Some(Some(q))) == (Moved(t, y, q), Done)
    ensures !Acyclic(Moved(Moved(t, x, p), y, q)) <==> q in Subtree(t, o, x) && p in Subtree(t, o, y)
  {
    hide Acyclic, DistinctSiblings;
    RacingMovesIff(t, o, x, p, y, q);
    UpwardAgreesWithDownward(t, o, x, q);
    UpwardAgreesWithDownward(t, o, y, p);
  }

  /** Checking and writing are two steps: opposite moves that both check first leave a cycle. */
  lemma OppositeMovesRace(o: Sub)
    ensures var a, b := Folder(o, "a", None, None), Folder(o, "b", None, None);
      var t := map[1 := a, 2 := b];
      && Updated(t, o, 1, None, Some(Some(2))) == (t[1 := a.(parent := Some(2))], Done)
      && Updated(t, o, 2, None, Some(Some(1))) == (t[2 := b.(parent := Some(1))], Done)
      && !Acyclic(t[1 := a.(parent := Some(2))][2 := b.(parent := Some(1))])
  {
    var a, b := Folder(o, "a", None, None), Folder(o, "b", None, None);
    var t := map[1 := a, 2 := b];
    CycleTestExact(t, o, 1, 2);
    CycleTestExact(t, o, 2, 1);
    forall x, n: nat | 1 <= x <= 2 && n > 0 ensures Up(t, o, x, n, false).None? {}
    assert Up(t, o, 1, 0, false) == Some(1) && Up(t, o, 2, 0, false) == Some(2);
    var u := t[1 := a.(parent := Some(2))][2 := b.(parent := Some(1))];
    assert Up(u, o, 1, 0, false) == Some(1);
    assert Up(u, o, 2, 1, false) == Some(1);
    assert Up(u, o, 1, 2, false) == Some(1);
    if Acyclic(u) {
      NoOwnAncestor(u, o, 1, 2);
    }
  }
}
