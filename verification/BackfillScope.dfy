/** Which objects a migration moves, which it skips and which it leaves alone, said by their names and rows. */
module BackfillScope {
  import opened Backfill
  import opened BackfillSettles
  import opened Text

  /** Python's `partition("/")`: what is before the first slash, and what is behind it. */
  lemma PartitionIs(owner: string, name: string)
    requires '/' !in owner
    ensures Owner(owner + "/" + name) == owner && Name(owner + "/" + name) == name
    ensures Owner(owner) == owner && Name(owner) == ""
  {
    hide IndexOf;
    var key := owner + "/" + name;
    forall j | 0 <= j < |owner| ensures !OccursAt(key, "/", j) && !OccursAt(owner, "/", j) {
      assert key[j..j + 1] == [owner[j]] == owner[j..j + 1];
    }
    assert key[|owner|..|owner| + 1] == "/";
    IndexOfIs(key, "/", |owner|);
    assert key[..|owner|] == owner && key[|owner| + 1..] == name;
    if IndexOf(owner, "/") >= 0 {
      assert false;
    }
  }

  /** An object of the old scheme: it has a name, which is no UUID, and no row's key names it. */
  predicate Legacy(s: State, isUuid: string -> bool, key: Key) {
    Name(key) != "" && !isUuid(Name(key)) && forall id :: id in s.rows ==> s.rows[id].key != key
  }

  lemma LegacyIff(s: State, isUuid: string -> bool, key: Key)
    ensures Legacy(s, isUuid, key) <==> !Passes(KeysOf(s.rows), isUuid, key)
  {
    hide Name;
  }

  /** A live, ready row at the root of the key's owner has the key's name, up to case. */
  predicate NameTaken(s: State, key: Key) {
    exists id :: id in s.rows && s.rows[id].live && s.rows[id].ready && s.rows[id].folder.None?
                 && s.rows[id].owner == Owner(key) && Lower(s.rows[id].name) == Lower(Name(key))
  }

  lemma TakenIff(s: State, key: Key)
    ensures NameTaken(s, key) <==> Collides(s.rows, key)
  {
    hide Owner, Name;
    if id :| id in s.rows && Covers(s.rows[id], key) {
      assert s.rows[id].live;
    }
    if id :| id in s.rows && s.rows[id].live && s.rows[id].ready && s.rows[id].folder.None?
             && s.rows[id].owner == Owner(key) && Lower(s.rows[id].name) == Lower(Name(key)) {
      assert Covers(s.rows[id], key);
    }
  }

  // ---------- the writes for one object ----------

  /** One after the other: the copy, the row, the removal of the old key; or, when the name is taken, the copy
      and its removal. Nothing else is written. */
  lemma WritesInOrder(s: State, key: Key, id: Id)
    requires key in s.objects
    ensures var newKey := Owner(key) + "/" + id;
      var copied := s.objects[newKey := s.objects[key]];
      var row := Row(Owner(key), None, Name(key), newKey, |s.objects[key]|, true, true);
      && Partial(s, key, id, 0) == s
      && Partial(s, key, id, 1) == State(copied, s.rows)
      && (NameTaken(s, key) ==>
            && Writes(s, key) == 2 && forall k :: k >= 2 ==> Partial(s, key, id, k) == State(copied - {newKey}, s.rows))
      && (!NameTaken(s, key) ==>
            && Writes(s, key) == 3 && Partial(s, key, id, 2) == State(copied, s.rows[id := row])
            && forall k :: k >= 3 ==> Partial(s, key, id, k) == State(copied - {key}, s.rows[id := row]))
  {
    hide Owner, Name, NameTaken, Collides;
    TakenIff(s, key);
  }

  /** A run that is interrupted in the work on an object leaves the first writes for it, and its reports of
      before; a key that is gone ends it as it is; otherwise it goes on with the writes that are left. */
  lemma RunGoesOn(p: Progress, known: set<Key>, isUuid: string -> bool, listing: seq<Key>, ids: seq<Id>,
                  i: nat, budget: nat)
    requires i < |listing| <= |ids| && Name(listing[i]) != "" && !isUuid(Name(listing[i])) && listing[i] !in known
    ensures var key, o := listing[i], RunFrom(p, known, isUuid, listing, ids, i, budget);
      if key !in p.state.objects then o == Outcome(p, false)
      else if budget < (if NameTaken(p.state, key) then 2 else 3)
      then o == Outcome(Progress(Partial(p.state, key, ids[i], budget), p.moved, p.skipped), false)
      else
        var done := Partial(p.state, key, ids[i], 3);
        o == if NameTaken(p.state, key)
             then RunFrom(Progress(done, p.moved, p.skipped + [key]), known, isUuid, listing, ids, i + 1, budget - 2)
             else RunFrom(Progress(done, p.moved + [(key, Owner(key) + "/" + ids[i])], p.skipped), known, isUuid,
                          listing, ids, i + 1, budget - 3)
  {
    hide Owner, Name, Partial, NameTaken, Collides;
    if listing[i] in p.state.objects {
      WritesInOrder(p.state, listing[i], ids[i]);
      TakenIff(p.state, listing[i]);
    }
  }

  // ---------- the dry run ----------

  lemma {:induction false} AnnouncedIff(known: set<Key>, isUuid: string -> bool, listing: seq<Key>, ids: seq<Id>,
                                        key: Key)
    requires |listing| <= |ids|
    ensures From(Announced(known, isUuid, listing, ids), key) <==> key in listing && !Passes(known, isUuid, key)
    decreases |listing|
  {
    hide Passes, NewKey, From;
    if listing == [] {
      NothingFrom(key);
    } else {
      var n := |listing| - 1;
      assert listing == listing[..n] + [listing[n]];
      AnnouncedIff(known, isUuid, listing[..n], ids, key);
      FromSnoc(Announced(known, isUuid, listing[..n], ids), listing[n], NewKey(listing[n], ids[n]), key);
    }
  }

  lemma NothingFrom(key: Key)
    ensures !From([], key)
  {
  }

  /** A dry run announces the listed objects of the old scheme, and no others. */
  lemma DryRunListsLegacy(s: State, isUuid: string -> bool, listing: seq<Key>, ids: seq<Id>, key: Key)
    requires |listing| <= |ids|
    ensures From(Announced(KeysOf(s.rows), isUuid, listing, ids), key)
            <==> key in listing && Legacy(s, isUuid, key)
  {
    hide Legacy, Passes, From;
    LegacyIff(s, isUuid, key);
    AnnouncedIff(KeysOf(s.rows), isUuid, listing, ids, key);
  }

  // ---------- skipped objects ----------

  ghost predicate SkippedHere(p: Progress) {
    forall key :: key in p.skipped ==> key in p.state.objects && Collides(p.state.rows, key)
  }

  lemma SkipStep(p: Progress, known: set<Key>, isUuid: string -> bool, key: Key, id: Id)
    requires SkippedHere(p) && Indexed(p.state, known, isUuid) && Unused(p.state, isUuid, id)
    requires key in p.state.objects && !Passes(known, isUuid, key)
    ensures SkippedHere(Noted(p, key, id))
  {
    hide Owner, Name, Covers, Passes, Indexed, Unused;
    PartialIndexed(p.state, known, isUuid, key, id, 3);
    var p' := Noted(p, key, id);
    forall x | x in p'.skipped ensures x in p'.state.objects && Collides(p'.state.rows, x) {
      if x in p.skipped {
        var r :| r in p.state.rows && Covers(p.state.rows[r], x);
        assert Covers(p'.state.rows[r], x);
      }
    }
  }

  lemma {:induction false} SkippedStay(p: Progress, known: set<Key>, isUuid: string -> bool,
                                       listing: seq<Key>, ids: seq<Id>, i: nat, budget: nat)
    requires i <= |listing| <= |ids| && SkippedHere(p)
    requires Indexed(p.state, known, isUuid) && Supply(p.state, isUuid, ids, i)
    ensures var o := RunFrom(p, known, isUuid, listing, ids, i, budget); o.finished ==> SkippedHere(o.progress)
    decreases |listing| - i
  {
    hide Indexed, Passes, Partial, Collides, SkippedHere;
    if i < |listing| {
      var key := listing[i];
      if Passes(known, isUuid, key) {
        SkippedStay(p, known, isUuid, listing, ids, i + 1, budget);
      } else if key in p.state.objects && Writes(p.state, key) <= budget {
        PartialSafe(map[], p.state, known, isUuid, key, ids[i], 3);
        SkipStep(p, known, isUuid, key, ids[i]);
        SkippedStay(Noted(p, key, ids[i]), known, isUuid, listing, ids, i + 1, budget - Writes(p.state, key));
      }
    }
  }

  // ---------- the scope of a run ----------

  /** This row of the new scheme has the bytes that were at the old key. */
  predicate HasMoved(s: State, s': State, key: Key, id: Id)
    requires key in s.objects
  {
    && id in s'.rows
    && var row := s'.rows[id];
    && row.owner == Owner(key) && row.folder.None? && row.name == Name(key) && row.live && row.ready
    && row.size == |s.objects[key]| && row.key !in s.objects
    && row.key in s'.objects && s'.objects[row.key] == s.objects[key]
  }

  /** After a run that was not interrupted: an object of the old scheme was moved, or it was skipped for the
      name is taken; every other object was neither, and is as it was. */
  lemma MovesExactlyLegacy(s: State, isUuid: string -> bool, a: Attempt, key: Key)
    requires |a.listing| <= |a.ids| && Supply(s, isUuid, a.ids, 0)
    requires forall x :: x in s.objects ==> x in a.listing
    requires Run(s, isUuid, a.listing, a.ids, a.budget).finished && key in s.objects
    ensures var Progress(s', moved, skipped) := Run(s, isUuid, a.listing, a.ids, a.budget).progress;
      && (Legacy(s, isUuid, key) <==> From(moved, key) || key in skipped)
      && !(From(moved, key) && key in skipped)
      && (if From(moved, key) then key !in s'.objects && exists id :: HasMoved(s, s', key, id)
          else key in s'.objects && s'.objects[key] == s.objects[key])
      && (key in skipped ==> NameTaken(s', key))
  {
    hide Legacy, Passes, RunFrom, Accounts, Collides, NameTaken, Name, Owner, HasMoved;
    var known := KeysOf(s.rows);
    var o := Run(s, isUuid, a.listing, a.ids, a.budget);
    LegacyIff(s, isUuid, key);
    AnnouncedIff(known, isUuid, a.listing, a.ids, key);
    DryRunAnnounces(s, isUuid, a, key);
    ReportIsExact(s, isUuid, a);
    AllIndexed(s, isUuid);
    SkippedStay(Progress(s, [], []), known, isUuid, a.listing, a.ids, 0, a.budget);
    WhereItIs(s, o.progress, key);
  }

  lemma WhereItIs(s: State, p: Progress, key: Key)
    requires Accounts(s, p) && SkippedHere(p) && key in s.objects
    ensures !(From(p.moved, key) && key in p.skipped) && (key in p.skipped ==> NameTaken(p.state, key))
    ensures if From(p.moved, key) then key !in p.state.objects && exists id :: HasMoved(s, p.state, key, id)
            else key in p.state.objects && p.state.objects[key] == s.objects[key]
  {
    hide Name, Owner;
    if From(p.moved, key) {
      var m :| m in p.moved && m.0 == key;
      assert Moved(s, p.state, m);
      var id :| Holds(p.state, id, m.0, s.objects[m.0]) && p.state.rows[id].key == m.1;
      assert HasMoved(s, p.state, key, id);
    }
    if key in p.skipped {
      var r :| r in p.state.rows && Covers(p.state.rows[r], key);
      assert p.state.rows[r].live;
    }
  }

  // ---------- names ----------

  /** What the unique index says: no two live, ready rows of an owner at the root with one name, up to case. */
  ghost predicate OneRowPerName(s: State) {
    forall r, q :: r in s.rows && q in s.rows && r != q && Both(s.rows[r], s.rows[q]) ==>
      Lower(s.rows[r].name) != Lower(s.rows[q].name)
  }

  predicate Both(a: Row, b: Row) {
    a.live && b.live && a.ready && b.ready && a.folder.None? && b.folder.None? && a.owner == b.owner
  }

  lemma PartialNames(s: State, key: Key, id: Id, k: nat)
    requires OneRowPerName(s) && key in s.objects
    ensures OneRowPerName(Partial(s, key, id, k))
  {
    hide Owner, Name, NewKey;
    var s' := Partial(s, key, id, k);
    if s'.rows != s.rows {
      forall r | r in s.rows ensures !Covers(s.rows[r], key) {
      }
    }
  }

  lemma {:induction false} RunNames(p: Progress, known: set<Key>, isUuid: string -> bool, listing: seq<Key>,
                                    ids: seq<Id>, i: nat, budget: nat)
    requires i <= |listing| <= |ids| && OneRowPerName(p.state)
    ensures OneRowPerName(RunFrom(p, known, isUuid, listing, ids, i, budget).progress.state)
    decreases |listing| - i
  {
    hide Passes, Partial, Collides, OneRowPerName;
    if i < |listing| {
      var key := listing[i];
      if Passes(known, isUuid, key) {
        RunNames(p, known, isUuid, listing, ids, i + 1, budget);
      } else if key in p.state.objects {
        if budget < Writes(p.state, key) {
          PartialNames(p.state, key, ids[i], budget);
        } else {
          PartialNames(p.state, key, ids[i], 3);
          RunNames(Noted(p, key, ids[i]), known, isUuid, listing, ids, i + 1, budget - Writes(p.state, key));
        }
      }
    }
  }

  /** Any number of runs, wherever they are interrupted, keep the names distinct. */
  lemma {:induction false} NamesStayDistinct(s: State, isUuid: string -> bool, attempts: seq<Attempt>)
    requires Possible(s, isUuid, attempts) && OneRowPerName(s)
    ensures OneRowPerName(After(s, isUuid, attempts))
    decreases |attempts|
  {
    hide OneRowPerName, RunFrom, Supply;
    if attempts != [] {
      var n := |attempts| - 1;
      var before := After(s, isUuid, attempts[..n]);
      NamesStayDistinct(s, isUuid, attempts[..n]);
      RunNames(Progress(before, [], []), KeysOf(before.rows), isUuid, attempts[n].listing, attempts[n].ids, 0,
               attempts[n].budget);
    }
  }

  // ---------- rows and their objects ----------

  /** Every row has its object, of the size that it says. */
  ghost predicate Backed(s: State) {
    forall id :: id in s.rows ==> s.rows[id].key in s.objects && |s.objects[s.rows[id].key]| == s.rows[id].size
  }

  lemma PartialBacked(s: State, known: set<Key>, isUuid: string -> bool, key: Key, id: Id, k: nat)
    requires Backed(s) && Indexed(s, known, isUuid) && key in s.objects && !Passes(known, isUuid, key)
    requires Unused(s, isUuid, id)
    ensures Backed(Partial(s, key, id, k))
  {
    hide Owner, Name, Collides, Passes, NewKey;
    PartialIndexed(s, known, isUuid, key, id, k);
    NewKeyDiffers(s, known, isUuid, key, id);
    assert forall r :: r in s.rows ==> s.rows[r].key != key;
  }

  lemma NewKeyDiffers(s: State, known: set<Key>, isUuid: string -> bool, key: Key, id: Id)
    requires Unused(s, isUuid, id) && !Passes(known, isUuid, key)
    ensures NewKey(key, id) != key
  {
    NewKeyParts(key, id);
  }

  lemma {:induction false} RunBacked(p: Progress, known: set<Key>, isUuid: string -> bool, listing: seq<Key>,
                                     ids: seq<Id>, i: nat, budget: nat)
    requires i <= |listing| <= |ids|
    requires Backed(p.state) && Indexed(p.state, known, isUuid) && Supply(p.state, isUuid, ids, i)
    ensures Backed(RunFrom(p, known, isUuid, listing, ids, i, budget).progress.state)
    decreases |listing| - i
  {
    hide Backed, Indexed, Passes, Partial, Collides, RowsKept;
    if i < |listing| {
      var key := listing[i];
      if Passes(known, isUuid, key) {
        RunBacked(p, known, isUuid, listing, ids, i + 1, budget);
      } else if key in p.state.objects {
        if budget < Writes(p.state, key) {
          PartialBacked(p.state, known, isUuid, key, ids[i], budget);
        } else {
          PartialSafe(map[], p.state, known, isUuid, key, ids[i], 3);
          PartialBacked(p.state, known, isUuid, key, ids[i], 3);
          RunBacked(Noted(p, key, ids[i]), known, isUuid, listing, ids, i + 1, budget - Writes(p.state, key));
        }
      }
    }
  }

  /** Wherever any of the runs is interrupted: no row is there without its object. */
  lemma {:induction false} RowsAreBacked(s: State, isUuid: string -> bool, attempts: seq<Attempt>)
    requires Possible(s, isUuid, attempts) && Backed(s)
    ensures Backed(After(s, isUuid, attempts))
    decreases |attempts|
  {
    hide Backed, RunFrom, Supply, Indexed;
    if attempts != [] {
      var n := |attempts| - 1;
      var before := After(s, isUuid, attempts[..n]);
      RowsAreBacked(s, isUuid, attempts[..n]);
      AllIndexed(before, isUuid);
      RunBacked(Progress(before, [], []), KeysOf(before.rows), isUuid, attempts[n].listing, attempts[n].ids, 0,
                attempts[n].budget);
    }
  }

  // ---------- runs that end ----------

  /** What is still to come is there. */
  ghost predicate Ahead(s: State, listing: seq<Key>, i: nat) {
    forall j :: i <= j < |listing| ==> listing[j] in s.objects
  }

  lemma OneMoreDone(s: State, isUuid: string -> bool, listing: seq<Key>, i: nat, id: Id)
    requires i < |listing| && Ahead(s, listing, i) && Unused(s, isUuid, id)
    requires forall j :: i < j < |listing| ==> listing[j] != listing[i]
    ensures Ahead(Partial(s, listing[i], id, 3), listing, i + 1)
  {
    hide Name, Owner, Collides;
    NewKeyParts(listing[i], id);
  }

  lemma NextIsHere(s: State, isUuid: string -> bool, listing: seq<Key>, ids: seq<Id>, i: nat)
    requires i < |listing| <= |ids| && Ahead(s, listing, i) && Supply(s, isUuid, ids, i)
    ensures listing[i] in s.objects && Ahead(s, listing, i + 1)
    ensures Unused(s, isUuid, ids[i]) && Supply(s, isUuid, ids, i + 1)
  {
  }

  lemma StillSupplied(s: State, isUuid: string -> bool, key: Key, ids: seq<Id>, i: nat)
    requires i < |ids| && key in s.objects && Supply(s, isUuid, ids, i)
    ensures Supply(Partial(s, key, ids[i], 3), isUuid, ids, i + 1)
  {
    hide Owner, Name, Collides;
    NewKeyParts(key, ids[i]);
  }

  lemma {:induction false} EnoughWrites(p: Progress, known: set<Key>, isUuid: string -> bool, listing: seq<Key>,
                                        ids: seq<Id>, i: nat, budget: nat)
    requires i <= |listing| <= |ids| && Ahead(p.state, listing, i)
    requires Indexed(p.state, known, isUuid) && Supply(p.state, isUuid, ids, i)
    requires forall j, k :: 0 <= j < k < |listing| ==> listing[j] != listing[k]
    requires budget >= 3 * (|listing| - i)
    ensures RunFrom(p, known, isUuid, listing, ids, i, budget).finished
    decreases |listing| - i
  {
    hide Indexed, Passes, Partial, Collides, Ahead, Supply, RowsKept;
    if i < |listing| {
      var key := listing[i];
      NextIsHere(p.state, isUuid, listing, ids, i);
      if Passes(known, isUuid, key) {
        EnoughWrites(p, known, isUuid, listing, ids, i + 1, budget);
      } else {
        PartialIndexed(p.state, known, isUuid, key, ids[i], 3);
        OneMoreDone(p.state, isUuid, listing, i, ids[i]);
        StillSupplied(p.state, isUuid, key, ids, i);
        EnoughWrites(Noted(p, key, ids[i]), known, isUuid, listing, ids, i + 1, budget - Writes(p.state, key));
      }
    }
  }

  /** A listing of the bucket, each key once, is worked through with three writes for each. */
  lemma EnoughWritesFinish(s: State, isUuid: string -> bool, a: Attempt)
    requires |a.listing| <= |a.ids| && Supply(s, isUuid, a.ids, 0)
    requires forall x :: x in a.listing ==> x in s.objects
    requires forall j, k :: 0 <= j < k < |a.listing| ==> a.listing[j] != a.listing[k]
    requires a.budget >= 3 * |a.listing|
    ensures Run(s, isUuid, a.listing, a.ids, a.budget).finished
  {
    hide RunFrom, Supply, Indexed;
    AllIndexed(s, isUuid);
    EnoughWrites(Progress(s, [], []), KeysOf(s.rows), isUuid, a.listing, a.ids, 0, a.budget);
  }
}
