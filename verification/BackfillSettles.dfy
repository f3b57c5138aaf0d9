/** What an uninterrupted migration has done, and that doing it again changes nothing. */
module BackfillSettles {
  import opened Backfill
  import opened Text

  // ---------- rows and their bytes are never touched ----------

  /** Whatever files already had rows keep them, with their bytes, wherever a run is interrupted. */
  lemma {:induction false} RunKeepsRows(p: Progress, known: set<Key>, isUuid: string -> bool,
                                        listing: seq<Key>, ids: seq<Id>, i: nat, budget: nat)
    requires i <= |listing| <= |ids|
    requires Indexed(p.state, known, isUuid) && Supply(p.state, isUuid, ids, i)
    ensures RowsKept(p.state, RunFrom(p, known, isUuid, listing, ids, i, budget).progress.state)
    decreases |listing| - i
  {
    hide Indexed, Collides, Passes, Partial, RowsKept;
    KeptIsKept(p.state, p.state, p.state);
    if i < |listing| {
      var key := listing[i];
      if Passes(known, isUuid, key) {
        RunKeepsRows(p, known, isUuid, listing, ids, i + 1, budget);
      } else if key in p.state.objects {
        var n := Writes(p.state, key);
        if budget < n {
          PartialSafe(map[], p.state, known, isUuid, key, ids[i], budget);
        } else {
          PartialSafe(map[], p.state, known, isUuid, key, ids[i], 3);
          RunKeepsRows(Noted(p, key, ids[i]), known, isUuid, listing, ids, i + 1, budget - n);
          KeptIsKept(p.state, Noted(p, key, ids[i]).state,
                     RunFrom(p, known, isUuid, listing, ids, i, budget).progress.state);
        }
      }
    }
  }

  lemma KeptIsKept(a: State, b: State, c: State)
    ensures RowsKept(a, a)
    ensures RowsKept(a, b) && RowsKept(b, c) ==> RowsKept(a, c)
  {
  }

  // ---------- after an uninterrupted run ----------

  /** Nothing is left that a run would move. */
  ghost predicate Settled(s: State, known: set<Key>, isUuid: string -> bool) {
    forall key :: key in s.objects ==> Passes(known, isUuid, key) || Collides(s.rows, key)
  }

  lemma MoveSettles(s: State, known: set<Key>, isUuid: string -> bool, key: Key, id: Id, x: Key)
    requires key in s.objects && Unused(s, isUuid, id) && !Passes(known, isUuid, key)
    requires x in Partial(s, key, id, 3).objects
    ensures x == key ==> Collides(s.rows, key)
    ensures x !in s.objects ==> Passes(known, isUuid, x)
    ensures Collides(s.rows, x) ==> Collides(Partial(s, key, id, 3).rows, x)
  {
    hide Owner, Name, Covers;
    NewKeyParts(key, id);
    if r :| r in s.rows && Covers(s.rows[r], x) {
      assert Covers(Partial(s, key, id, 3).rows[r], x);
    }
  }

  lemma {:induction false} FinishSettles(p: Progress, known: set<Key>, isUuid: string -> bool,
                                         listing: seq<Key>, ids: seq<Id>, i: nat, budget: nat)
    requires i <= |listing| <= |ids|
    requires Indexed(p.state, known, isUuid) && Supply(p.state, isUuid, ids, i)
    requires forall x :: x in p.state.objects && x !in listing[i..] ==>
        Passes(known, isUuid, x) || Collides(p.state.rows, x)
    ensures var o := RunFrom(p, known, isUuid, listing, ids, i, budget);
      o.finished ==> Settled(o.progress.state, known, isUuid)
    decreases |listing| - i
  {
    hide Indexed, Passes, Partial, Collides;
    if i < |listing| {
      var key := listing[i];
      assert listing[i..] == [key] + listing[i + 1..];
      if Passes(known, isUuid, key) {
        FinishSettles(p, known, isUuid, listing, ids, i + 1, budget);
      } else if key in p.state.objects && Writes(p.state, key) <= budget {
        PartialSafe(map[], p.state, known, isUuid, key, ids[i], 3);
        OneMoreSettled(p.state, known, isUuid, listing, i, ids[i]);
        FinishSettles(Noted(p, key, ids[i]), known, isUuid, listing, ids, i + 1, budget - Writes(p.state, key));
      }
    }
  }

  lemma OneMoreSettled(s: State, known: set<Key>, isUuid: string -> bool, listing: seq<Key>, i: nat, id: Id)
    requires i < |listing| && listing[i] in s.objects && Unused(s, isUuid, id) && !Passes(known, isUuid, listing[i])
    requires forall x :: x in s.objects && x !in listing[i..] ==> Passes(known, isUuid, x) || Collides(s.rows, x)
    ensures var s' := Partial(s, listing[i], id, 3);
      forall x :: x in s'.objects && x !in listing[i + 1..] ==> Passes(known, isUuid, x) || Collides(s'.rows, x)
  {
    hide Passes, Partial, Collides;
    var key := listing[i];
    assert listing[i..] == [key] + listing[i + 1..];
    forall x | x in Partial(s, key, id, 3).objects && x !in listing[i + 1..]
      ensures Passes(known, isUuid, x) || Collides(Partial(s, key, id, 3).rows, x)
    {
      MoveSettles(s, known, isUuid, key, id, x);
      if x == key {
        SameCollision(s, key, id);
      }
    }
  }

  lemma SameCollision(s: State, key: Key, id: Id)
    requires key in s.objects && Collides(s.rows, key)
    ensures Partial(s, key, id, 3).rows == s.rows
  {
  }

  // ---------- once more ----------

  /** Running again over a settled bucket: nothing moves, and when the run ends on its own everything
      is as it was. */
  lemma {:induction false} SettledStays(p: Progress, known: set<Key>, isUuid: string -> bool,
                                        listing: seq<Key>, ids: seq<Id>, i: nat, budget: nat)
    requires i <= |listing| <= |ids|
    requires Settled(p.state, known, isUuid) && Supply(p.state, isUuid, ids, i)
    ensures var o := RunFrom(p, known, isUuid, listing, ids, i, budget);
      && o.progress.moved == p.moved && o.progress.state.rows == p.state.rows
      && (o.finished ==> o.progress.state == p.state)
    decreases |listing| - i
  {
    hide Passes, Collides;
    if i < |listing| {
      var key := listing[i];
      if Passes(known, isUuid, key) {
        SettledStays(p, known, isUuid, listing, ids, i + 1, budget);
      } else if key in p.state.objects {
        RefusedIsUndone(p.state, isUuid, key, ids[i]);
        if Writes(p.state, key) <= budget {
          SettledStays(Noted(p, key, ids[i]), known, isUuid, listing, ids, i + 1, budget - Writes(p.state, key));
        }
      }
    }
  }

  lemma RefusedIsUndone(s: State, isUuid: string -> bool, key: Key, id: Id)
    requires key in s.objects && Collides(s.rows, key) && Unused(s, isUuid, id)
    ensures Partial(s, key, id, 3) == s
    ensures forall k :: 0 <= k < 2 ==> Partial(s, key, id, k).rows == s.rows
  {
    hide Owner, Name, Collides;
    NewKeyParts(key, id);
    assert Partial(s, key, id, 3).objects == s.objects;
  }

  /** After a run that was not interrupted and listed the whole bucket, another run moves nothing and
      touches no row; and unless it is interrupted itself, it leaves the bucket as it was. */
  lemma AnotherRunDoesNothing(s: State, isUuid: string -> bool, first: Attempt, second: Attempt)
    requires |first.listing| <= |first.ids| && Supply(s, isUuid, first.ids, 0)
    requires forall key :: key in s.objects ==> key in first.listing
    requires Run(s, isUuid, first.listing, first.ids, first.budget).finished
    requires var s' := Run(s, isUuid, first.listing, first.ids, first.budget).progress.state;
      |second.listing| <= |second.ids| && Supply(s', isUuid, second.ids, 0)
    ensures var s' := Run(s, isUuid, first.listing, first.ids, first.budget).progress.state;
      var again := Run(s', isUuid, second.listing, second.ids, second.budget);
      && again.progress.moved == [] && again.progress.state.rows == s'.rows
      && (again.finished ==> again.progress.state == s')
  {
    hide RunFrom, Supply;
    var known := KeysOf(s.rows);
    var p := Progress(s, [], []);
    assert first.listing[0..] == first.listing;
    AllIndexed(s, isUuid);
    assert forall x :: x in s.objects ==> x in first.listing[0..];
    FinishSettles(p, known, isUuid, first.listing, first.ids, 0, first.budget);
    RunKeepsRows(p, known, isUuid, first.listing, first.ids, 0, first.budget);
    var s' := Run(s, isUuid, first.listing, first.ids, first.budget).progress.state;
    MoreKnown(s, s', isUuid);
    SettledStays(Progress(s', [], []), KeysOf(s'.rows), isUuid, second.listing, second.ids, 0, second.budget);
  }

  lemma AllIndexed(s: State, isUuid: string -> bool)
    ensures Indexed(s, KeysOf(s.rows), isUuid)
  {
  }

  lemma MoreKnown(s: State, s': State, isUuid: string -> bool)
    requires RowsKept(s, s') && Settled(s', KeysOf(s.rows), isUuid)
    ensures Settled(s', KeysOf(s'.rows), isUuid)
  {
    hide Collides, Name;
    assert KeysOf(s.rows) <= KeysOf(s'.rows);
  }

  // ---------- the account of a run ----------

  predicate From(moved: seq<(Key, Key)>, key: Key) {
    exists m :: m in moved && m.0 == key
  }

  predicate To(moved: seq<(Key, Key)>, key: Key) {
    exists m :: m in moved && m.1 == key
  }

  /** The reported moves are exactly the difference between two states: their old keys are gone, their
      new keys have the old bytes and a row of the old name, and all else in the bucket is the same. */
  ghost predicate Accounts(s: State, p: Progress) {
    && (forall m :: m in p.moved ==> Moved(s, p.state, m))
    && (forall key :: key in s.objects && !From(p.moved, key) ==>
          key in p.state.objects && p.state.objects[key] == s.objects[key])
    && (forall key :: key in p.state.objects ==> key in s.objects || To(p.moved, key))
  }

  /** One move: its old key is gone, its new key has the bytes, and a row says so. */
  ghost predicate Moved(s: State, s': State, m: (Key, Key)) {
    && m.0 in s.objects && m.0 !in s'.objects
    && m.1 !in s.objects && m.1 in s'.objects && s'.objects[m.1] == s.objects[m.0]
    && exists id :: Holds(s', id, m.0, s.objects[m.0]) && s'.rows[id].key == m.1
  }

  lemma MovedStays(s: State, before: State, isUuid: string -> bool, key: Key, id: Id, m: (Key, Key))
    requires Moved(s, before, m) && key in before.objects && !Collides(before.rows, key)
    requires Unused(before, isUuid, id) && isUuid(Name(m.1)) && !isUuid(Name(key)) && Name(m.0) != id
    ensures Moved(s, Partial(before, key, id, 3), m)
  {
    hide Owner, Name, Collides;
    NewKeyParts(key, id);
    var r :| Holds(before, r, m.0, s.objects[m.0]) && before.rows[r].key == m.1;
    assert Holds(Partial(before, key, id, 3), r, m.0, s.objects[m.0]);
  }

  lemma MovesNow(s: State, before: State, isUuid: string -> bool, key: Key, id: Id)
    requires key in s.objects && key in before.objects && before.objects[key] == s.objects[key]
    requires !Collides(before.rows, key) && Unused(before, isUuid, id)
    requires !isUuid(Name(key)) && forall x :: x in s.objects ==> Name(x) != id
    ensures Moved(s, Partial(before, key, id, 3), (key, NewKey(key, id)))
  {
    hide Owner, Name, Collides;
    NewKeyParts(key, id);
    assert Holds(Partial(before, key, id, 3), id, key, s.objects[key]);
  }

  lemma NotedAccounts(s: State, p: Progress, known: set<Key>, isUuid: string -> bool, key: Key, id: Id)
    requires Accounts(s, p) && key in p.state.objects && !Passes(known, isUuid, key)
    requires Unused(p.state, isUuid, id) && forall x :: x in s.objects ==> Name(x) != id
    requires forall m :: m in p.moved ==> isUuid(Name(m.1))
    ensures Accounts(s, Noted(p, key, id))
    ensures forall m :: m in Noted(p, key, id).moved ==> isUuid(Name(m.1))
  {
    hide Owner, Name, Collides, Moved, NewKey, From, To;
    var p' := Noted(p, key, id);
    NewKeyParts(key, id);
    if Collides(p.state.rows, key) {
      RefusedIsUndone(p.state, isUuid, key, id);
    } else {
      var made := NewKey(key, id);
      assert key in s.objects && !From(p.moved, key) by { Untouched(s, p, isUuid, key); }
      MovesNow(s, p.state, isUuid, key, id);
      forall m | m in p.moved ensures Moved(s, p'.state, m) {
        assert m.0 in s.objects by { assert Moved(s, p.state, m); MovedFrom(s, p.state, m); }
        MovedStays(s, p.state, isUuid, key, id, m);
      }
      forall x ensures From(p'.moved, x) <==> From(p.moved, x) || x == key {
        FromSnoc(p.moved, key, made, x);
      }
      forall x ensures To(p'.moved, x) <==> To(p.moved, x) || x == made {
        ToSnoc(p.moved, key, made, x);
      }
    }
  }

  lemma MovedFrom(s: State, s': State, m: (Key, Key))
    requires Moved(s, s', m)
    ensures m.0 in s.objects && m.0 !in s'.objects && m.1 in s'.objects
  {
  }

  /** What is still to be worked on is where it always was. */
  lemma Untouched(s: State, p: Progress, isUuid: string -> bool, key: Key)
    requires Accounts(s, p) && key in p.state.objects && !isUuid(Name(key))
    requires forall m :: m in p.moved ==> isUuid(Name(m.1))
    ensures key in s.objects && !From(p.moved, key)
  {
    hide Name;
  }

  lemma {:induction false} RunAccounts(s: State, p: Progress, known: set<Key>, isUuid: string -> bool,
                                       listing: seq<Key>, ids: seq<Id>, i: nat, budget: nat)
    requires i <= |listing| <= |ids| && Accounts(s, p)
    requires Indexed(p.state, known, isUuid) && Supply(p.state, isUuid, ids, i)
    requires forall j, x :: i <= j < |ids| && x in s.objects ==> Name(x) != ids[j]
    requires forall m :: m in p.moved ==> isUuid(Name(m.1))
    ensures var o := RunFrom(p, known, isUuid, listing, ids, i, budget); o.finished ==> Accounts(s, o.progress)
    decreases |listing| - i
  {
    hide Accounts, Indexed, Passes, Partial, Collides, Name;
    if i < |listing| {
      var key := listing[i];
      if Passes(known, isUuid, key) {
        RunAccounts(s, p, known, isUuid, listing, ids, i + 1, budget);
      } else if key in p.state.objects && Writes(p.state, key) <= budget {
        PartialSafe(map[], p.state, known, isUuid, key, ids[i], 3);
        NotedAccounts(s, p, known, isUuid, key, ids[i]);
        RunAccounts(s, Noted(p, key, ids[i]), known, isUuid, listing, ids, i + 1, budget - Writes(p.state, key));
      }
    }
  }

  /** What an uninterrupted run reports as moved is exactly what has changed. */
  lemma ReportIsExact(s: State, isUuid: string -> bool, a: Attempt)
    requires |a.listing| <= |a.ids| && Supply(s, isUuid, a.ids, 0)
    ensures var o := Run(s, isUuid, a.listing, a.ids, a.budget); o.finished ==> Accounts(s, o.progress)
  {
    hide RunFrom, Name;
    AllIndexed(s, isUuid);
    RunAccounts(s, Progress(s, [], []), KeysOf(s.rows), isUuid, a.listing, a.ids, 0, a.budget);
  }

  lemma FromSnoc(moved: seq<(Key, Key)>, oldKey: Key, newKey: Key, key: Key)
    ensures From(moved + [(oldKey, newKey)], key) <==> From(moved, key) || key == oldKey
  {
    var longer := moved + [(oldKey, newKey)];
    assert longer[|moved|] == (oldKey, newKey);
    if m :| m in moved && m.0 == key {
      assert m in longer;
    }
  }

  lemma ToSnoc(moved: seq<(Key, Key)>, oldKey: Key, newKey: Key, key: Key)
    ensures To(moved + [(oldKey, newKey)], key) <==> To(moved, key) || key == newKey
  {
    var longer := moved + [(oldKey, newKey)];
    assert longer[|moved|] == (oldKey, newKey);
    if m :| m in moved && m.1 == key {
      assert m in longer;
    }
  }

  // ---------- the dry run ----------

  /** The dry run announces what a real run then either moves or skips: no more and no less. */
  lemma {:induction false} MovedOrSkipped(p: Progress, known: set<Key>, isUuid: string -> bool,
                                          listing: seq<Key>, ids: seq<Id>, i: nat, budget: nat, key: Key)
    requires i <= |listing| <= |ids|
    requires From(p.moved, key) || key in p.skipped <==> From(Announced(known, isUuid, listing[..i], ids), key)
    ensures var o := RunFrom(p, known, isUuid, listing, ids, i, budget);
      o.finished ==>
        (From(o.progress.moved, key) || key in o.progress.skipped
         <==> From(Announced(known, isUuid, listing, ids), key))
    decreases |listing| - i
  {
    hide Passes, Partial, Collides, NewKey, From;
    if i == |listing| {
      assert listing[..i] == listing;
    } else {
      assert listing[..i + 1][..i] == listing[..i];
      var before := Announced(known, isUuid, listing[..i], ids);
      if Passes(known, isUuid, listing[i]) {
        MovedOrSkipped(p, known, isUuid, listing, ids, i + 1, budget, key);
      } else if listing[i] in p.state.objects && Writes(p.state, listing[i]) <= budget {
        FromSnoc(before, listing[i], NewKey(listing[i], ids[i]), key);
        FromSnoc(p.moved, listing[i], NewKey(listing[i], ids[i]), key);
        MovedOrSkipped(Noted(p, listing[i], ids[i]), known, isUuid, listing, ids, i + 1,
                       budget - Writes(p.state, listing[i]), key);
      }
    }
  }

  lemma DryRunAnnounces(s: State, isUuid: string -> bool, a: Attempt, key: Key)
    requires |a.listing| <= |a.ids|
    ensures var o := Run(s, isUuid, a.listing, a.ids, a.budget);
      o.finished ==>
        (From(Announced(KeysOf(s.rows), isUuid, a.listing, a.ids), key)
         <==> From(o.progress.moved, key) || key in o.progress.skipped)
  {
    hide RunFrom;
    MovedOrSkipped(Progress(s, [], []), KeysOf(s.rows), isUuid, a.listing, a.ids, 0, a.budget, key);
  }
}
