/** The one-shot migration of legacy objects `<sub>/<name>` to `<sub>/<uuid>` plus a row, interrupted
    after any number of its writes and run again any number of times. */
module Backfill {
  import opened Text

  type Key = string
  type Id = string
  type Bytes = string

  /** `folder == None` is the root. The unique index covers live, ready rows. */
  datatype Row = Row(owner: string, folder: Option<nat>, name: string, key: Key, size: nat, ready: bool, live: bool)

  datatype State = State(objects: map<Key, Bytes>, rows: map<Id, Row>)

  datatype Progress = Progress(state: State, moved: seq<(Key, Key)>, skipped: seq<Key>)

  datatype Outcome = Outcome(progress: Progress, finished: bool)

  // ---------- one object ----------

  /** Python's `partition("/")`. */
  function Owner(key: Key): string {
    var i := IndexOf(key, "/");
    if i < 0 then key else key[..i]
  }

  function Name(key: Key): string {
    var i := IndexOf(key, "/");
    if i < 0 then "" else key[i + 1..]
  }

  function NewKey(key: Key, id: Id): Key {
    Owner(key) + "/" + id
  }

  /** The keys that a run leaves alone; `known` was read when the run began. */
  predicate Passes(known: set<Key>, isUuid: string -> bool, key: Key) {
    Name(key) == "" || isUuid(Name(key)) || key in known
  }

  predicate Covers(row: Row, key: Key) {
    row.live && row.ready && row.folder.None? && row.owner == Owner(key) && Lower(row.name) == Lower(Name(key))
  }

  /** The unique index on live names refuses a row for this key. */
  predicate Collides(rows: map<Id, Row>, key: Key) {
    exists id :: id in rows && Covers(rows[id], key)
  }

  function RowFor(s: State, key: Key, id: Id): Row
    requires key in s.objects
  {
    Row(Owner(key), None, Name(key), NewKey(key, id), |s.objects[key]|, true, true)
  }

  function Writes(s: State, key: Key): nat {
    if Collides(s.rows, key) then 2 else 3
  }

  /** The state after the first `k` writes for this object: copy, commit, remove the old key; or copy,
      and after the refused commit remove the copy. */
  function Partial(s: State, key: Key, id: Id, k: nat): State
    requires key in s.objects
  {
    var copied := s.(objects := s.objects[NewKey(key, id) := s.objects[key]]);
    if k == 0 then s
    else if k == 1 then copied
    else if Collides(s.rows, key) then copied.(objects := copied.objects - {NewKey(key, id)})
    else
      var committed := copied.(rows := s.rows[id := RowFor(s, key, id)]);
      if k == 2 then committed else committed.(objects := committed.objects - {key})
  }

  function Noted(p: Progress, key: Key, id: Id): Progress
    requires key in p.state.objects
  {
    var s' := Partial(p.state, key, id, 3);
    if Collides(p.state.rows, key) then Progress(s', p.moved, p.skipped + [key])
    else Progress(s', p.moved + [(key, NewKey(key, id))], p.skipped)
  }

  // ---------- one run ----------

  /** A run that is interrupted after `budget` writes. A listed key that is no longer there makes the
      copy fail, which ends the run too. */
  function RunFrom(p: Progress, known: set<Key>, isUuid: string -> bool, listing: seq<Key>, ids: seq<Id>,
                   i: nat, budget: nat): (o: Outcome)
    requires i <= |listing| <= |ids|
    decreases |listing| - i
  {
    if i == |listing| then Outcome(p, true)
    else if Passes(known, isUuid, listing[i]) then RunFrom(p, known, isUuid, listing, ids, i + 1, budget)
    else if listing[i] !in p.state.objects then Outcome(p, false)
    else
      var n := Writes(p.state, listing[i]);
      if budget < n then Outcome(p.(state := Partial(p.state, listing[i], ids[i], budget)), false)
      else RunFrom(Noted(p, listing[i], ids[i]), known, isUuid, listing, ids, i + 1, budget - n)
  }

  function KeysOf(rows: map<Id, Row>): set<Key> {
    set id | id in rows :: rows[id].key
  }

  function Run(s: State, isUuid: string -> bool, listing: seq<Key>, ids: seq<Id>, budget: nat): Outcome
    requires |listing| <= |ids|
  {
    RunFrom(Progress(s, [], []), KeysOf(s.rows), isUuid, listing, ids, 0, budget)
  }

  /** What a dry run announces: every key that a run would not pass over. */
  function Announced(known: set<Key>, isUuid: string -> bool, listing: seq<Key>, ids: seq<Id>): seq<(Key, Key)>
    requires |listing| <= |ids|
    decreases |listing|
  {
    if listing == [] then []
    else
      var n := |listing| - 1;
      var before := Announced(known, isUuid, listing[..n], ids);
      if Passes(known, isUuid, listing[n]) then before else before + [(listing[n], NewKey(listing[n], ids[n]))]
  }

  class Migration {
    var state: State
    const isUuid: string -> bool

    constructor (state: State, isUuid: string -> bool)
      ensures this.state == state && this.isUuid == isUuid
    {
      this.state, this.isUuid := state, isUuid;
    }

    /** The writes for one object; the process dies after `left` of them. */
    method Move(oldKey: Key, id: Id, left: nat) returns (dead: bool, moved: bool, writes: nat)
      requires oldKey in state.objects
      modifies this`state
      ensures dead <==> left < Writes(old(state), oldKey)
      ensures state == Partial(old(state), oldKey, id, if dead then left else 3)
      ensures !dead ==> writes == Writes(old(state), oldKey) && moved == !Collides(old(state).rows, oldKey)
      ensures !dead ==> writes == if moved then 3 else 2
      ensures left >= 3 ==> !dead
    {
      hide Owner, Name, Collides;
      dead, moved, writes := true, false, 0;
      if left == 0 {
        return;
      }
      var newKey := NewKey(oldKey, id);
      var size := |state.objects[oldKey]|;
      state := state.(objects := state.objects[newKey := state.objects[oldKey]]);
      if left == 1 {
        return;
      }
      var row := Row(Owner(oldKey), None, Name(oldKey), newKey, size, true, true);
      if Collides(state.rows, oldKey) {
        state := state.(objects := state.objects - {newKey});
        return false, false, 2;
      }
      state := state.(rows := state.rows[id := row]);
      if left == 2 {
        return;
      }
      state := state.(objects := state.objects - {oldKey});
      return false, true, 3;
    }

    /** `budget` is how many writes happen before the process dies. */
    method Execute(confirm: bool, dryRun: bool, listing: seq<Key>, ids: seq<Id>, budget: nat)
      returns (refused: bool, moved: seq<(Key, Key)>, skipped: seq<Key>, finished: bool)
      requires |listing| <= |ids|
      modifies this`state
      ensures refused == !confirm
      ensures !confirm || dryRun ==> state == old(state)
      ensures confirm && dryRun ==> moved == Announced(KeysOf(state.rows), isUuid, listing, ids) && skipped == []
      ensures confirm && !dryRun ==>
                Outcome(Progress(state, moved, skipped), finished) == Run(old(state), isUuid, listing, ids, budget)
    {
      hide Passes, Partial, Collides, NewKey;
      refused, moved, skipped, finished := !confirm, [], [], false;
      if !confirm {
        return;
      }
      var known := KeysOf(state.rows);
      var left: nat := budget;
      for i := 0 to |listing|
        invariant dryRun ==>
            state == old(state) && moved == Announced(known, isUuid, listing[..i], ids) && skipped == []
        invariant !dryRun ==>
                    RunFrom(Progress(state, moved, skipped), known, isUuid, listing, ids, i, left)
                    == Run(old(state), isUuid, listing, ids, budget)
      {
        assert listing[..i + 1][..i] == listing[..i];
        if Passes(known, isUuid, listing[i]) {
          continue;
        }
        var newKey := NewKey(listing[i], ids[i]);
        if dryRun {
          moved := moved + [(listing[i], newKey)];
          continue;
        }
        if listing[i] !in state.objects {
          return;
        }
        var dead, went, writes := Move(listing[i], ids[i], left);
        if dead {
          return;
        }
        left := left - writes;
        if went {
          moved := moved + [(listing[i], newKey)];
        } else {
          skipped := skipped + [listing[i]];
        }
      }
      assert listing[..|listing|] == listing;
      finished := true;
    }
  }

  // ---------- nothing is lost ----------

  /** This row has the bytes, under the owner and name that the legacy key had. */
  predicate Holds(s: State, id: Id, key: Key, bytes: Bytes) {
    id in s.rows && s.rows[id].owner == Owner(key) && s.rows[id].name == Name(key)
    && s.rows[id].ready && s.rows[id].live && s.rows[id].folder.None?
    && s.rows[id].key in s.objects && s.objects[s.rows[id].key] == bytes && s.rows[id].size == |bytes|
  }

  ghost predicate Preserved(s: State, key: Key, bytes: Bytes) {
    (key in s.objects && s.objects[key] == bytes) || exists id :: Holds(s, id, key, bytes)
  }

  /** Every object of `origin` is at its old key, or at the key of a committed row with its name. */
  ghost predicate Safe(origin: map<Key, Bytes>, s: State) {
    forall key :: key in origin ==> Preserved(s, key, origin[key])
  }

  /** A new UUID is the name part of no key so far. */
  predicate Unused(s: State, isUuid: string -> bool, id: Id) {
    isUuid(id) && id != "" && id !in s.rows && (forall key :: key in s.objects ==> Name(key) != id)
  }

  ghost predicate Supply(s: State, isUuid: string -> bool, ids: seq<Id>, from: nat) {
    && (forall i :: from <= i < |ids| ==> Unused(s, isUuid, ids[i]))
    && (forall i, j :: from <= i < j < |ids| ==> ids[i] != ids[j])
  }

  /** No row's key is one that this run works on. */
  ghost predicate Indexed(s: State, known: set<Key>, isUuid: string -> bool) {
    forall id :: id in s.rows ==> Passes(known, isUuid, s.rows[id].key)
  }

  /** Rows stay as they are, with the bytes that they point to. */
  ghost predicate RowsKept(s: State, s': State) {
    forall r :: r in s.rows ==>
      && r in s'.rows && s'.rows[r] == s.rows[r]
      && (s.rows[r].key in s.objects ==>
            s.rows[r].key in s'.objects && s'.objects[s.rows[r].key] == s.objects[s.rows[r].key])
  }

  lemma NewKeyParts(key: Key, id: Id)
    ensures Owner(NewKey(key, id)) == Owner(key) && Name(NewKey(key, id)) == id
  {
    var owner, i := Owner(key), IndexOf(key, "/");
    var whole := owner + "/" + id;
    forall j | 0 <= j < |owner| ensures !OccursAt(whole, "/", j) {
      assert whole[j..j + 1] == [owner[j]] == [key[j]] == key[j..j + 1];
      assert i < 0 || j < i;
      assert !OccursAt(key, "/", j);
    }
    assert OccursAt(whole, "/", |owner|);
    IndexOfIs(whole, "/", |owner|);
    assert whole[..|owner|] == owner && whole[|owner| + 1..] == id;
  }

  /** Nothing is lost after any number of the writes for one object. */
  lemma PartialIndexed(s: State, known: set<Key>, isUuid: string -> bool, key: Key, id: Id, k: nat)
    requires Indexed(s, known, isUuid) && key in s.objects && !Passes(known, isUuid, key)
    requires Unused(s, isUuid, id)
    ensures var s' := Partial(s, key, id, k);
      && Indexed(s', known, isUuid) && RowsKept(s, s') && NewKey(key, id) !in s.objects
      && (forall x :: x in s'.objects ==> x in s.objects || Name(x) == id)
      && (forall r :: r in s'.rows ==> r in s.rows || r == id)
  {
    hide Owner, Name, Collides;
    NewKeyParts(key, id);
    forall r | r in s.rows ensures s.rows[r].key != key {
      assert Passes(known, isUuid, s.rows[r].key);
    }
  }

  lemma PartialSafe(origin: map<Key, Bytes>, s: State, known: set<Key>, isUuid: string -> bool,
                    key: Key, id: Id, k: nat)
    requires Safe(origin, s) && Indexed(s, known, isUuid) && key in s.objects && !Passes(known, isUuid, key)
    requires Unused(s, isUuid, id)
    ensures var s' := Partial(s, key, id, k);
      && Safe(origin, s') && Indexed(s', known, isUuid)
      && RowsKept(s, s')
      && (forall x :: x in s'.objects ==> x in s.objects || Name(x) == id)
      && (forall r :: r in s'.rows ==> r in s.rows || r == id)
  {
    PartialIndexed(s, known, isUuid, key, id, k);
    hide Owner, Name, Indexed, Passes, Partial, RowsKept, Preserved;
    forall x | x in origin ensures Preserved(Partial(s, key, id, k), x, origin[x]) {
      assert Preserved(s, x, origin[x]);
      PartialPreserves(s, key, id, k, x, origin[x]);
    }
  }

  lemma PartialPreserves(s: State, key: Key, id: Id, k: nat, x: Key, bytes: Bytes)
    requires key in s.objects && NewKey(key, id) !in s.objects && id !in s.rows
    requires RowsKept(s, Partial(s, key, id, k)) && Preserved(s, x, bytes)
    ensures Preserved(Partial(s, key, id, k), x, bytes)
  {
    hide Owner, Name, Collides, NewKey;
    var s' := Partial(s, key, id, k);
    if r :| Holds(s, r, x, bytes) {
      assert Holds(s', r, x, bytes);
    } else if x == key && x !in s'.objects {
      assert Holds(s', id, x, bytes);
    }
  }

  lemma {:induction false} RunFromSafe(origin: map<Key, Bytes>, p: Progress, known: set<Key>, isUuid: string -> bool,
                                       listing: seq<Key>, ids: seq<Id>, i: nat, budget: nat)
    requires i <= |listing| <= |ids|
    requires Safe(origin, p.state) && Indexed(p.state, known, isUuid) && Supply(p.state, isUuid, ids, i)
    ensures Safe(origin, RunFrom(p, known, isUuid, listing, ids, i, budget).progress.state)
    decreases |listing| - i
  {
    hide Safe, Indexed, Collides, Passes, Partial, RowsKept;
    if i < |listing| {
      var key := listing[i];
      if Passes(known, isUuid, key) {
        RunFromSafe(origin, p, known, isUuid, listing, ids, i + 1, budget);
      } else if key in p.state.objects {
        var n := Writes(p.state, key);
        if budget < n {
          PartialSafe(origin, p.state, known, isUuid, key, ids[i], budget);
        } else {
          PartialSafe(origin, p.state, known, isUuid, key, ids[i], 3);
          RunFromSafe(origin, Noted(p, key, ids[i]), known, isUuid, listing, ids, i + 1, budget - n);
        }
      }
    }
  }

  datatype Attempt = Attempt(listing: seq<Key>, ids: seq<Id>, budget: nat)

  ghost predicate Possible(s: State, isUuid: string -> bool, attempts: seq<Attempt>)
    decreases |attempts|, 0
  {
    attempts == []
    || (var n := |attempts| - 1;
        && Possible(s, isUuid, attempts[..n])
        && |attempts[n].listing| <= |attempts[n].ids|
        && Supply(After(s, isUuid, attempts[..n]), isUuid, attempts[n].ids, 0))
  }

  ghost function After(s: State, isUuid: string -> bool, attempts: seq<Attempt>): State
    requires Possible(s, isUuid, attempts)
    decreases |attempts|, 1
  {
    if attempts == [] then s
    else
      var n := |attempts| - 1;
      Run(After(s, isUuid, attempts[..n]), isUuid,
          attempts[n].listing, attempts[n].ids, attempts[n].budget).progress.state
  }

  /** Any number of runs, each with any listing and interrupted after any number of writes, lose
      nothing: what the bucket had is still at its old key or under a committed row of that name. */
  lemma {:induction false} NothingIsLost(s: State, isUuid: string -> bool, attempts: seq<Attempt>)
    requires Possible(s, isUuid, attempts)
    ensures Safe(s.objects, After(s, isUuid, attempts))
    decreases |attempts|
  {
    hide Safe, Run, Supply;
    if attempts == [] {
      SafeAtFirst(s);
    } else {
      var n := |attempts| - 1;
      NothingIsLost(s, isUuid, attempts[..n]);
      RunSafe(s.objects, After(s, isUuid, attempts[..n]), isUuid, attempts[n]);
    }
  }

  lemma SafeAtFirst(s: State)
    ensures Safe(s.objects, s)
  {
  }

  lemma RunSafe(origin: map<Key, Bytes>, s: State, isUuid: string -> bool, a: Attempt)
    requires Safe(origin, s) && |a.listing| <= |a.ids| && Supply(s, isUuid, a.ids, 0)
    ensures Safe(origin, Run(s, isUuid, a.listing, a.ids, a.budget).progress.state)
  {
    hide Safe, RunFrom;
    RunFromSafe(origin, Progress(s, [], []), KeysOf(s.rows), isUuid, a.listing, a.ids, 0, a.budget);
  }
}
