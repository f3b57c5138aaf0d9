/** The folder table and its two recursive queries: the upward cycle test and the downward
    closure. Both are read here on any table whatsoever, cyclic ones included. */
module FolderTree {
  import opened Text

  type Sub = string
  type FolderId = nat
  type Stamp = nat

  datatype Folder = Folder(owner: Sub, name: string, parent: Option<FolderId>, deletedAt: Option<Stamp>)

  type Table = map<FolderId, Folder>

  /** `x` is a folder of `o`, and a live one if `live` asks for it. */
  predicate Has(t: Table, o: Sub, x: FolderId, live: bool) {
    x in t && t[x].owner == o && (live ==> t[x].deletedAt.None?)
  }

  predicate ChildOf(t: Table, x: FolderId, y: FolderId)
    requires x in t
  {
    t[x].parent == Some(y)
  }

  // ---------- the queries ----------

  /** The recursive part of `ancestors`: UNION adds the parents not seen yet, until there are none. */
  function Ancestors(t: Table, o: Sub, seen: set<FolderId>): (r: set<FolderId>)
    requires seen <= t.Keys
    ensures seen <= r <= t.Keys
    ensures forall x, y :: x in r && ChildOf(t, x, y) && Has(t, o, y, false) ==> y in r
    decreases t.Keys - seen
  {
    var next := set y | y in t && y !in seen && Has(t, o, y, false) && exists x :: x in seen && ChildOf(t, x, y);
    if next == {} then
      assert forall x, y :: x in seen && ChildOf(t, x, y) && Has(t, o, y, false) && y !in seen ==> y in next;
      seen
    else Ancestors(t, o, seen + next)
  }

  predicate IsCycle(t: Table, o: Sub, f: FolderId, parent: FolderId) {
    Has(t, o, parent, false) && f in Ancestors(t, o, {parent})
  }

  /** The recursive part of `subtree`: UNION adds the live children not seen yet, until there are none. */
  function Below(t: Table, o: Sub, seen: set<FolderId>): (r: set<FolderId>)
    requires seen <= t.Keys
    ensures seen <= r <= t.Keys
    ensures forall x, y :: y in r && Has(t, o, x, true) && ChildOf(t, x, y) ==> x in r
    decreases t.Keys - seen
  {
    var next := set x | x in t && x !in seen && Has(t, o, x, true) && exists y :: y in seen && ChildOf(t, x, y);
    if next == {} then
      assert forall x, y :: y in seen && Has(t, o, x, true) && ChildOf(t, x, y) && x !in seen ==> x in next;
      seen
    else Below(t, o, seen + next)
  }

  function Subtree(t: Table, o: Sub, f: FolderId): (r: set<FolderId>)
    ensures r <= t.Keys
  {
    if Has(t, o, f, true) then Below(t, o, {f}) else {}
  }

  // ---------- what they find: climbing from parent to parent ----------

  /** The folder `n` levels above `x`, as long as every folder on the way is one of `o`'s. */
  function Up(t: Table, o: Sub, x: FolderId, n: nat, live: bool): (r: Option<FolderId>)
    ensures r.Some? ==> Has(t, o, r.value, live) && Has(t, o, x, live)
    decreases n
  {
    if !Has(t, o, x, live) then None
    else if n == 0 then Some(x)
    else if t[x].parent.None? then None
    else Up(t, o, t[x].parent.value, n - 1, live)
  }

  ghost predicate Climbs(t: Table, o: Sub, x: FolderId, y: FolderId, live: bool) {
    exists n: nat :: Up(t, o, x, n, live) == Some(y)
  }

  lemma {:induction false} UpSplits(t: Table, o: Sub, x: FolderId, n: nat, m: nat, live: bool)
    ensures Up(t, o, x, n + m, live)
         == match Up(t, o, x, n, live) case None => None case Some(y) => Up(t, o, y, m, live)
    decreases n
  {
    if n > 0 && Has(t, o, x, live) && t[x].parent.Some? {
      UpSplits(t, o, t[x].parent.value, n - 1, m, live);
    }
  }

  lemma {:induction false} AncestorsClimb(t: Table, o: Sub, x: FolderId, seen: set<FolderId>)
    requires seen <= t.Keys && forall y :: y in seen ==> Climbs(t, o, x, y, false)
    ensures forall y :: y in Ancestors(t, o, seen) ==> Climbs(t, o, x, y, false)
    decreases t.Keys - seen
  {
    var next := set y | y in t && y !in seen && Has(t, o, y, false) && exists x :: x in seen && ChildOf(t, x, y);
    if next != {} {
      forall y | y in next ensures Climbs(t, o, x, y, false) {
        var z :| z in seen && ChildOf(t, z, y);
        var n: nat :| Up(t, o, x, n, false) == Some(z);
        UpSplits(t, o, x, n, 1, false);
        assert Up(t, o, y, 0, false) == Some(y);
        assert Up(t, o, x, n + 1, false) == Some(y);
      }
      AncestorsClimb(t, o, x, seen + next);
    }
  }

  lemma {:induction false} ClimbStaysIn(t: Table, o: Sub, r: set<FolderId>, x: FolderId, n: nat, live: bool)
    requires x in r && Up(t, o, x, n, live).Some?
    requires r <= t.Keys && forall x, y :: x in r && ChildOf(t, x, y) && Has(t, o, y, false) ==> y in r
    ensures Up(t, o, x, n, live).value in r
    decreases n
  {
    if n > 0 {
      assert ChildOf(t, x, t[x].parent.value);
      ClimbStaysIn(t, o, r, t[x].parent.value, n - 1, live);
    }
  }

  /** On any table, `is_cycle` says exactly whether `parent` is `f` or lies below it, through live
      and trashed folders alike. */
  lemma CycleTestExact(t: Table, o: Sub, f: FolderId, parent: FolderId)
    ensures IsCycle(t, o, f, parent) <==> Climbs(t, o, parent, f, false)
  {
    if Has(t, o, parent, false) {
      assert Up(t, o, parent, 0, false) == Some(parent);
      AncestorsClimb(t, o, parent, {parent});
      if Climbs(t, o, parent, f, false) {
        var n: nat :| Up(t, o, parent, n, false) == Some(f);
        ClimbStaysIn(t, o, Ancestors(t, o, {parent}), parent, n, false);
      }
    }
  }

  lemma {:induction false} BelowClimbs(t: Table, o: Sub, f: FolderId, seen: set<FolderId>)
    requires seen <= t.Keys && forall x :: x in seen ==> Climbs(t, o, x, f, true)
    ensures forall x :: x in Below(t, o, seen) ==> Climbs(t, o, x, f, true)
    decreases t.Keys - seen
  {
    var next := set x | x in t && x !in seen && Has(t, o, x, true) && exists y :: y in seen && ChildOf(t, x, y);
    if next != {} {
      forall x | x in next ensures Climbs(t, o, x, f, true) {
        var y :| y in seen && ChildOf(t, x, y);
        var n: nat :| Up(t, o, y, n, true) == Some(f);
        assert Up(t, o, x, n + 1, true) == Some(f);
      }
      BelowClimbs(t, o, f, seen + next);
    }
  }

  lemma {:induction false} ClimberIsIn(t: Table, o: Sub, r: set<FolderId>, x: FolderId, n: nat)
    requires Up(t, o, x, n, true).Some? && Up(t, o, x, n, true).value in r
    requires forall x, y :: y in r && Has(t, o, x, true) && ChildOf(t, x, y) ==> x in r
    ensures x in r
    decreases n
  {
    if n > 0 {
      ClimberIsIn(t, o, r, t[x].parent.value, n - 1);
      assert ChildOf(t, x, t[x].parent.value);
    }
  }

  /** On any table, `_subtree` is exactly the live folders from which `f` is reached through live ones. */
  lemma SubtreeExact(t: Table, o: Sub, f: FolderId, x: FolderId)
    ensures x in Subtree(t, o, f) <==> Climbs(t, o, x, f, true)
  {
    if Has(t, o, f, true) {
      assert Up(t, o, f, 0, true) == Some(f);
      BelowClimbs(t, o, f, {f});
      if Climbs(t, o, x, f, true) {
        var n: nat :| Up(t, o, x, n, true) == Some(f);
        ClimberIsIn(t, o, Below(t, o, {f}), x, n);
      }
    }
  }

  // ---------- the two agree ----------

  /** No live folder sits under a missing, foreign or trashed one. */
  ghost predicate LiveClosed(t: Table) {
    forall x :: x in t && t[x].deletedAt.None? && t[x].parent.Some? ==> Has(t, t[x].owner, t[x].parent.value, true)
  }

  lemma {:induction false} LiveClimbIsClimb(t: Table, o: Sub, x: FolderId, n: nat)
    ensures Up(t, o, x, n, true).Some? ==> Up(t, o, x, n, false) == Up(t, o, x, n, true)
    decreases n
  {
    if n > 0 && Has(t, o, x, true) && t[x].parent.Some? {
      LiveClimbIsClimb(t, o, t[x].parent.value, n - 1);
    }
  }

  lemma {:induction false} ClimbIsLive(t: Table, o: Sub, x: FolderId, n: nat)
    requires LiveClosed(t) && Has(t, o, x, true)
    ensures Up(t, o, x, n, true) == Up(t, o, x, n, false)
    decreases n
  {
    if n > 0 && t[x].parent.Some? {
      ClimbIsLive(t, o, t[x].parent.value, n - 1);
    }
  }

  /** Whatever the downward closure of `f` finds, the upward test refuses as a parent for `f`. */
  lemma SubtreeIsRefused(t: Table, o: Sub, f: FolderId, x: FolderId)
    requires x in Subtree(t, o, f)
    ensures IsCycle(t, o, f, x)
  {
    SubtreeExact(t, o, f, x);
    CycleTestExact(t, o, f, x);
    var n: nat :| Up(t, o, x, n, true) == Some(f);
    LiveClimbIsClimb(t, o, x, n);
    assert Up(t, o, x, n, false) == Some(f);
  }

  /** For live folders of a table where no live folder is under a trashed one, the two are the same. */
  lemma UpwardAgreesWithDownward(t: Table, o: Sub, f: FolderId, x: FolderId)
    requires LiveClosed(t) && Has(t, o, x, true)
    ensures IsCycle(t, o, f, x) <==> x in Subtree(t, o, f)
  {
    SubtreeExact(t, o, f, x);
    CycleTestExact(t, o, f, x);
    if Climbs(t, o, x, f, false) {
      var n: nat :| Up(t, o, x, n, false) == Some(f);
      ClimbIsLive(t, o, x, n);
      assert Up(t, o, x, n, true) == Some(f);
    }
    if x in Subtree(t, o, f) {
      SubtreeIsRefused(t, o, f, x);
    }
  }

  // ---------- no cycles ----------

  /** Climbing from `x` comes to an end. */
  ghost predicate Rooted(t: Table, o: Sub, x: FolderId) {
    exists n: nat :: Up(t, o, x, n, false).None?
  }

  ghost predicate Acyclic(t: Table) {
    forall o, x :: Rooted(t, o, x)
  }

  lemma {:induction false} EndsOnce(t: Table, o: Sub, x: FolderId, n: nat, m: nat)
    requires Up(t, o, x, n, false).None? && n <= m
    ensures Up(t, o, x, m, false).None?
  {
    UpSplits(t, o, x, n, m - n, false);
  }

  lemma {:induction false} LoopNeverEnds(t: Table, o: Sub, x: FolderId, k: nat, n: nat)
    requires k > 0 && Up(t, o, x, k, false) == Some(x)
    ensures Up(t, o, x, n, false).Some?
    decreases n
  {
    if n < k {
      if Up(t, o, x, n, false).None? {
        EndsOnce(t, o, x, n, k);
      }
    } else {
      UpSplits(t, o, x, k, n - k, false);
      LoopNeverEnds(t, o, x, k, n - k);
    }
  }

  /** In an acyclic table no folder lies below itself. */
  lemma NoOwnAncestor(t: Table, o: Sub, x: FolderId, k: nat)
    requires Acyclic(t) && k > 0
    ensures Up(t, o, x, k, false) != Some(x)
  {
    if Up(t, o, x, k, false) == Some(x) {
      assert Rooted(t, o, x);
      var n: nat :| Up(t, o, x, n, false).None?;
      LoopNeverEnds(t, o, x, k, n);
    }
  }

  /** Climbing that never meets `f` does not notice that `f` was moved. */
  lemma {:induction false} MoveUnnoticed(t: Table, u: Table, o: Sub, f: FolderId, x: FolderId, n: nat)
    requires u.Keys == t.Keys &&
        forall y :: y in t ==> u[y].owner == t[y].owner && (y != f ==> u[y].parent == t[y].parent)
    requires forall m: nat :: m < n ==> Up(t, o, x, m, false) != Some(f)
    ensures Up(u, o, x, n, false) == Up(t, o, x, n, false)
    decreases n
  {
    if n > 0 && Has(t, o, x, false) {
      assert Up(t, o, x, 0, false) == Some(x);
      if t[x].parent.Some? {
        var p := t[x].parent.value;
        forall m: nat | m < n - 1 ensures Up(t, o, p, m, false) != Some(f) {
          assert Up(t, o, x, m + 1, false) == Up(t, o, p, m, false);
        }
        MoveUnnoticed(t, u, o, f, p, n - 1);
      }
    }
  }

  /** The cycle test is what keeps the table acyclic: setting the parent of `f` keeps every climb
      finite if the test found nothing wrong with the new parent. */
  lemma MoveKeepsAcyclic(t: Table, u: Table, o: Sub, f: FolderId)
    requires Acyclic(t) && Has(t, o, f, false)
    requires u.Keys == t.Keys &&
        forall y :: y in t ==> u[y].owner == t[y].owner && (y != f ==> u[y].parent == t[y].parent)
    requires u[f].parent.Some? ==> u[f].parent == t[f].parent || !IsCycle(t, o, f, u[f].parent.value)
    ensures Acyclic(u)
  {
    forall o', x ensures Rooted(u, o', x) {
      assert Rooted(t, o', x);
      var n: nat :| Up(t, o', x, n, false).None?;
      if u[f].parent == t[f].parent {
        SameParentsSameClimb(t, u, o', x, n);
      } else if m: nat :| m < n && Up(t, o', x, m, false) == Some(f) {
        FirstMeeting(t, u, o, f, o', x, m);
      } else {
        MoveUnnoticed(t, u, o', f, x, n);
      }
    }
  }

  lemma {:induction false} SameParentsSameClimb(t: Table, u: Table, o: Sub, x: FolderId, n: nat)
    requires u.Keys == t.Keys && forall y :: y in t ==> u[y].owner == t[y].owner && u[y].parent == t[y].parent
    ensures Up(u, o, x, n, false) == Up(t, o, x, n, false)
    decreases n
  {
    if n > 0 && Has(t, o, x, false) && t[x].parent.Some? {
      SameParentsSameClimb(t, u, o, t[x].parent.value, n - 1);
    }
  }

  /** From the moved folder the climb goes on above its new parent, which never leads back to it. */
  lemma {:induction false} FirstMeeting(t: Table, u: Table, o: Sub, f: FolderId, o': Sub, x: FolderId, m: nat)
    requires Acyclic(t) && Has(t, o, f, false)
    requires u.Keys == t.Keys &&
        forall y :: y in t ==> u[y].owner == t[y].owner && (y != f ==> u[y].parent == t[y].parent)
    requires u[f].parent.Some? ==> !IsCycle(t, o, f, u[f].parent.value)
    requires Up(t, o', x, m, false) == Some(f)
    ensures Rooted(u, o', x)
    decreases m
  {
    if k: nat :| k < m && Up(t, o', x, k, false) == Some(f) {
      FirstMeeting(t, u, o, f, o', x, k);
    } else {
      MoveUnnoticed(t, u, o', f, x, m);
      if u[f].parent.None? {
        UpSplits(u, o', x, m, 1, false);
        assert Up(u, o', x, m + 1, false).None?;
      } else {
        var p := u[f].parent.value;
        CycleTestExact(t, o, f, p);
        assert Rooted(t, o', p);
        var n: nat :| Up(t, o', p, n, false).None?;
        MoveUnnoticed(t, u, o', f, p, n);
        UpSplits(u, o', x, m, n + 1, false);
        assert Up(u, o', x, m + (n + 1), false).None?;
      }
    }
  }

  // ---------- when exactly a landing move keeps the table acyclic ----------

  function Moved(t: Table, f: FolderId, p: FolderId): Table
    requires f in t
  {
    t[f := t[f].(parent := Some(p))]
  }

  lemma {:induction false} FirstClimb(t: Table, o: Sub, x: FolderId, f: FolderId, n: nat) returns (m: nat)
    requires Up(t, o, x, n, false) == Some(f)
    ensures m <= n && Up(t, o, x, m, false) == Some(f) && forall k: nat :: k < m ==> Up(t, o, x, k, false) != Some(f)
    decreases n
  {
    if k: nat :| k < n && Up(t, o, x, k, false) == Some(f) {
      m := FirstClimb(t, o, x, f, k);
    } else {
      m := n;
    }
  }

  /** A climb from below the moved folder goes on above its new parent. */
  lemma ClimbOverMoved(t: Table, o: Sub, f: FolderId, p: FolderId, x: FolderId, m: nat, n: nat)
    requires Has(t, o, f, false) && Up(t, o, x, m, false) == Some(f)
    requires forall k: nat :: k < m ==> Up(t, o, x, k, false) != Some(f)
    ensures Up(Moved(t, f, p), o, x, m, false) == Some(f)
    ensures Up(Moved(t, f, p), o, x, m + (n + 1), false) == Up(Moved(t, f, p), o, p, n, false)
  {
    var u := Moved(t, f, p);
    MoveUnnoticed(t, u, o, f, x, m);
    UpSplits(u, o, x, m, n + 1, false);
  }

  /** Whatever was checked and when: a move that lands keeps an acyclic table acyclic if and only if the
      cycle test is negative at that moment. */
  lemma LandingMoveIff(t: Table, o: Sub, f: FolderId, p: FolderId)
    requires Acyclic(t) && Has(t, o, f, false) && Has(t, o, p, false)
    ensures Acyclic(Moved(t, f, p)) <==> !IsCycle(t, o, f, p)
  {
    hide Acyclic, Ancestors;
    if IsCycle(t, o, f, p) {
      CycleTestExact(t, o, f, p);
      var n: nat :| Up(t, o, p, n, false) == Some(f);
      var m := FirstClimb(t, o, p, f, n);
      ClimbOverMoved(t, o, f, p, p, m, 0);
      assert Up(Moved(t, f, p), o, f, m + 1, false) == Up(Moved(t, f, p), o, p, m, false);
      if Acyclic(Moved(t, f, p)) {
        NoOwnAncestor(Moved(t, f, p), o, f, m + 1);
      }
    } else {
      MoveKeepsAcyclic(t, Moved(t, f, p), o, f);
    }
  }

  /** The second of two moves that were both checked first finds itself below its own folder exactly
      when each new parent lies below the other folder. */
  lemma SecondMoveMeets(t: Table, o: Sub, f: FolderId, p: FolderId, g: FolderId, q: FolderId)
    requires Has(t, o, f, false) && Has(t, o, p, false) && Has(t, o, q, false) && f != g
    requires !IsCycle(t, o, f, p) && !IsCycle(t, o, g, q)
    ensures IsCycle(Moved(t, f, p), o, g, q) <==> IsCycle(t, o, f, q) && IsCycle(t, o, g, p)
  {
    hide IsCycle;
    var u := Moved(t, f, p);
    CycleTestExact(t, o, f, p);
    CycleTestExact(t, o, g, q);
    CycleTestExact(t, o, f, q);
    CycleTestExact(t, o, g, p);
    CycleTestExact(u, o, g, q);
    if Climbs(t, o, q, f, false) && Climbs(t, o, p, g, false) {
      var n: nat :| Up(t, o, q, n, false) == Some(f);
      var k: nat :| Up(t, o, p, k, false) == Some(g);
      var m := FirstClimb(t, o, q, f, n);
      MoveUnnoticed(t, u, o, f, p, k);
      ClimbOverMoved(t, o, f, p, q, m, k);
    }
    if Climbs(u, o, q, g, false) {
      var n: nat :| Up(u, o, q, n, false) == Some(g);
      MeetsBoth(t, o, f, p, g, q, n);
    }
  }

  lemma MeetsBoth(t: Table, o: Sub, f: FolderId, p: FolderId, g: FolderId, q: FolderId, n: nat)
    requires Has(t, o, f, false) && f != g && Up(Moved(t, f, p), o, q, n, false) == Some(g)
    requires !Climbs(t, o, p, f, false) && !Climbs(t, o, q, g, false)
    ensures Climbs(t, o, q, f, false) && Climbs(t, o, p, g, false)
  {
    var u := Moved(t, f, p);
    if k: nat :| k < n && Up(t, o, q, k, false) == Some(f) {
      var m := FirstClimb(t, o, q, f, k);
      var rest := n - m - 1;
      ClimbOverMoved(t, o, f, p, q, m, rest);
      MoveUnnoticed(t, u, o, f, p, rest);
      assert Up(t, o, p, rest, false) == Some(g);
    } else {
      MoveUnnoticed(t, u, o, f, q, n);
      assert false;
    }
  }

  /** Two moves of different folders, both checked on the same acyclic table, leave a cycle if and only
      if each new parent is the other folder or lies below it. */
  lemma RacingMovesIff(t: Table, o: Sub, f: FolderId, p: FolderId, g: FolderId, q: FolderId)
    requires Acyclic(t) && f != g
    requires Has(t, o, f, false) && Has(t, o, p, false) && Has(t, o, g, false) && Has(t, o, q, false)
    requires !IsCycle(t, o, f, p) && !IsCycle(t, o, g, q)
    ensures Acyclic(Moved(Moved(t, f, p), g, q)) <==> !(IsCycle(t, o, f, q) && IsCycle(t, o, g, p))
  {
    hide Acyclic, IsCycle;
    LandingMoveIff(t, o, f, p);
    LandingMoveIff(Moved(t, f, p), o, g, q);
    SecondMoveMeets(t, o, f, p, g, q);
  }
}
