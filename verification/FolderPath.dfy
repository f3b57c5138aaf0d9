/** The breadcrumb of a folder, walked upwards in the browser over the list the server sent. */
module FolderPath {
  import opened FolderTree
  import opened Text

  datatype Item = Item(id: FolderId, parent: Option<FolderId>)

  /** JavaScript's `find` by id: the first match. */
  function Find(list: seq<Item>, id: Option<FolderId>): (r: Option<Item>)
    ensures r.Some? ==> r.value in list && id == Some(r.value.id)
    ensures r.None? ==> forall f :: f in list ==> id != Some(f.id)
    decreases |list|
  {
    if list == [] then None
    else if id == Some(list[0].id) then Some(list[0])
    else Find(list[1..], id)
  }

  /** What was found by some id is what its own id finds. */
  lemma {:induction false} FoundAgain(list: seq<Item>, id: FolderId)
    ensures var r := Find(list, Some(id)); r.Some? ==> r.value.id == id && Find(list, Some(r.value.id)) == r
  {
  }

  /** Root first: every folder is the parent of the next one, and none is there twice. */
  ghost predicate Trail(list: seq<Item>, path: seq<Item>) {
    Linked(list, path) && forall i, j :: 0 <= i < j < |path| ==> path[i].id != path[j].id
  }

  ghost predicate Linked(list: seq<Item>, path: seq<Item>) {
    forall i :: 0 <= i < |path| - 1 ==> Find(list, path[i + 1].parent) == Some(path[i])
  }

  ghost predicate EndsAt(list: seq<Item>, id: Option<FolderId>, path: seq<Item>) {
    match Find(list, id)
    case None => path == []
    case Some(f) => path != [] && path[|path| - 1] == f
  }

  /** The walk stops below an unknown parent, or when it would come round. */
  ghost predicate Stops(list: seq<Item>, path: seq<Item>) {
    path == [] || Find(list, path[0].parent).None? || Find(list, path[0].parent).value in path
  }

  function Ids(path: seq<Item>): set<FolderId> {
    set f | f in path :: f.id
  }

  lemma TrailGrows(list: seq<Item>, f: Item, path: seq<Item>)
    requires Trail(list, path) && f.id !in Ids(path)
    requires path != [] ==> Find(list, path[0].parent) == Some(f)
    ensures Trail(list, [f] + path) && Ids([f] + path) == {f.id} + Ids(path)
  {
    var longer := [f] + path;
    forall i | 0 <= i < |longer| - 1 ensures Find(list, longer[i + 1].parent) == Some(longer[i]) {
      if i > 0 {
        assert Find(list, path[(i - 1) + 1].parent) == Some(path[i - 1]);
      }
    }
    assert forall j :: 0 <= j < |path| ==> path[j].id in Ids(path);
  }

  /** Terminates on every list, with cycles or without. */
  method PathOf(list: seq<Item>, id: Option<FolderId>) returns (path: seq<Item>)
    ensures Trail(list, path) && EndsAt(list, id, path) && Stops(list, path)
  {
    hide Trail;
    path := [];
    assert Trail(list, path) by { EmptyTrail(list); }
    var visited: set<FolderId> := {};
    var folder := Find(list, id);
    while folder.Some? && folder.value.id !in visited
      invariant visited == Ids(path) <= Ids(list)
      invariant Trail(list, path)
      invariant folder == if path == [] then Find(list, id) else Find(list, path[0].parent)
      invariant path != [] ==> EndsAt(list, id, path)
      invariant forall f :: f in path ==> Find(list, Some(f.id)) == Some(f)
      decreases Ids(list) - visited
    {
      TrailGrows(list, folder.value, path);
      FoundAgain(list, folder.value.id);
      visited := visited + {folder.value.id};
      path := [folder.value] + path;
      var parent := folder.value.parent;
      folder := Find(list, parent);
    }
    if folder.Some? {
      FoundAgain(list, folder.value.id);
    }
  }

  lemma EmptyTrail(list: seq<Item>)
    ensures Trail(list, [])
  {
  }

  /** What is returned is determined by the list and the id: there is only one such path. */
  lemma {:induction false} OnlyOnePath(list: seq<Item>, id: Option<FolderId>, p: seq<Item>, q: seq<Item>)
    requires Trail(list, p) && EndsAt(list, id, p) && Stops(list, p)
    requires Trail(list, q) && EndsAt(list, id, q) && Stops(list, q)
    ensures p == q
  {
    hide Trail, EndsAt, Stops;
    if |p| <= |q| {
      NotLonger(list, id, p, q);
    } else {
      NotLonger(list, id, q, p);
    }
  }

  lemma NotLonger(list: seq<Item>, id: Option<FolderId>, p: seq<Item>, q: seq<Item>)
    requires Trail(list, p) && EndsAt(list, id, p) && Stops(list, p)
    requires Trail(list, q) && EndsAt(list, id, q)
    requires |p| <= |q|
    ensures p == q
  {
    BothEmpty(list, id, p, q);
    hide Trail, EndsAt, Stops, IsEnd;
    ShorterIsTheEnd(list, id, p, q);
    ShorterIsWhole(list, p, q);
  }

  predicate IsEnd(p: seq<Item>, q: seq<Item>) {
    |p| <= |q| && p == q[|q| - |p|..]
  }

  lemma ShorterIsTheEnd(list: seq<Item>, id: Option<FolderId>, p: seq<Item>, q: seq<Item>)
    requires Trail(list, p) && EndsAt(list, id, p) && Trail(list, q) && EndsAt(list, id, q)
    requires |p| <= |q|
    ensures IsEnd(p, q)
  {
    hide Trail, EndsAt;
    SameFromTheEnd(list, id, p, q, |p|);
  }

  lemma BothEmpty(list: seq<Item>, id: Option<FolderId>, p: seq<Item>, q: seq<Item>)
    requires EndsAt(list, id, p) && EndsAt(list, id, q)
    ensures p == [] <==> q == []
  {
  }

  lemma {:induction false} SameFromTheEnd(list: seq<Item>, id: Option<FolderId>, p: seq<Item>, q: seq<Item>, n: nat)
    requires Trail(list, p) && EndsAt(list, id, p) && Trail(list, q) && EndsAt(list, id, q)
    requires n <= |p| <= |q|
    ensures p[|p| - n..] == q[|q| - n..]
    ensures n == |p| ==> p == q[|q| - n..]
    decreases n
  {
    if n > 1 {
      SameFromTheEnd(list, id, p, q, n - 1);
      assert p[|p| - n + 1] == p[|p| - (n - 1)..][0] == q[|q| - (n - 1)..][0] == q[|q| - n + 1];
      assert Find(list, p[(|p| - n) + 1].parent) == Some(p[|p| - n]);
      assert Find(list, q[(|q| - n) + 1].parent) == Some(q[|q| - n]);
    }
  }

  lemma ShorterIsWhole(list: seq<Item>, p: seq<Item>, q: seq<Item>)
    requires Trail(list, q) && Stops(list, p) && (p == [] ==> q == []) && IsEnd(p, q)
    ensures p == q
  {
    if |p| < |q| {
      GoingOnRepeats(list, p, q, |q| - |p|);
      assert false;
    }
  }

  /** Above a path that stops there is only what it already has. */
  lemma GoingOnRepeats(list: seq<Item>, p: seq<Item>, q: seq<Item>, m: nat)
    requires Linked(list, q) && Stops(list, p) && p != [] && 0 < m < |q| && p == q[m..]
    ensures exists j :: m <= j < |q| && q[j].id == q[m - 1].id
  {
    assert Find(list, q[(m - 1) + 1].parent) == Some(q[m - 1]);
    assert p[0] == q[m];
    assert q[m - 1] in p;
    var i :| 0 <= i < |p| && p[i] == q[m - 1];
    assert q[m + i] == p[i];
  }

  // ---------- on what the server sends ----------

  /** The listing is the owner's live folders, each once. */
  ghost predicate Lists(t: Table, o: Sub, list: seq<Item>) {
    && (forall i, j :: 0 <= i < j < |list| ==> list[i].id != list[j].id)
    && (forall f :: f in list ==> Has(t, o, f.id, true) && t[f.id].parent == f.parent)
    && (forall x :: Has(t, o, x, true) ==> Item(x, t[x].parent) in list)
  }

  /** With a listing of an acyclic table the breadcrumb goes all the way: it is the whole climb from
      the folder up to a folder at the root, and only an id that is no live folder gives none. */
  lemma PathIsTheWholeClimb(t: Table, o: Sub, list: seq<Item>, x: FolderId, path: seq<Item>)
    requires LiveClosed(t) && Acyclic(t) && Lists(t, o, list)
    requires Trail(list, path) && EndsAt(list, Some(x), path) && Stops(list, path)
    ensures path == [] <==> !Has(t, o, x, true)
    ensures path != [] ==> path[0].parent == None
    ensures forall k :: 0 <= k < |path| ==> Up(t, o, x, k, true) == Some(path[|path| - 1 - k].id)
  {
    hide LiveClosed, Acyclic;
    if Has(t, o, x, true) {
      assert Item(x, t[x].parent) in list;
      assert Find(list, Some(x)).Some?;
      forall k | 0 <= k < |path| ensures Up(t, o, x, k, true) == Some(path[|path| - 1 - k].id) {
        ClimbsAlong(t, o, list, x, path, k);
      }
      TopHasNoParent(t, o, list, x, path);
    } else if Find(list, Some(x)).Some? {
      assert false;
    }
  }

  lemma {:induction false} ClimbsAlong(t: Table, o: Sub, list: seq<Item>, x: FolderId, path: seq<Item>, k: nat)
    requires Lists(t, o, list) && Trail(list, path) && EndsAt(list, Some(x), path) && k < |path|
    ensures path[|path| - 1 - k] in list
    ensures Up(t, o, x, k, true) == Some(path[|path| - 1 - k].id)
    decreases k
  {
    if k > 0 {
      ClimbsAlong(t, o, list, x, path, k - 1);
      var f := path[|path| - k];
      assert Find(list, path[(|path| - 1 - k) + 1].parent) == Some(path[|path| - 1 - k]);
      UpAgain(t, o, x, k - 1);
    }
  }

  lemma UpAgain(t: Table, o: Sub, x: FolderId, n: nat)
    requires Up(t, o, x, n, true).Some?
    ensures var y := Up(t, o, x, n, true).value;
      Up(t, o, x, n + 1, true) == if t[y].parent.Some? then Up(t, o, t[y].parent.value, 0, true) else None
  {
    UpSplits(t, o, x, n, 1, true);
  }

  lemma TopHasNoParent(t: Table, o: Sub, list: seq<Item>, x: FolderId, path: seq<Item>)
    requires LiveClosed(t) && Acyclic(t) && Lists(t, o, list) && path != []
    requires Trail(list, path) && EndsAt(list, Some(x), path) && Stops(list, path)
    ensures path[0].parent == None
  {
    hide Acyclic;
    var top := path[0];
    ClimbsAlong(t, o, list, x, path, |path| - 1);
    if top.parent.Some? {
      var p := top.parent.value;
      assert Item(p, t[p].parent) in list;
      assert Find(list, top.parent).value in path;
      var i :| 0 <= i < |path| && path[i] == Find(list, top.parent).value;
      ClimbsAlong(t, o, list, x, path, |path| - 1 - i);
      UpAgain(t, o, x, |path| - 1);
      assert Up(t, o, x, |path|, true) == Some(p);
      UpSplits(t, o, x, |path| - 1 - i, i + 1, true);
      LiveClimbIsClimb(t, o, p, i + 1);
      NoOwnAncestor(t, o, p, i + 1);
    }
  }
}
