/** Membership under every interleaving of the routes' reads, checks and writes. */
module HouseholdRuns {
  import opened HouseholdTable

  type RequestId = nat

  /** A request has read who is asking; or it has also looked at the member it is about. */
  datatype Stage =
    | Asked(sub: Sub, household: HouseholdId, role: Role)
    | RoleChecked(household: HouseholdId, target: Sub, wanted: Role)
    | RemovalChecked(household: HouseholdId, target: Sub)

  /** `joins` records what each redeemed invitation did; ids and tokens are never reused. */
  datatype World = World(tables: Tables, requests: map<RequestId, Stage>, now: nat, joins: seq<(Token, Sub)>,
                         ids: set<HouseholdId>, tokens: set<Token>)

  const EMPTY: World := World(Tables({}, map[], map[]), map[], 0, [], {}, {})

  datatype Action =
    | Create(sub: Sub, id: HouseholdId)
    | Ask(request: RequestId, sub: Sub)
    | CheckRole(request: RequestId, target: Sub, wanted: Role)
    | WriteRole(request: RequestId)
    | CheckRemoval(request: RequestId, target: Sub)
    | WriteRemoval(request: RequestId)
    | WriteLeave(request: RequestId)
    | WriteDelete(request: RequestId)
    | WriteInvite(request: RequestId, token: Token, role: Role, expiresAt: nat)
    | Redeem(token: Token, sub: Sub)
    | GiveUp(request: RequestId)
    | Tick(now: nat)

  predicate AskedAs(w: World, r: RequestId, owner: bool) {
    r in w.requests && w.requests[r].Asked? && (w.requests[r].role == Owner) == owner
  }

  /** The member asked about is in the caller's household and is not its owner. */
  predicate Allowed(w: World, r: RequestId, target: Sub)
    requires r in w.requests
  {
    In(w.tables, target, w.requests[r].household) && w.tables.members[target].role != Owner
  }

  /** What the routes refuse changes nothing, so only what they let through is a step. No request can
      name the role of owner. */
  predicate Enabled(w: World, a: Action) {
    match a
    case Create(_, id) => id !in w.ids
    case Ask(r, sub) => r !in w.requests && sub in w.tables.members
    case CheckRole(r, target, wanted) => AskedAs(w, r, true) && Allowed(w, r, target) && wanted != Owner
    case WriteRole(r) => r in w.requests && w.requests[r].RoleChecked?
    case CheckRemoval(r, target) => AskedAs(w, r, true) && Allowed(w, r, target)
    case WriteRemoval(r) => r in w.requests && w.requests[r].RemovalChecked?
    case WriteLeave(r) => AskedAs(w, r, false)
    case WriteDelete(r) => AskedAs(w, r, true)
    case WriteInvite(r, token, role, _) => AskedAs(w, r, true) && token !in w.tokens && role != Owner
    case Redeem(_, _) => true
    case GiveUp(r) => r in w.requests
    case Tick(now) => now >= w.now
  }

  function Step(w: World, a: Action): World
    requires Enabled(w, a)
  {
    match a
    case Create(sub, id) => w.(tables := Created(w.tables, sub, id), ids := w.ids + {id})
    case Ask(r, sub) =>
      var m := w.tables.members[sub];
      w.(requests := w.requests[r := Asked(sub, m.household, m.role)])
    case CheckRole(r, target, wanted) =>
      w.(requests := w.requests[r := RoleChecked(w.requests[r].household, target, wanted)])
    case WriteRole(r) =>
      var q := w.requests[r];
      w.(tables := RoleSet(w.tables, q.household, q.target, q.wanted), requests := w.requests - {r})
    case CheckRemoval(r, target) =>
      w.(requests := w.requests[r := RemovalChecked(w.requests[r].household, target)])
    case WriteRemoval(r) =>
      var q := w.requests[r];
      w.(tables := Removed(w.tables, q.household, q.target), requests := w.requests - {r})
    case WriteLeave(r) =>
      var q := w.requests[r];
      w.(tables := Removed(w.tables, q.household, q.sub), requests := w.requests - {r})
    case WriteDelete(r) =>
      w.(tables := Deleted(w.tables, w.requests[r].household), requests := w.requests - {r})
    case WriteInvite(r, token, role, expiresAt) =>
      w.(tables := Invited(w.tables, w.requests[r].household, token, role, expiresAt),
         requests := w.requests - {r}, tokens := w.tokens + {token})
    case Redeem(token, sub) =>
      var (tables, join) := Redeemed(w.tables, token, sub, w.now);
      w.(tables := tables, joins := if join.Joined? then w.joins + [(token, sub)] else w.joins)
    case GiveUp(r) => w.(requests := w.requests - {r})
    case Tick(now) => w.(now := now)
  }

  // ---------- the invariant ----------

  predicate Owns(t: Tables, sub: Sub, h: HouseholdId) {
    In(t, sub, h) && t.members[sub].role == Owner
  }

  /** Every household has an owner and no two; every member's household exists. */
  ghost predicate OwnersInv(w: World) {
    && w.tables.households <= w.ids
    && (forall s :: s in w.tables.members ==> w.tables.members[s].household in w.tables.households)
    && (forall h :: h in w.tables.households ==> exists s :: Owns(w.tables, s, h))
    && (forall s, u, h: HouseholdId :: Owns(w.tables, s, h) && Owns(w.tables, u, h) ==> s == u)
  }

  /** The person whom a request is about to write to is not the owner there, now or later. */
  predicate StageOk(w: World, q: Stage) {
    match q
    case Asked(sub, h, role) => h in w.ids && (role != Owner ==> !Owns(w.tables, sub, h))
    case RoleChecked(h, target, wanted) => h in w.ids && wanted != Owner && !Owns(w.tables, target, h)
    case RemovalChecked(h, target) => h in w.ids && !Owns(w.tables, target, h)
  }

  ghost predicate RequestsInv(w: World) {
    forall r :: r in w.requests ==> StageOk(w, w.requests[r])
  }

  /** How many joins an invitation accounts for. */
  function JoinsBy(joins: seq<(Token, Sub)>, token: Token): nat
    decreases |joins|
  {
    if joins == [] then 0
    else JoinsBy(joins[..|joins| - 1], token) + if joins[|joins| - 1].0 == token then 1 else 0
  }

  ghost predicate InvitationsInv(w: World) {
    && (forall k :: k in w.tables.invitations ==>
          k in w.tokens && w.tables.invitations[k].household in w.tables.households
          && w.tables.invitations[k].role != Owner
          && JoinsBy(w.joins, k) == if w.tables.invitations[k].used then 1 else 0)
    && (forall k :: JoinsBy(w.joins, k) <= if k in w.tokens then 1 else 0)
  }

  ghost predicate Inv(w: World) {
    OwnersInv(w) && RequestsInv(w) && InvitationsInv(w)
  }

  /** What any write leaves of ownership: the same owners, but for a new household or a deleted one. */
  lemma OwnersAfter(w: World, a: Action, s: Sub, h: HouseholdId)
    requires Inv(w) && Enabled(w, a)
    ensures Owns(Step(w, a).tables, s, h) <==>
              if a.Create? && a.id == h then a.sub == s && s !in w.tables.members
              else Owns(w.tables, s, h) && !(a.WriteDelete? && w.requests[a.request].household == h)
    ensures a.Create? ==> !Owns(w.tables, s, a.id)
  {
    if a.WriteRole? || a.WriteRemoval? || a.WriteLeave? {
      assert StageOk(w, w.requests[a.request]);
    }
  }

  lemma StepOwners(w: World, a: Action)
    requires Inv(w) && Enabled(w, a)
    ensures OwnersInv(Step(w, a))
  {
    var w' := Step(w, a);
    forall s, h: HouseholdId | Owns(w.tables, s, h) || Owns(w'.tables, s, h) ensures
      Owns(w'.tables, s, h) <==>
        if a.Create? && a.id == h then a.sub == s && s !in w.tables.members
        else Owns(w.tables, s, h) && !(a.WriteDelete? && w.requests[a.request].household == h)
    {
      OwnersAfter(w, a, s, h);
    }
    forall h | h in w'.tables.households ensures exists s :: Owns(w'.tables, s, h) {
      if a.Create? && h == a.id {
        assert Owns(w'.tables, a.sub, h);
      } else {
        var s :| Owns(w.tables, s, h);
        assert Owns(w'.tables, s, h);
      }
    }
  }

  lemma StepRequests(w: World, a: Action)
    requires Inv(w) && Enabled(w, a)
    ensures RequestsInv(Step(w, a))
  {
    hide OwnersInv, InvitationsInv;
    var w' := Step(w, a);
    forall r | r in w'.requests ensures StageOk(w', w'.requests[r]) {
      var q := w'.requests[r];
      if r in w.requests {
        assert StageOk(w, w.requests[r]);
      }
      HouseholdKnown(w);
      OwnersAfter(w, a, if q.Asked? then q.sub else q.target, q.household);
    }
  }

  lemma HouseholdKnown(w: World)
    requires OwnersInv(w)
    ensures forall s :: s in w.tables.members ==> w.tables.members[s].household in w.ids
  {
  }

  lemma StepInvitations(w: World, a: Action)
    requires Inv(w) && Enabled(w, a)
    ensures InvitationsInv(Step(w, a))
  {
    hide RequestsInv, JoinsBy;
    if a.Redeem? {
      OneMoreJoin(w.joins, (a.token, a.sub));
    }
    if a.Create? || a.Redeem? {
      hide OwnersInv;
    }
  }

  lemma OneMoreJoin(joins: seq<(Token, Sub)>, join: (Token, Sub))
    ensures forall k :: JoinsBy(joins + [join], k) == JoinsBy(joins, k) + if k == join.0 then 1 else 0
  {
    assert (joins + [join])[..|joins|] == joins;
  }

  lemma StepInv(w: World, a: Action)
    requires Inv(w) && Enabled(w, a)
    ensures Inv(Step(w, a))
  {
    StepOwners(w, a);
    StepRequests(w, a);
    StepInvitations(w, a);
  }

  // ---------- runs ----------

  ghost predicate Possible(w: World, run: seq<Action>)
    decreases |run|, 0
  {
    run == [] || (Possible(w, run[..|run| - 1]) && Enabled(Exec(w, run[..|run| - 1]), run[|run| - 1]))
  }

  ghost function Exec(w: World, run: seq<Action>): World
    requires Possible(w, run)
    decreases |run|, 1
  {
    if run == [] then w else Step(Exec(w, run[..|run| - 1]), run[|run| - 1])
  }

  lemma {:induction false} ExecInv(w: World, run: seq<Action>)
    requires Inv(w) && Possible(w, run)
    ensures Inv(Exec(w, run))
    decreases |run|
  {
    hide Inv, Enabled;
    if run != [] {
      ExecInv(w, run[..|run| - 1]);
      StepInv(Exec(w, run[..|run| - 1]), run[|run| - 1]);
    }
  }

  lemma EmptyInv()
    ensures Inv(EMPTY)
  {
  }

  /** In every run each existing household has exactly one owner, and nobody is in one that is gone. */
  lemma ExactlyOneOwner(run: seq<Action>, h: HouseholdId)
    requires Possible(EMPTY, run)
    ensures var t := Exec(EMPTY, run).tables;
      && (h in t.households ==> exists s :: Owns(t, s, h) && forall u :: Owns(t, u, h) ==> u == s)
      && (h !in t.households ==> forall s :: !In(t, s, h))
  {
    hide RequestsInv, InvitationsInv, Possible, Exec;
    EmptyInv();
    ExecInv(EMPTY, run);
    var t := Exec(EMPTY, run).tables;
    if h in t.households {
      var s :| Owns(t, s, h);
      assert forall u :: Owns(t, u, h) ==> u == s;
    }
  }

  /** The owner stays the owner for as long as the household is there: whatever was checked before,
      no step takes the role, the membership or a second owner. */
  lemma OwnerStays(w: World, a: Action, s: Sub, h: HouseholdId)
    requires Inv(w) && Enabled(w, a) && Owns(w.tables, s, h)
    ensures Owns(Step(w, a).tables, s, h) <==> h in Step(w, a).tables.households
    ensures h !in Step(w, a).tables.households ==> a.WriteDelete? && w.requests[a.request].household == h
  {
    OwnersAfter(w, a, s, h);
    StepOwners(w, a);
    if a.Create? {
      OwnerElsewhere(w, s, h, a.id);
    }
  }

  lemma OwnerElsewhere(w: World, s: Sub, h: HouseholdId, id: HouseholdId)
    requires OwnersInv(w) && Owns(w.tables, s, h) && id !in w.ids
    ensures h != id && h in w.tables.households
  {
  }

  /** A person becomes an owner only by creating a household, being in none before. */
  lemma OnlyFoundersOwn(w: World, a: Action, s: Sub, h: HouseholdId)
    requires Inv(w) && Enabled(w, a) && !Owns(w.tables, s, h) && Owns(Step(w, a).tables, s, h)
    ensures a == Create(s, h) && s !in w.tables.members
  {
    OwnersAfter(w, a, s, h);
  }

  // ---------- ids come and go once ----------

  lemma GoneStaysGone(w: World, a: Action, h: HouseholdId)
    requires Enabled(w, a) && h in w.ids
    ensures h in Step(w, a).ids
    ensures h in Step(w, a).tables.households ==> h in w.tables.households
  {
  }

  lemma {:induction false} IdsStay(w: World, run: seq<Action>, h: HouseholdId)
    requires Possible(w, run) && h in w.ids
    ensures h in Exec(w, run).ids
    ensures h in Exec(w, run).tables.households ==> h in w.tables.households
    decreases |run|
  {
    hide Enabled, Step;
    if run != [] {
      IdsStay(w, run[..|run| - 1], h);
      GoneStaysGone(Exec(w, run[..|run| - 1]), run[|run| - 1], h);
    }
  }

  /** Whoever owns a household owns it at the end of every run that leaves it in place. */
  lemma {:induction false} OwnerToTheEnd(w: World, run: seq<Action>, s: Sub, h: HouseholdId)
    requires Inv(w) && Possible(w, run) && Owns(w.tables, s, h) && h in Exec(w, run).tables.households
    ensures Owns(Exec(w, run).tables, s, h)
    decreases |run|
  {
    hide Inv, Owns, Enabled, Step;
    if run != [] {
      var n := |run| - 1;
      var before := Exec(w, run[..n]);
      ExecInv(w, run[..n]);
      OwnedIsKnown(w, s, h);
      IdsStay(w, run[..n], h);
      GoneStaysGone(before, run[n], h);
      OwnerToTheEnd(w, run[..n], s, h);
      OwnerStays(before, run[n], s, h);
    }
  }

  lemma OwnedIsKnown(w: World, s: Sub, h: HouseholdId)
    requires Inv(w) && Owns(w.tables, s, h)
    ensures h in w.ids
  {
  }

  /** A deleted household is gone for good: no member, no invitation, in no continuation. */
  lemma DeletedIsGone(w: World, run: seq<Action>, h: HouseholdId)
    requires Inv(w) && Possible(w, run) && h in w.ids && h !in w.tables.households
    ensures var t := Exec(w, run).tables;
      && h !in t.households
      && (forall s :: !In(t, s, h))
      && (forall k :: k in t.invitations ==> t.invitations[k].household != h)
  {
    hide RequestsInv, Possible, Exec;
    IdsStay(w, run, h);
    ExecInv(w, run);
  }

  // ---------- invitations ----------

  /** In every run an invitation accounts for at most one join, and it is used exactly when it does. */
  lemma OneJoinEach(run: seq<Action>, token: Token)
    requires Possible(EMPTY, run)
    ensures var w := Exec(EMPTY, run);
      && JoinsBy(w.joins, token) <= 1
      && (token in w.tables.invitations ==> (w.tables.invitations[token].used <==> JoinsBy(w.joins, token) == 1))
  {
    hide OwnersInv, RequestsInv, Possible, Exec;
    EmptyInv();
    ExecInv(EMPTY, run);
  }

  /** A join that fails changes nothing, so the link is as usable as before; one that succeeds takes a
      person who was in no household into the invitation's, with its role, which is never the owner's. */
  lemma JoinIsAllOrNothing(w: World, token: Token, sub: Sub)
    requires Inv(w)
    ensures var w' := Step(w, Redeem(token, sub));
      if Usable(w.tables, token, w.now) && sub !in w.tables.members then
        var i := w.tables.invitations[token];
        && w'.tables.members == w.tables.members[sub := Membership(i.household, i.role)]
        && i.role != Owner && i.household in w.tables.households
        && !Usable(w'.tables, token, w'.now)
        && JoinsBy(w'.joins, token) == 1
      else w' == w
  {
    hide OwnersInv, RequestsInv;
    var w' := Step(w, Redeem(token, sub));
    if Usable(w.tables, token, w.now) && sub !in w.tables.members {
      assert w'.joins[..|w'.joins| - 1] == w.joins;
    }
  }

  /** However late a write lands, it reaches no one outside the household that it was checked for. */
  lemma LateWriteStaysInside(w: World, a: Action, s: Sub)
    requires Enabled(w, a) && (a.WriteRole? || a.WriteRemoval? || a.WriteLeave? || a.WriteDelete?)
    requires !In(w.tables, s, w.requests[a.request].household)
    ensures s in Step(w, a).tables.members <==> s in w.tables.members
    ensures s in w.tables.members ==> Step(w, a).tables.members[s] == w.tables.members[s]
  {
  }

  // ---------- the repository ----------

  /** The repository's methods are the writes of these steps. */
  method Serve(repo: HouseholdRepository, w: World, a: Action)
    requires repo.Contents() == w.tables && Enabled(w, a)
    modifies repo
    ensures repo.Contents() == Step(w, a).tables
  {
    match a {
      case Create(sub, id) =>
        var _ := repo.Create(sub, id);
      case WriteRole(r) =>
        var _ := repo.SetRole(w.requests[r].household, w.requests[r].target, w.requests[r].wanted);
      case WriteRemoval(r) =>
        var _ := repo.Remove(w.requests[r].household, w.requests[r].target);
      case WriteLeave(r) =>
        var _ := repo.Remove(w.requests[r].household, w.requests[r].sub);
      case WriteDelete(r) => repo.Delete(w.requests[r].household);
      case WriteInvite(r, token, role, expiresAt) =>
        var _ := repo.Invite(w.requests[r].household, token, role, expiresAt);
      case Redeem(token, sub) =>
        var _ := repo.Redeem(token, sub, w.now);
      case _ =>
    }
  }
}
