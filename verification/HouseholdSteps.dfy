/** What each step does to members, households, invitations and requests, and whom the routes let through. */
module HouseholdSteps {
  import opened HouseholdTable
  import opened HouseholdRuns

  /** The write is about this person, who is still in the household that was checked. */
  predicate Reaches(w: World, a: Action, s: Sub)
    requires Enabled(w, a) && s in w.tables.members
  {
    var h := w.tables.members[s].household;
    || (a.WriteRemoval? && w.requests[a.request].target == s && w.requests[a.request].household == h)
    || (a.WriteLeave? && w.requests[a.request].sub == s && w.requests[a.request].household == h)
    || (a.WriteDelete? && w.requests[a.request].household == h)
  }

  /** The invitation that a redemption finds, unused and not expired. */
  predicate Finds(w: World, a: Action) {
    && a.Redeem? && a.token in w.tables.invitations
    && !w.tables.invitations[a.token].used && w.now < w.tables.invitations[a.token].expiresAt
  }

  /** A person stays a member, with the role of before, until removed, leaving or with the household deleted;
      only an owner's change sets another role; and one gets in by founding or by a valid invitation. */
  lemma MembersAfter(w: World, a: Action, s: Sub)
    requires Enabled(w, a)
    ensures var before, after := w.tables.members, Step(w, a).tables.members;
      if s in before then
        && (s in after <==> !Reaches(w, a, s))
        && (s in after ==>
              after[s] == if a.WriteRole? && w.requests[a.request].target == s
                             && w.requests[a.request].household == before[s].household
                          then Membership(before[s].household, w.requests[a.request].wanted) else before[s])
      else
        && (s in after <==> (a.Create? && a.sub == s) || (Finds(w, a) && a.sub == s))
        && (s in after ==>
              after[s] == if a.Create? then Membership(a.id, Owner)
                          else Membership(w.tables.invitations[a.token].household, w.tables.invitations[a.token].role))
  {
  }

  /** Households come by founding and go by deletion; invitations come by an owner's request, go with their
      household, and change only by being used. */
  lemma HouseholdsAfter(w: World, a: Action)
    requires Enabled(w, a)
    ensures var t, t' := w.tables, Step(w, a).tables;
      && t'.households == (if a.Create? && a.sub !in t.members then t.households + {a.id}
                           else if a.WriteDelete? then t.households - {w.requests[a.request].household}
                           else t.households)
      && (forall k :: k in t'.invitations <==>
            || (k in t.invitations
                && !(a.WriteDelete? && t.invitations[k].household == w.requests[a.request].household))
            || (a.WriteInvite? && a.token == k && w.requests[a.request].household in t.households))
      && (forall k :: k in t'.invitations && !(a.WriteInvite? && a.token == k) ==>
            t'.invitations[k]
            == if Finds(w, a) && a.token == k && a.sub !in t.members then t.invitations[k].(used := true)
               else t.invitations[k])
      && (a.WriteInvite? && a.token in t'.invitations && a.token !in t.invitations ==>
            t'.invitations[a.token] == Invitation(w.requests[a.request].household, a.role, false, a.expiresAt))
  {
  }

  /** A request keeps what it read; a check adds what it is about, and a write ends it. */
  lemma RequestsAfter(w: World, a: Action)
    requires Enabled(w, a)
    ensures var v := Step(w, a);
      && (forall r :: r in v.requests <==>
            || (r in w.requests && !(a.WriteRole? || a.WriteRemoval? || a.WriteLeave? || a.WriteDelete?
                                     || a.WriteInvite? || a.GiveUp?))
            || (r in w.requests && a.request != r)
            || (a.Ask? && a.request == r))
      && (forall r :: r in v.requests && r in w.requests && !((a.CheckRole? || a.CheckRemoval?) && a.request == r) ==>
            v.requests[r] == w.requests[r])
      && (a.Ask? ==>
            v.requests[a.request] == Asked(a.sub, w.tables.members[a.sub].household, w.tables.members[a.sub].role))
      && (a.CheckRole? ==>
            v.requests[a.request] == RoleChecked(w.requests[a.request].household, a.target, a.wanted))
      && (a.CheckRemoval? ==>
            v.requests[a.request] == RemovalChecked(w.requests[a.request].household, a.target))
      && v.now == (if a.Tick? then a.now else w.now)
      && v.ids == (if a.Create? then w.ids + {a.id} else w.ids)
      && v.tokens == (if a.WriteInvite? then w.tokens + {a.token} else w.tokens)
      && v.joins == if Finds(w, a) && a.sub !in w.tables.members then w.joins + [(a.token, a.sub)] else w.joins
  {
  }

  /** Whom the routes let through: an owner for roles, removals, invitations and the deletion, each of the first
      two only about another role of the same household; anyone but the owner to leave; any member to ask. */
  lemma LetThrough(w: World, r: RequestId, sub: Sub, target: Sub, role: Role, token: Token, at: nat)
    ensures Enabled(w, Ask(r, sub)) <==> r !in w.requests && sub in w.tables.members
    ensures var asks := r in w.requests && w.requests[r].Asked?;
      var owner := asks && w.requests[r].role == Owner;
      var other := target in w.tables.members && w.tables.members[target].role != Owner
                   && asks && w.tables.members[target].household == w.requests[r].household;
      && (Enabled(w, CheckRole(r, target, role)) <==> owner && other && role != Owner)
      && (Enabled(w, CheckRemoval(r, target)) <==> owner && other)
      && (Enabled(w, WriteDelete(r)) <==> owner)
      && (Enabled(w, WriteInvite(r, token, role, at)) <==> owner && role != Owner && token !in w.tokens)
      && (Enabled(w, WriteLeave(r)) <==> asks && w.requests[r].role != Owner)
      && Enabled(w, Redeem(token, sub)) && (Enabled(w, Tick(at)) <==> w.now <= at)
  {
  }
}
