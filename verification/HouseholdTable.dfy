/** The household tables and the transactions on them. */
module HouseholdTable {
  import opened Text

  type Sub = string
  type HouseholdId = nat
  type Token = nat

  datatype Role = Owner | Member | Viewer

  datatype Membership = Membership(household: HouseholdId, role: Role)

  /** The token stands for its hash; it is never stored itself. */
  datatype Invitation = Invitation(household: HouseholdId, role: Role, used: bool, expiresAt: nat)

  /** The person is the primary key of a membership. */
  datatype Tables = Tables(households: set<HouseholdId>, members: map<Sub, Membership>,
                           invitations: map<Token, Invitation>)

  datatype Join = Joined(member: Membership) | Invalid | AlreadyMember

  function Created(t: Tables, sub: Sub, h: HouseholdId): Tables {
    if sub in t.members then t
    else t.(households := t.households + {h}, members := t.members[sub := Membership(h, Owner)])
  }

  predicate In(t: Tables, sub: Sub, h: HouseholdId) {
    sub in t.members && t.members[sub].household == h
  }

  /** UPDATE ... WHERE sub = ... AND household_id = ... */
  function RoleSet(t: Tables, h: HouseholdId, sub: Sub, role: Role): Tables {
    if In(t, sub, h) then t.(members := t.members[sub := Membership(h, role)]) else t
  }

  function Removed(t: Tables, h: HouseholdId, sub: Sub): Tables {
    if In(t, sub, h) then t.(members := t.members - {sub}) else t
  }

  /** Members and invitations go with the household. */
  function Deleted(t: Tables, h: HouseholdId): Tables {
    Tables(t.households - {h},
           map s | s in t.members && t.members[s].household != h :: t.members[s],
           map k | k in t.invitations && t.invitations[k].household != h :: t.invitations[k])
  }

  /** The foreign key refuses an invitation to a household that is gone. */
  function Invited(t: Tables, h: HouseholdId, token: Token, role: Role, expiresAt: nat): Tables {
    if h in t.households then t.(invitations := t.invitations[token := Invitation(h, role, false, expiresAt)]) else t
  }

  predicate Usable(t: Tables, token: Token, now: nat) {
    token in t.invitations && !t.invitations[token].used && t.invitations[token].expiresAt > now
  }

  /** Claim and join in one transaction: both, or nothing at all. */
  function Redeemed(t: Tables, token: Token, sub: Sub, now: nat): (r: (Tables, Join)) {
    if !Usable(t, token, now) then (t, Invalid)
    else if sub in t.members then (t, AlreadyMember)
    else
      var i := t.invitations[token];
      var member := Membership(i.household, i.role);
      (t.(invitations := t.invitations[token := i.(used := true)], members := t.members[sub := member]), Joined(member))
  }

  class HouseholdRepository {
    var households: set<HouseholdId>
    var members: map<Sub, Membership>
    var invitations: map<Token, Invitation>

    ghost function Contents(): Tables
      reads this
    {
      Tables(households, members, invitations)
    }

    constructor ()
      ensures Contents() == Tables({}, map[], map[])
    {
      households, members, invitations := {}, map[], map[];
    }

    /** False when the person's key is taken: the whole transaction is rolled back. */
    method Create(sub: Sub, id: HouseholdId) returns (ok: bool)
      modifies this
      ensures ok == (sub !in old(members)) && Contents() == Created(old(Contents()), sub, id)
      ensures households == (if ok then old(households) + {id} else old(households))
      ensures members == (if ok then old(members)[sub := Membership(id, Owner)] else old(members))
      ensures invitations == old(invitations)
    {
      var before := households;
      households := households + {id};
      if sub in members {
        households := before;
        return false;
      }
      members := members[sub := Membership(id, Owner)];
      ok := true;
    }

    method SetRole(h: HouseholdId, sub: Sub, role: Role) returns (member: Option<Membership>)
      modifies this
      ensures Contents() == RoleSet(old(Contents()), h, sub, role)
      ensures member == if In(old(Contents()), sub, h) then Some(Membership(h, role)) else None
      ensures members == if sub in old(members) && old(members)[sub].household == h
                         then old(members)[sub := Membership(h, role)] else old(members)
      ensures households == old(households) && invitations == old(invitations)
    {
      if sub in members && members[sub].household == h {
        members := members[sub := Membership(h, role)];
        return Some(members[sub]);
      }
      member := None;
    }

    method Remove(h: HouseholdId, sub: Sub) returns (removed: bool)
      modifies this
      ensures Contents() == Removed(old(Contents()), h, sub) && removed == In(old(Contents()), sub, h)
      ensures removed <==> sub in old(members) && old(members)[sub].household == h
      ensures members == if removed then old(members) - {sub} else old(members)
      ensures households == old(households) && invitations == old(invitations)
    {
      removed := sub in members && members[sub].household == h;
      if removed {
        members := members - {sub};
      }
    }

    method Delete(h: HouseholdId)
      modifies this
      ensures Contents() == Deleted(old(Contents()), h)
      ensures households == old(households) - {h}
      ensures forall s :: s in members <==> s in old(members) && old(members)[s].household != h
      ensures forall s :: s in members ==> members[s] == old(members)[s]
      ensures forall k :: k in invitations <==> k in old(invitations) && old(invitations)[k].household != h
      ensures forall k :: k in invitations ==> invitations[k] == old(invitations)[k]
    {
      households := households - {h};
      members := map s | s in members && members[s].household != h :: members[s];
      invitations := map k | k in invitations && invitations[k].household != h :: invitations[k];
    }

    /** Without effect, and refused, when the household is gone. */
    method Invite(h: HouseholdId, token: Token, role: Role, expiresAt: nat) returns (ok: bool)
      modifies this
      ensures Contents() == Invited(old(Contents()), h, token, role, expiresAt) && ok == (h in households)
      ensures households == old(households) && members == old(members)
      ensures invitations == if ok then old(invitations)[token := Invitation(h, role, false, expiresAt)]
                             else old(invitations)
    {
      ok := h in households;
      if ok {
        invitations := invitations[token := Invitation(h, role, false, expiresAt)];
      }
    }

    method Redeem(token: Token, sub: Sub, now: nat) returns (join: Join)
      modifies this
      ensures (Contents(), join) == Redeemed(old(Contents()), token, sub, now)
      ensures join == Invalid <==>
                token !in old(invitations) || old(invitations)[token].used || old(invitations)[token].expiresAt <= now
      ensures join == AlreadyMember <==> join != Invalid && sub in old(members)
      ensures !join.Joined? ==> members == old(members) && invitations == old(invitations)
      ensures join.Joined? ==>
                var i := old(invitations)[token];
                && join.member == Membership(i.household, i.role) && members == old(members)[sub := join.member]
                && invitations == old(invitations)[token := Invitation(i.household, i.role, true, i.expiresAt)]
      ensures households == old(households)
    {
      var before := invitations;
      if token !in before || before[token].used || before[token].expiresAt <= now {
        return Invalid;
      }
      var claimed := before[token];
      invitations := invitations[token := claimed.(used := true)];
      if sub in members {
        invitations := before;
        return AlreadyMember;
      }
      members := members[sub := Membership(claimed.household, claimed.role)];
      join := Joined(members[sub]);
    }
  }
}
