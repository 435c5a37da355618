/** Seats and ownership: invitations, acceptance, registration, role changes and plan changes. */
module Seats {
  import opened Options
  import opened Sequences

  type Org = string
  type Email = string

  datatype Role = Viewer | Editor | Admin | Owner
  datatype Tier = Free | Starter | Pro | Enterprise
  datatype Status = Pending | Accepted | Revoked

  /** Users are known by their normalized e-mail address, which is unique. */
  datatype User = User(org: Org, role: Role)

  datatype Invite = Invite(org: Org, email: Email, role: Role, status: Status, expiresAt: int)

  type Users = map<Email, User>

  function Rank(r: Role): (rank: nat)
    ensures rank == 0 <==> r == Viewer
    ensures rank <= 1 <==> r == Viewer || r == Editor
    ensures rank <= 2 <==> r != Owner
  {
    match r
    case Viewer => 0
    case Editor => 1
    case Admin => 2
    case Owner => 3
  }

  /** `maxTeamMembers`, `None` where the plan sets no limit. */
  function SeatLimit(t: Tier): Option<nat>
  {
    match t
    case Free => Some(2)
    case Starter => Some(5)
    case Pro => Some(20)
    case Enterprise => None
  }

  /** `isWithinLimit` */
  predicate HasRoom(count: int, limit: Option<nat>) { limit.None? || count < limit.value }

  predicate Within(count: int, limit: Option<nat>) { limit.None? || count <= limit.value }

  function LimitOf(orgs: map<Org, Tier>, o: Org): Option<nat> { SeatLimit(if o in orgs then orgs[o] else Free) }

  // ---- Counting ----

  function Members(users: Users, o: Org): set<Email> { set e | e in users && users[e].org == o }

  function PendingFor(o: Org): Invite -> int { (i: Invite) => if i.org == o && i.status == Pending then 1 else 0 }

  /** Members and pending invitations: what is held against the seat limit. */
  function Occupied(users: Users, invites: seq<Invite>, o: Org): int
  {
    |Members(users, o)| + Sum(PendingFor(o), invites)
  }

  function Owners(users: Users, o: Org): set<Email>
  {
    set e | e in users && users[e].org == o && users[e].role == Owner
  }

  // ---- The writes ----

  /** A re-invitation closes what is still open for the address. */
  function Supersede(invites: seq<Invite>, o: Org, email: Email): (r: seq<Invite>)
    ensures |r| == |invites|
    ensures forall i :: 0 <= i < |invites| ==>
              r[i] == if invites[i].org == o && invites[i].email == email && invites[i].status == Pending
                      then invites[i].(status := Revoked) else invites[i]
  {
    seq(|invites|, i requires 0 <= i < |invites| =>
      if invites[i].org == o && invites[i].email == email && invites[i].status == Pending
      then invites[i].(status := Revoked) else invites[i])
  }

  datatype Refusal =
    | OwnerSeat | AboveOwnRank | AlreadyMember | NoSeat
    | NotFound | Expired | AccountExists | Self | OwnerFixed | Outranked

  function InviteRefusal(orgs: map<Org, Tier>, users: Users, invites: seq<Invite>, o: Org, inviter: Role,
                         email: Email, role: Role): Option<Refusal>
  {
    if role == Owner then Some(OwnerSeat)
    else if Rank(inviter) < Rank(role) then Some(AboveOwnRank)
    else if email in users && users[email].org == o then Some(AlreadyMember)
    else if !HasRoom(Occupied(users, invites, o), LimitOf(orgs, o)) then Some(NoSeat)
    else None
  }

  function Invited(invites: seq<Invite>, o: Org, email: Email, role: Role, expiresAt: int): seq<Invite>
  {
    Supersede(invites, o, email) + [Invite(o, email, role, Pending, expiresAt)]
  }

  function RoleRefusal(users: Users, o: Org, target: Email, role: Role, actor: Email, actorRole: Role): Option<Refusal>
  {
    if target == actor then Some(Self)
    else if role == Owner then Some(OwnerSeat)
    else if target !in users || users[target].org != o then Some(NotFound)
    else if users[target].role == Owner then Some(OwnerFixed)
    else if Rank(actorRole) < Rank(users[target].role) then Some(Outranked)
    else if Rank(actorRole) < Rank(role) then Some(AboveOwnRank)
    else None
  }

  function AcceptRefusal(users: Users, invites: seq<Invite>, i: nat, now: int): Option<Refusal>
  {
    if i >= |invites| || invites[i].status != Pending then Some(NotFound)
    else if invites[i].expiresAt < now then Some(Expired)
    else if invites[i].email in users then Some(AccountExists)
    else None
  }

  /** The transaction of an acceptance: it rolls back if the invitation is taken or the address has an account. */
  predicate Claimable(users: Users, invites: seq<Invite>, i: nat)
  {
    i < |invites| && invites[i].status == Pending && invites[i].email !in users
  }

  // ---- Requests; what checks first and writes later is in steps ----

  /** A creation that passed its checks: it supersedes, then stores. */
  datatype Draft = Draft(org: Org, email: Email, role: Role, superseded: bool)

  /**
   * `drafts`: creations under way. `lookups`: acceptances that passed their checks, by invitation. Both are
   * `None` once decided. `redeemed`: the acceptances that committed.
   */
  datatype State = State(
    clock: int, orgs: map<Org, Tier>, users: Users, invites: seq<Invite>,
    drafts: seq<Option<Draft>>, lookups: seq<Option<nat>>, redeemed: multiset<nat>)

  datatype Event =
    | Elapse(ms: nat)
    | Register(org: Org, email: Email)
    | SetPlan(org: Org, tier: Tier)
    | BeginCreate(org: Org, inviter: Role, email: Email, role: Role)
    | ProceedCreate(d: nat, ttl: nat)
    | RevokeInvite(invite: nat, org: Org)
    | LookUp(invite: nat)
    | Claim(p: nat)
    | ChangeRole(org: Org, target: Email, role: Role, actor: Email, actorRole: Role)

  function Stored(d: Draft, expiresAt: int): Invite { Invite(d.org, d.email, d.role, Pending, expiresAt) }

  /** The next write of a creation; neither looks at the seats again. */
  function CreateStep(s: State, d: nat, ttl: nat): State
    requires d < |s.drafts|
  {
    match s.drafts[d]
    case None => s
    case Some(draft) =>
      if !draft.superseded then
        s.(invites := Supersede(s.invites, draft.org, draft.email),
            drafts := s.drafts[d := Some(draft.(superseded := true))])
      else
        s.(invites := s.invites + [Stored(draft, s.clock + ttl)], drafts := s.drafts[d := None])
  }

  /** The checks of a creation pass. */
  predicate MayCreate(s: State, o: Org, inviter: Role, email: Email, role: Role)
  {
    o in s.orgs && InviteRefusal(s.orgs, s.users, s.invites, o, inviter, email, role).None?
  }

  function ClaimStep(s: State, p: nat): State
    requires p < |s.lookups|
  {
    var over := s.(lookups := s.lookups[p := None]);
    if s.lookups[p].Some? && Claimable(s.users, s.invites, s.lookups[p].value) then
      var i := s.lookups[p].value;
      var invite := s.invites[i];
      over.(invites := s.invites[i := invite.(status := Accepted)],
            users := s.users[invite.email := User(invite.org, invite.role)],
            redeemed := s.redeemed + multiset{i})
    else over
  }

  function Next(s: State, v: Event): State
  {
    match v
    case Elapse(ms) => s.(clock := s.clock + ms)
    case Register(o, email) =>
      if o in s.orgs || email in s.users then s
      else s.(orgs := s.orgs[o := Free], users := s.users[email := User(o, Owner)])
    case SetPlan(o, tier) => if o in s.orgs then s.(orgs := s.orgs[o := tier]) else s
    case BeginCreate(o, inviter, email, role) =>
      if MayCreate(s, o, inviter, email, role) then s.(drafts := s.drafts + [Some(Draft(o, email, role, false))]) else s
    case ProceedCreate(d, ttl) => if d < |s.drafts| then CreateStep(s, d, ttl) else s
    case RevokeInvite(i, o) =>
      if i < |s.invites| && s.invites[i].org == o
      then s.(invites := s.invites[i := s.invites[i].(status := Revoked)])
      else s
    case LookUp(i) =>
      if AcceptRefusal(s.users, s.invites, i, s.clock).Some? then s else s.(lookups := s.lookups + [Some(i)])
    case Claim(p) => if p < |s.lookups| then ClaimStep(s, p) else s
    case ChangeRole(o, target, role, actor, actorRole) =>
      if RoleRefusal(s.users, o, target, role, actor, actorRole).Some? then s
      else s.(users := s.users[target := s.users[target].(role := role)])
  }

  function Run(s: State, events: seq<Event>): State
  {
    if |events| == 0 then s else Next(Run(s, events[..|events| - 1]), events[|events| - 1])
  }

  function Initial(clock: int): State { State(clock, map[], map[], [], [], [], multiset{}) }

  /** The interleaved requests write what the service's methods write. */
  lemma RequestSteps(s: State, o: Org, tier: Tier, e: Email, role: Role, actor: Email, actorRole: Role, i: nat, p: nat)
    ensures o !in s.orgs && e !in s.users ==>
              && Next(s, Register(o, e)).orgs == s.orgs[o := Free]
              && Next(s, Register(o, e)).users == s.users[e := User(o, Owner)]
    ensures o in s.orgs ==> Next(s, SetPlan(o, tier)).orgs == s.orgs[o := tier]
    ensures i < |s.invites| ==>
              Next(s, RevokeInvite(i, o)).invites
              == if s.invites[i].org == o then s.invites[i := s.invites[i].(status := Revoked)] else s.invites
    ensures i < |s.invites| && s.invites[i].status == Pending && s.clock <= s.invites[i].expiresAt
            && s.invites[i].email !in s.users ==>
              Next(s, LookUp(i)).lookups == s.lookups + [Some(i)]
    ensures p < |s.drafts| && s.drafts[p] == Some(Draft(o, e, role, true)) ==>
              Next(s, ProceedCreate(p, i)).invites == s.invites + [Invite(o, e, role, Pending, s.clock + i)]
    ensures p < |s.lookups| && s.lookups[p] == Some(i) && i < |s.invites| ==>
              var n, invite := Next(s, Claim(p)), s.invites[i];
              if invite.status == Pending && invite.email !in s.users
              then n.users == s.users[invite.email := User(invite.org, invite.role)]
                   && n.invites == s.invites[i := invite.(status := Accepted)]
              else n.users == s.users && n.invites == s.invites
    ensures e in s.users && s.users[e].org == o && s.users[e].role != Owner && e != actor && role != Owner
            && Rank(s.users[e].role) <= Rank(actorRole) && Rank(role) <= Rank(actorRole) ==>
              Next(s, ChangeRole(o, e, role, actor, actorRole)).users == s.users[e := User(o, role)]
  {
  }

  // ---- Ownership and single use ----

  ghost predicate UsersBelong(s: State) { forall e :: e in s.users ==> s.users[e].org in s.orgs }

  ghost predicate NoOwnerInvited(s: State)
  {
    forall i :: 0 <= i < |s.invites| ==> s.invites[i].role != Owner && s.invites[i].org in s.orgs
  }

  ghost predicate NoOwnerDrafted(s: State)
  {
    forall d :: 0 <= d < |s.drafts| && s.drafts[d].Some? ==>
        s.drafts[d].value.role != Owner && s.drafts[d].value.org in s.orgs
  }

  ghost predicate RedeemedOnce(s: State)
  {
    forall i: nat :: s.redeemed[i] <= if i < |s.invites| && s.invites[i].status != Pending then 1 else 0
  }

  ghost predicate OneOwner(s: State) { forall o :: o in s.orgs ==> |Owners(s.users, o)| == 1 }

  ghost predicate Ok(s: State)
  {
    UsersBelong(s) && NoOwnerInvited(s) && NoOwnerDrafted(s) && RedeemedOnce(s) && OneOwner(s)
  }

  lemma OwnersSame(users: Users, email: Email, u: User, o: Org)
    requires u.role != Owner || u.org != o
    requires email in users ==> users[email].role != Owner || users[email].org != o
    ensures Owners(users[email := u], o) == Owners(users, o)
  {
  }

  lemma NewOwner(users: Users, email: Email, o: Org)
    requires email !in users && forall e :: e in users ==> users[e].org != o
    ensures Owners(users[email := User(o, Owner)], o) == {email}
  {
  }

  lemma StepKeepsOwners(s: State, v: Event, o: Org)
    requires Ok(s) && o in Next(s, v).orgs
    ensures |Owners(Next(s, v).users, o)| == 1
  {
    match v
    case Register(org, email) =>
      if org !in s.orgs && email !in s.users {
        if o == org {
          NewOwner(s.users, email, org);
        } else {
          OwnersSame(s.users, email, User(org, Owner), o);
        }
      }
    case Claim(p) =>
      if p < |s.lookups| && s.lookups[p].Some? && Claimable(s.users, s.invites, s.lookups[p].value) {
        var invite := s.invites[s.lookups[p].value];
        OwnersSame(s.users, invite.email, User(invite.org, invite.role), o);
      }
    case ChangeRole(org, target, role, actor, actorRole) =>
      if RoleRefusal(s.users, org, target, role, actor, actorRole).None? {
        OwnersSame(s.users, target, s.users[target].(role := role), o);
      }
    case _ =>
  }

  lemma StepKeepsUsers(s: State, v: Event)
    requires UsersBelong(s) && NoOwnerInvited(s)
    ensures UsersBelong(Next(s, v))
  {
  }

  lemma StepKeepsInvites(s: State, v: Event)
    requires NoOwnerInvited(s) && NoOwnerDrafted(s)
    ensures NoOwnerInvited(Next(s, v))
  {
  }

  lemma StepKeepsDrafts(s: State, v: Event)
    requires NoOwnerDrafted(s)
    ensures NoOwnerDrafted(Next(s, v))
  {
    var n := Next(s, v);
    forall d | 0 <= d < |n.drafts| && n.drafts[d].Some?
      ensures n.drafts[d].value.role != Owner && n.drafts[d].value.org in n.orgs
    {
    }
  }

  lemma StepKeepsRedeemed(s: State, v: Event)
    requires RedeemedOnce(s)
    ensures RedeemedOnce(Next(s, v))
  {
  }

  lemma StepOk(s: State, v: Event)
    requires Ok(s)
    ensures Ok(Next(s, v))
  {
    StepKeepsUsers(s, v);
    StepKeepsInvites(s, v);
    StepKeepsDrafts(s, v);
    StepKeepsRedeemed(s, v);
    forall o | o in Next(s, v).orgs ensures |Owners(Next(s, v).users, o)| == 1 {
      StepKeepsOwners(s, v, o);
    }
  }

  /**
   * Over every run each organization has exactly one owner, no invitation offers that role, and no
   * invitation is redeemed twice.
   */
  lemma {:induction false} OneOwnerAlways(clock: int, events: seq<Event>)
    ensures var s := Run(Initial(clock), events);
            OneOwner(s) && NoOwnerInvited(s) && NoOwnerDrafted(s) && RedeemedOnce(s) && UsersBelong(s)
  {
    if |events| != 0 {
      OneOwnerAlways(clock, events[..|events| - 1]);
      StepOk(Run(Initial(clock), events[..|events| - 1]), events[|events| - 1]);
    }
  }

  // ---- Seats ----

  lemma {:induction false} SupersedingFrees(invites: seq<Invite>, o: Org, email: Email, other: Org)
    ensures Sum(PendingFor(other), Supersede(invites, o, email)) <= Sum(PendingFor(other), invites)
    ensures other != o ==> Sum(PendingFor(other), Supersede(invites, o, email)) == Sum(PendingFor(other), invites)
  {
    if |invites| != 0 {
      SupersedingFrees(invites[..|invites| - 1], o, email, other);
      assert Supersede(invites, o, email)[..|invites| - 1] == Supersede(invites[..|invites| - 1], o, email);
    }
  }

  lemma NewMember(users: Users, email: Email, u: User, o: Org)
    requires email !in users
    ensures |Members(users[email := u], o)| == |Members(users, o)| + if u.org == o then 1 else 0
  {
    if u.org == o {
      assert Members(users[email := u], o) == Members(users, o) + {email};
    } else {
      assert Members(users[email := u], o) == Members(users, o);
    }
  }

  lemma InvitingOccupies(users: Users, invites: seq<Invite>, o: Org, email: Email, role: Role, expiresAt: int,
                         other: Org)
    ensures Occupied(users, Invited(invites, o, email, role, expiresAt), other)
            <= Occupied(users, invites, other) + if other == o then 1 else 0
  {
    SupersedingFrees(invites, o, email, other);
    SumSnoc(PendingFor(other), Supersede(invites, o, email), Invite(o, email, role, Pending, expiresAt));
  }

  lemma ClaimConserves(s: State, p: nat, o: Org)
    requires p < |s.lookups|
    ensures Occupied(ClaimStep(s, p).users, ClaimStep(s, p).invites, o) == Occupied(s.users, s.invites, o)
  {
    if s.lookups[p].Some? && Claimable(s.users, s.invites, s.lookups[p].value) {
      var i := s.lookups[p].value;
      var invite := s.invites[i];
      NewMember(s.users, invite.email, User(invite.org, invite.role), o);
      SumUpdate(PendingFor(o), s.invites, i, invite.(status := Accepted));
    }
  }

  lemma UsersKeepSeats(s: State, v: Event, o: Org)
    requires o in s.orgs && (v.Register? || v.ChangeRole?)
    ensures Occupied(Next(s, v).users, Next(s, v).invites, o) == Occupied(s.users, s.invites, o)
  {
    match v
    case Register(org, email) =>
      if org !in s.orgs && email !in s.users {
        NewMember(s.users, email, User(org, Owner), o);
      }
    case ChangeRole(org, target, role, actor, actorRole) =>
      if RoleRefusal(s.users, org, target, role, actor, actorRole).None? {
        assert Members(s.users[target := s.users[target].(role := role)], o) == Members(s.users, o);
      }
  }

  /** Creations under way for an organization. */
  function Drafting(o: Org): Option<Draft> -> int { (d: Option<Draft>) => if d.Some? && d.value.org == o then 1 else 0 }

  function InFlight(s: State, o: Org): int { Sum(Drafting(o), s.drafts) }

  /** Members, pending invitations, and invitations about to be stored. */
  function Load(s: State, o: Org): int { Occupied(s.users, s.invites, o) + InFlight(s, o) }

  lemma CreateMovesLoad(s: State, d: nat, ttl: nat, o: Org)
    requires d < |s.drafts|
    ensures Load(CreateStep(s, d, ttl), o) <= Load(s, o)
  {
    match s.drafts[d]
    case None =>
    case Some(draft) =>
      if !draft.superseded {
        SupersedingFrees(s.invites, draft.org, draft.email, o);
        SumUpdate(Drafting(o), s.drafts, d, Some(draft.(superseded := true)));
      } else {
        SumSnoc(PendingFor(o), s.invites, Stored(draft, s.clock + ttl));
        SumUpdate(Drafting(o), s.drafts, d, None);
      }
  }

  lemma RevokingFrees(s: State, i: nat, org: Org, o: Org)
    ensures Load(Next(s, RevokeInvite(i, org)), o) <= Load(s, o)
  {
    if i < |s.invites| {
      SumUpdate(PendingFor(o), s.invites, i, s.invites[i].(status := Revoked));
    }
  }

  lemma CheckingDrafts(s: State, org: Org, inviter: Role, email: Email, role: Role, o: Org)
    ensures var n := Next(s, BeginCreate(org, inviter, email, role));
            && n.users == s.users && n.invites == s.invites
            && (Load(n, o) == Load(s, o)
                || (Load(n, o) == Load(s, o) + 1 && HasRoom(Occupied(s.users, s.invites, o), LimitOf(s.orgs, o))))
  {
    SumSnoc(Drafting(o), s.drafts, Some(Draft(org, email, role, false)));
  }

  /** Accepting turns a pending invitation into a member; only a creation whose checks pass adds to the load. */
  lemma StepLoad(s: State, v: Event, o: Org)
    requires o in s.orgs
    ensures var n := Next(s, v);
            && (v.Claim? ==> Occupied(n.users, n.invites, o) == Occupied(s.users, s.invites, o))
            && (Load(n, o) <= Load(s, o)
                || (Load(n, o) == Load(s, o) + 1 && HasRoom(Occupied(s.users, s.invites, o), LimitOf(s.orgs, o))
                    && Occupied(n.users, n.invites, o) == Occupied(s.users, s.invites, o)))
  {
    match v
    case Register(_, _) => UsersKeepSeats(s, v, o);
    case ChangeRole(_, _, _, _, _) => UsersKeepSeats(s, v, o);
    case BeginCreate(org, inviter, email, role) => CheckingDrafts(s, org, inviter, email, role, o);
    case ProceedCreate(d, ttl) => if d < |s.drafts| { CreateMovesLoad(s, d, ttl, o); }
    case RevokeInvite(i, org) => RevokingFrees(s, i, org, o);
    case Claim(p) => if p < |s.lookups| { ClaimConserves(s, p, o); }
    case _ =>
  }

  predicate Rises(limit: Option<nat>, limit': Option<nat>)
  {
    limit'.None? || (limit.Some? && limit.value <= limit'.value)
  }

  /** The organization's limit never falls during the run. */
  predicate NeverDowngraded(s: State, events: seq<Event>, o: Org)
  {
    |events| == 0 ||
    var front, v := events[..|events| - 1], events[|events| - 1];
    && NeverDowngraded(s, front, o)
    && (v.SetPlan? && v.org == o ==>
          Rises(LimitOf(Run(s, front).orgs, o), SeatLimit(v.tier)))
  }

  lemma FirstSeat(s: State, o: Org, email: Email)
    requires Ok(s) && o !in s.orgs && email !in s.users
    ensures Occupied(s.users[email := User(o, Owner)], s.invites, o) == 1
  {
    assert Members(s.users[email := User(o, Owner)], o) == {email};
    NothingPending(s.invites, o);
  }

  lemma {:induction false} NothingPending(invites: seq<Invite>, o: Org)
    requires forall i :: 0 <= i < |invites| ==> invites[i].org != o
    ensures Sum(PendingFor(o), invites) == 0
  {
    if |invites| != 0 {
      NothingPending(invites[..|invites| - 1], o);
    }
  }

  lemma {:induction false} NothingDrafted(drafts: seq<Option<Draft>>, o: Org)
    requires forall d :: 0 <= d < |drafts| && drafts[d].Some? ==> drafts[d].value.org != o
    ensures Sum(Drafting(o), drafts) == 0
  {
    if |drafts| != 0 {
      NothingDrafted(drafts[..|drafts| - 1], o);
    }
  }

  /** At no instant of the run are more than `k` creations for the organization between seat check and invitation. */
  predicate AtMostInFlight(s: State, events: seq<Event>, o: Org, k: nat)
  {
    InFlight(Run(s, events), o) <= k && (|events| != 0 ==> AtMostInFlight(s, events[..|events| - 1], o, k))
  }

  /** `load <= limit + k - 1` */
  predicate WithinBy(load: int, limit: Option<nat>, k: nat) { limit.None? || load <= limit.value + k - 1 }

  lemma StepWithin(s: State, v: Event, o: Org, k: nat)
    requires k >= 1 && Ok(s) && o in Next(s, v).orgs && InFlight(Next(s, v), o) <= k
    requires o in s.orgs ==> WithinBy(Load(s, o), LimitOf(s.orgs, o), k)
    requires v.SetPlan? && v.org == o && o in s.orgs ==> Rises(LimitOf(s.orgs, o), SeatLimit(v.tier))
    ensures WithinBy(Load(Next(s, v), o), LimitOf(Next(s, v).orgs, o), k)
  {
    if o in s.orgs {
      StepLoad(s, v, o);
    } else {
      FirstSeat(s, o, v.email);
      NothingDrafted(s.drafts, o);
    }
  }

  /**
   * On a fixed or rising plan, with at most `k` creations between seat check and invitation, members and
   * pending invitations never exceed the seats by more than `k - 1`; one creation at a time never exceeds them.
   */
  lemma {:induction false} WithinSeats(clock: int, events: seq<Event>, o: Org, k: nat)
    requires k >= 1 && NeverDowngraded(Initial(clock), events, o) && AtMostInFlight(Initial(clock), events, o, k)
    ensures var s := Run(Initial(clock), events);
            o in s.orgs ==>
              && WithinBy(Occupied(s.users, s.invites, o) + InFlight(s, o), LimitOf(s.orgs, o), k)
              && InFlight(s, o) >= 0
  {
    var s := Run(Initial(clock), events);
    SumAtLeast(Drafting(o), s.drafts);
    if |events| != 0 && o in s.orgs {
      var front, v := events[..|events| - 1], events[|events| - 1];
      WithinSeats(clock, front, o, k);
      OneOwnerAlways(clock, front);
      StepWithin(Run(Initial(clock), front), v, o, k);
    }
  }

  // ---- The bound is attained ----

  function Checks(o: Org, email: Email, k: nat): seq<Event>
  {
    if k == 0 then [] else Checks(o, email, k - 1) + [BeginCreate(o, Admin, email, Viewer)]
  }

  function Writes(k: nat, ttl: nat): seq<Event>
  {
    if k == 0 then [] else Writes(k - 1, ttl) + [ProceedCreate(k - 1, ttl)]
  }

  lemma {:induction false} RunConcat(s: State, xs: seq<Event>, ys: seq<Event>)
    ensures Run(s, xs + ys) == Run(Run(s, xs), ys)
  {
    if |ys| == 0 {
      assert xs + ys == xs;
    } else {
      RunConcat(s, xs, ys[..|ys| - 1]);
      assert (xs + ys)[..|xs + ys| - 1] == xs + ys[..|ys| - 1];
    }
  }

  lemma RunSnoc(s: State, xs: seq<Event>, v: Event)
    ensures Run(s, xs + [v]) == Next(Run(s, xs), v)
  {
    assert (xs + [v])[..|xs|] == xs;
  }

  /** `k` creations under way for one address, the first `n` of which have superseded older invitations. */
  ghost predicate Drafted(drafts: seq<Option<Draft>>, o: Org, email: Email, k: nat, n: nat)
  {
    |drafts| == k && forall i :: 0 <= i < k ==> drafts[i] == Some(Draft(o, email, Viewer, i < n))
  }

  lemma OnePasses(s: State, drafts: seq<Option<Draft>>, o: Org, email: Email, k: nat)
    requires Drafted(drafts, o, email, k, 0) && MayCreate(s, o, Admin, email, Viewer)
    ensures var t := Next(s.(drafts := drafts), BeginCreate(o, Admin, email, Viewer));
            t == s.(drafts := t.drafts) && Drafted(t.drafts, o, email, k + 1, 0)
  {
  }

  lemma {:induction false} AllPass(s: State, o: Org, email: Email, k: nat)
    requires |s.drafts| == 0 && MayCreate(s, o, Admin, email, Viewer)
    ensures var t := Run(s, Checks(o, email, k)); t == s.(drafts := t.drafts) && Drafted(t.drafts, o, email, k, 0)
  {
    if k == 0 {
      assert Run(s, Checks(o, email, k)) == s.(drafts := s.drafts);
    } else {
      AllPass(s, o, email, k - 1);
      RunSnoc(s, Checks(o, email, k - 1), BeginCreate(o, Admin, email, Viewer));
      OnePasses(s, Run(s, Checks(o, email, k - 1)).drafts, o, email, k - 1);
    }
  }

  lemma OneSupersedes(s: State, drafts: seq<Option<Draft>>, o: Org, email: Email, k: nat, n: nat, ttl: nat)
    requires n < k && Drafted(drafts, o, email, k, n) && |s.invites| == 0
    ensures var t := Next(s.(drafts := drafts), ProceedCreate(n, ttl));
            t == s.(drafts := t.drafts) && Drafted(t.drafts, o, email, k, n + 1)
  {
    assert Supersede(s.invites, o, email) == s.invites;
  }

  /** Every creation supersedes; there is nothing to supersede yet. */
  lemma {:induction false} AllSupersede(s: State, o: Org, email: Email, k: nat, n: nat, ttl: nat)
    requires n <= k && Drafted(s.drafts, o, email, k, 0) && |s.invites| == 0
    ensures var t := Run(s, Writes(n, ttl)); t == s.(drafts := t.drafts) && Drafted(t.drafts, o, email, k, n)
  {
    if n == 0 {
      assert Run(s, Writes(n, ttl)) == s.(drafts := s.drafts);
    } else {
      AllSupersede(s, o, email, k, n - 1, ttl);
      RunSnoc(s, Writes(n - 1, ttl), ProceedCreate(n - 1, ttl));
      OneSupersedes(s, Run(s, Writes(n - 1, ttl)).drafts, o, email, k, n - 1, ttl);
    }
  }

  /** The first `n` creations have stored their invitations, the others have all superseded. */
  ghost predicate Storing(s: State, t: State, o: Org, email: Email, k: nat, n: nat)
  {
    && |t.drafts| == k && (forall i :: n <= i < k ==> t.drafts[i] == Some(Draft(o, email, Viewer, true)))
    && Sum(PendingFor(o), t.invites) == n && t.users == s.users && t.orgs == s.orgs
  }

  lemma OneStores(s: State, t: State, o: Org, email: Email, k: nat, n: nat, ttl: nat)
    requires n < k && Storing(s, t, o, email, k, n)
    ensures Storing(s, Next(t, ProceedCreate(n, ttl)), o, email, k, n + 1)
  {
    SumSnoc(PendingFor(o), t.invites, Stored(Draft(o, email, Viewer, true), t.clock + ttl));
  }

  lemma {:induction false} AllStore(s: State, o: Org, email: Email, k: nat, n: nat, ttl: nat)
    requires n <= k && Drafted(s.drafts, o, email, k, k) && |s.invites| == 0
    ensures Storing(s, Run(s, Writes(n, ttl)), o, email, k, n)
  {
    if n != 0 {
      AllStore(s, o, email, k, n - 1, ttl);
      RunSnoc(s, Writes(n - 1, ttl), ProceedCreate(n - 1, ttl));
      OneStores(s, Run(s, Writes(n - 1, ttl)), o, email, k, n - 1, ttl);
    }
  }

  /** All checks first, then all writes. */
  function Rush(o: Org, owner: Email, email: Email, k: nat, ttl: nat): seq<Event>
  {
    [Register(o, owner)] + Checks(o, email, k) + Writes(k, ttl) + Writes(k, ttl)
  }

  lemma Registered(clock: int, o: Org, owner: Email)
    ensures var s := Run(Initial(clock), [Register(o, owner)]);
            && s == State(clock, map[o := Free], map[owner := User(o, Owner)], [], [], [], multiset{})
            && Members(s.users, o) == {owner}
  {
    assert [Register(o, owner)][..0] == [];
    assert Run(Initial(clock), [Register(o, owner)]) == Next(Initial(clock), Register(o, owner));
  }

  /**
   * `k` creations for one address that all pass the check together leave a new organization, which has two
   * seats, with `k + 1` of them occupied; all `k` invitations are open.
   */
  lemma SeatsOversubscribed(clock: int, o: Org, owner: Email, email: Email, k: nat, ttl: nat)
    requires owner != email
    ensures var s := Run(Initial(clock), Rush(o, owner, email, k, ttl));
            && o in s.orgs && LimitOf(s.orgs, o) == Some(2)
            && Occupied(s.users, s.invites, o) == 2 + k - 1 && Sum(PendingFor(o), s.invites) == k
  {
    var a := Run(Initial(clock), [Register(o, owner)]);
    Registered(clock, o, owner);
    AllPass(a, o, email, k);
    RunConcat(Initial(clock), [Register(o, owner)], Checks(o, email, k));
    var b := Run(a, Checks(o, email, k));
    AllSupersede(b, o, email, k, k, ttl);
    RunConcat(Initial(clock), [Register(o, owner)] + Checks(o, email, k), Writes(k, ttl));
    var c := Run(b, Writes(k, ttl));
    AllStore(c, o, email, k, k, ttl);
    RunConcat(Initial(clock), [Register(o, owner)] + Checks(o, email, k) + Writes(k, ttl), Writes(k, ttl));
  }

  /** Who may invite whom, and when there is a seat, in the plans' own numbers. */
  lemma InviteMeans(orgs: map<Org, Tier>, users: Users, invites: seq<Invite>, o: Org, inviter: Role, email: Email,
                    role: Role)
    ensures var refused := InviteRefusal(orgs, users, invites, o, inviter, email, role);
            && (refused.None? <==>
                && role != Owner && Rank(role) <= Rank(inviter)
                && !(email in users && users[email].org == o)
                && (!(o in orgs && orgs[o] == Enterprise) ==>
                      Occupied(users, invites, o)
                      < if o !in orgs || orgs[o] == Free then 2 else if orgs[o] == Starter then 5 else 20))
            && (refused == Some(NoSeat) ==> role != Owner && Rank(role) <= Rank(inviter))
  {
  }

  // ---- The services ----

  datatype Shared = Shared(users: Users, invites: seq<Invite>)

  /** Invitations are added and closed, users are added; an invitation's terms never change. */
  ghost predicate Advances(s: Shared, n: Shared)
  {
    && (forall e :: e in s.users ==>
          && e in n.users && n.users[e].org == s.users[e].org
          && (n.users[e].role == Owner <==> s.users[e].role == Owner))
    && |s.invites| <= |n.invites|
    && forall i :: 0 <= i < |s.invites| ==>
         && n.invites[i] == s.invites[i].(status := n.invites[i].status)
         && (s.invites[i].status != Pending ==> n.invites[i].status != Pending)
  }

  lemma AdvancesOn(a: Shared, b: Shared, c: Shared)
    requires Advances(a, b) && Advances(b, c)
    ensures Advances(a, c)
  {
  }

  lemma InvitesAdvance(s: Shared, o: Org, email: Email, added: Invite)
    ensures Advances(s, s.(invites := Supersede(s.invites, o, email)))
    ensures Advances(s, s.(invites := s.invites + [added]))
  {
  }

  /** What the transaction of an acceptance leaves. */
  function Claimed(s: Shared, i: nat): Shared
    requires i < |s.invites|
  {
    var invite := s.invites[i];
    Shared(s.users[invite.email := User(invite.org, invite.role)], s.invites[i := invite.(status := Accepted)])
  }

  lemma ClaimedConserves(s: Shared, i: nat, o: Org)
    requires Claimable(s.users, s.invites, i)
    ensures Occupied(Claimed(s, i).users, Claimed(s, i).invites, o) == Occupied(s.users, s.invites, o)
  {
    var invite := s.invites[i];
    NewMember(s.users, invite.email, User(invite.org, invite.role), o);
    SumUpdate(PendingFor(o), s.invites, i, invite.(status := Accepted));
  }

  class Workspace {
    var orgs: map<Org, Tier>
    var users: Users
    var invites: seq<Invite>

    constructor ()
      ensures orgs == map[] && users == map[] && invites == []
    {
      orgs, users, invites := map[], map[], [];
    }

    ghost function Now(): Shared
      reads this`users, this`invites
    {
      Shared(users, invites)
    }

    /** Other requests run while this one awaits. */
    method Await(ghost quiet: bool)
      modifies this`users, this`invites
      ensures Advances(old(Now()), Now())
      ensures quiet ==> Now() == old(Now())
    {
    }

    /** Organization and owner are created together. */
    method Register(email: Email, org: Org) returns (refused: Option<Refusal>)
      requires org !in orgs
      modifies this
      ensures refused == if email in old(users) then Some(AccountExists) else None
      ensures refused.Some? ==> orgs == old(orgs) && users == old(users)
      ensures refused.None? ==> orgs == old(orgs)[org := Free] && users == old(users)[email := User(org, Owner)]
      ensures invites == old(invites) && Advances(old(Now()), Now())
    {
      if email in users {
        return Some(AccountExists);
      }
      orgs := orgs[org := Free];
      users := users[email := User(org, Owner)];
      return None;
    }

    /**
     * The checks come before both writes: at the limit even a re-invitation is refused, and what others do
     * before the invitation is stored is not looked at again. `first` and `second` are what the writes find.
     */
    method Create(o: Org, inviter: Role, email: Email, role: Role, now: int, ttl: nat, ghost quiet: bool)
      returns (refused: Option<Refusal>, ghost first: Shared, ghost second: Shared)
      modifies this`users, this`invites
      ensures refused == InviteRefusal(orgs, old(users), old(invites), o, inviter, email, role)
      // who may invite whom, and whether there is a seat
      ensures refused.None? <==>
                && role != Owner && Rank(role) <= Rank(inviter)
                && !(email in old(users) && old(users)[email].org == o)
                && (!(o in orgs && orgs[o] == Enterprise) ==>
                      Occupied(old(users), old(invites), o)
                      < if o !in orgs || orgs[o] == Free then 2 else if orgs[o] == Starter then 5 else 20)
      ensures refused == Some(NoSeat) ==> role != Owner && Rank(role) <= Rank(inviter)
      ensures Advances(old(Now()), Now())
      ensures refused.Some? ==> Now() == old(Now())
      ensures refused.None? ==>
                && Advances(old(Now()), first)
                && Advances(first.(invites := Supersede(first.invites, o, email)), second)
                && Now() == second.(invites := second.invites + [Invite(o, email, role, Pending, now + ttl)])
      ensures quiet && refused.None? ==>
                && first == old(Now()) && second == first.(invites := Supersede(first.invites, o, email))
                && Within(Occupied(users, invites, o), LimitOf(orgs, o))
    {
      first, second := Now(), Now();
      refused := InviteChecks(o, inviter, email, role);
      InviteMeans(orgs, users, invites, o, inviter, email, role);
      if refused.Some? {
        return;
      }
      first, second := StoreInvite(o, email, role, now + ttl, quiet);
      if quiet {
        InvitingOccupies(old(users), old(invites), o, email, role, now + ttl, o);
      }
    }

    /** The two writes of a creation. */
    method StoreInvite(o: Org, email: Email, role: Role, expiresAt: int, ghost quiet: bool)
      returns (ghost first: Shared, ghost second: Shared)
      modifies this`users, this`invites
      ensures Advances(old(Now()), Now())
      ensures Advances(old(Now()), first)
      ensures Advances(first.(invites := Supersede(first.invites, o, email)), second)
      ensures Now() == second.(invites := second.invites + [Invite(o, email, role, Pending, expiresAt)])
      ensures quiet ==> first == old(Now()) && second == first.(invites := Supersede(first.invites, o, email))
    {
      Await(quiet);
      first := Now();
      invites := Supersede(invites, o, email);
      Await(quiet);
      second := Now();
      invites := invites + [Invite(o, email, role, Pending, expiresAt)];
      ghost var added := Invite(o, email, role, Pending, expiresAt);
      InvitesAdvance(first, o, email, added);
      InvitesAdvance(second, o, email, added);
      AdvancesOn(old(Now()), first, first.(invites := Supersede(first.invites, o, email)));
      AdvancesOn(old(Now()), first.(invites := Supersede(first.invites, o, email)), second);
      AdvancesOn(old(Now()), second, Now());
    }

    method InviteChecks(o: Org, inviter: Role, email: Email, role: Role) returns (refused: Option<Refusal>)
      ensures refused == InviteRefusal(orgs, users, invites, o, inviter, email, role)
    {
      if role == Owner {
        return Some(OwnerSeat);
      }
      if Rank(inviter) < Rank(role) {
        return Some(AboveOwnRank);
      }
      if email in users && users[email].org == o {
        return Some(AlreadyMember);
      }
      if !HasRoom(Occupied(users, invites, o), LimitOf(orgs, o)) {
        return Some(NoSeat);
      }
      return None;
    }

    /**
     * Whatever its status, by now or when it was looked up, an invitation of the organization reads revoked
     * afterwards; `at` is what the write finds.
     */
    method RevokeOne(i: nat, o: Org, ghost quiet: bool) returns (refused: Option<Refusal>, ghost at: Shared)
      modifies this`users, this`invites
      ensures refused == if i < |old(invites)| && old(invites)[i].org == o then None else Some(NotFound)
      ensures Advances(old(Now()), at) && Advances(old(Now()), Now()) && (quiet ==> at == old(Now()))
      ensures refused.Some? ==> Now() == at == old(Now())
      ensures refused.None? ==> Now() == at.(invites := at.invites[i := at.invites[i].(status := Revoked)])
    {
      at := Now();
      if i >= |invites| || invites[i].org != o {
        refused := Some(NotFound);
        return;
      }
      Await(quiet);
      at := Now();
      invites := invites[i := invites[i].(status := Revoked)];
      refused := None;
    }

    /**
     * Invitation and user are written together, on the terms the invitation was issued with, exactly if the
     * invitation is still open and the address still free when the transaction runs; `at` is what it finds.
     */
    method Accept(i: nat, now: int, ghost quiet: bool) returns (refused: Option<Refusal>, ghost at: Shared)
      modifies this`users, this`invites
      ensures Advances(old(Now()), at) && (quiet ==> at == old(Now()))
      // refused at the check: closed or unknown, expired, or the address has an account
      ensures i >= |old(invites)| || old(invites)[i].status != Pending ==>
                refused == Some(NotFound) && Now() == at == old(Now())
      ensures i < |old(invites)| && old(invites)[i].status == Pending && old(invites)[i].expiresAt < now ==>
                refused == Some(Expired) && Now() == at == old(Now())
      ensures i < |old(invites)| && old(invites)[i].status == Pending && old(invites)[i].expiresAt >= now
              && old(invites)[i].email in old(users) ==>
                refused == Some(AccountExists) && Now() == at == old(Now())
      // otherwise the transaction decides, on what it finds
      ensures i < |old(invites)| && old(invites)[i].status == Pending && old(invites)[i].expiresAt >= now
              && old(invites)[i].email !in old(users) ==>
                && i < |at.invites|
                && refused == (if at.invites[i].status != Pending then Some(NotFound)
                               else if at.invites[i].email in at.users then Some(AccountExists) else None)
                && (refused.Some? ==> Now() == at)
                && (refused.None? ==>
                      var invite := at.invites[i];
                      && users == at.users[invite.email := User(invite.org, invite.role)]
                      && invites == at.invites[i := invite.(status := Accepted)])
      ensures forall o :: Occupied(users, invites, o) == Occupied(at.users, at.invites, o)
      ensures Advances(old(Now()), Now())
    {
      at := Now();
      refused := AcceptRefusal(users, invites, i, now);
      if refused.Some? {
        return;
      }
      Await(quiet);
      at := Now();
      var invite := invites[i];
      if invite.status != Pending {
        refused := Some(NotFound);
        return;
      }
      if invite.email in users {
        refused := Some(AccountExists);
        return;
      }
      forall o ensures Occupied(Claimed(at, i).users, Claimed(at, i).invites, o) == Occupied(at.users, at.invites, o) {
        ClaimedConserves(at, i, o);
      }
      invites := invites[i := invite.(status := Accepted)];
      users := users[invite.email := User(invite.org, invite.role)];
    }

    /** The guards look at the member as read; the write, which finds `at`, has none. */
    method ChangeRole(o: Org, target: Email, role: Role, actor: Email, actorRole: Role, ghost quiet: bool)
      returns (refused: Option<Refusal>, ghost at: Shared)
      modifies this`users, this`invites
      // nobody changes their own role, assigns ownership, or touches an owner, another organization's member,
      // someone above them, or a role above their own
      ensures refused.None? <==>
                && target != actor && role != Owner
                && target in old(users) && old(users)[target].org == o && old(users)[target].role != Owner
                && Rank(old(users)[target].role) <= Rank(actorRole) && Rank(role) <= Rank(actorRole)
      ensures target == actor ==> refused == Some(Self)
      ensures target != actor && role != Owner && !(target in old(users) && old(users)[target].org == o) ==>
                refused == Some(NotFound)
      ensures refused == RoleRefusal(old(users), o, target, role, actor, actorRole)
      ensures Advances(old(Now()), at) && Advances(old(Now()), Now()) && (quiet ==> at == old(Now()))
      ensures refused.Some? ==> Now() == at == old(Now())
      ensures refused.None? ==>
                && target in at.users && Now() == at.(users := at.users[target := at.users[target].(role := role)])
                && (forall p :: Owners(users, p) == Owners(at.users, p))
    {
      at := Now();
      refused := None;
      if target == actor {
        refused := Some(Self);
      } else if role == Owner {
        refused := Some(OwnerSeat);
      } else if target !in users || users[target].org != o {
        refused := Some(NotFound);
      } else if users[target].role == Owner {
        refused := Some(OwnerFixed);
      } else if Rank(actorRole) < Rank(users[target].role) {
        refused := Some(Outranked);
      } else if Rank(actorRole) < Rank(role) {
        refused := Some(AboveOwnRank);
      }
      if refused.Some? {
        return;
      }
      Await(quiet);
      at := Now();
      forall p ensures Owners(users[target := users[target].(role := role)], p) == Owners(users, p) {
        OwnersSame(users, target, users[target].(role := role), p);
      }
      users := users[target := users[target].(role := role)];
    }
  }
}
