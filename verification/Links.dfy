/** Emailed links that verify an address or reset a password: superseded by newer ones, used once. */
module Links {
  import opened Options

  type User = string

  datatype Kind = EmailVerification | PasswordReset

  /** A stored link; its raw value is known only to who holds the email, here its position. */
  datatype Link = Link(user: User, kind: Kind, consumed: bool, expiresAt: int)

  // ---- The writes ----

  /** The first write of `issueToken`'s transaction: older open links of the kind are closed. */
  function Supersede(links: seq<Link>, user: User, kind: Kind): (r: seq<Link>)
    ensures |r| == |links|
    ensures forall i :: 0 <= i < |links| ==>
              r[i] == if links[i].user == user && links[i].kind == kind then links[i].(consumed := true) else links[i]
  {
    seq(|links|, i requires 0 <= i < |links| =>
      if links[i].user == user && links[i].kind == kind then links[i].(consumed := true) else links[i])
  }

  function Issued(links: seq<Link>, user: User, kind: Kind, expiresAt: int): seq<Link>
  {
    Supersede(links, user, kind) + [Link(user, kind, false, expiresAt)]
  }

  /** The check a redemption starts with. */
  predicate Valid(links: seq<Link>, i: nat, kind: Kind, now: int)
  {
    i < |links| && links[i].kind == kind && !links[i].consumed && now <= links[i].expiresAt
  }

  function Consume(links: seq<Link>, i: nat): seq<Link>
    requires i < |links|
  {
    links[i := links[i].(consumed := true)]
  }

  // ---- Requests interleaved ----

  /** `pending`: redemptions that passed their check, by link, `None` once decided. `redeemed`: the commits. */
  datatype State = State(clock: int, links: seq<Link>, pending: seq<Option<nat>>, redeemed: multiset<nat>)

  datatype Event =
    | Elapse(ms: nat)
    | Issue(user: User, kind: Kind, ttl: nat)
    | Check(link: nat, kind: Kind)
    | Commit(p: nat)

  predicate Commits(s: State, p: nat)
  {
    p < |s.pending| && s.pending[p].Some? && s.pending[p].value < |s.links| && !s.links[s.pending[p].value].consumed
  }

  function Next(s: State, v: Event): State
  {
    match v
    case Elapse(ms) => s.(clock := s.clock + ms)
    case Issue(user, kind, ttl) => s.(links := Issued(s.links, user, kind, s.clock + ttl))
    case Check(i, kind) => if Valid(s.links, i, kind, s.clock) then s.(pending := s.pending + [Some(i)]) else s
    case Commit(p) =>
      if Commits(s, p) then
        s.(links := Consume(s.links, s.pending[p].value), pending := s.pending[p := None],
           redeemed := s.redeemed + multiset{s.pending[p].value})
      else if p < |s.pending| then s.(pending := s.pending[p := None])
      else s
  }

  function Run(s: State, events: seq<Event>): State
  {
    if |events| == 0 then s else Next(Run(s, events[..|events| - 1]), events[|events| - 1])
  }

  function Initial(clock: int): State { State(clock, [], [], multiset{}) }

  predicate Rivals(a: Link, b: Link) { a.user == b.user && a.kind == b.kind }

  /** A redeemed link is closed, once; all but the newest link of a user and kind are closed. */
  ghost predicate Ok(s: State)
  {
    && (forall i: nat :: s.redeemed[i] <= if i < |s.links| && s.links[i].consumed then 1 else 0)
    && (forall i, j :: 0 <= i < j < |s.links| && Rivals(s.links[i], s.links[j]) ==>
          s.links[i].consumed)
  }

  lemma StepOk(s: State, v: Event)
    requires Ok(s)
    ensures Ok(Next(s, v))
  {
  }

  lemma {:induction false} RunOk(clock: int, events: seq<Event>)
    ensures Ok(Run(Initial(clock), events))
  {
    if |events| != 0 {
      RunOk(clock, events[..|events| - 1]);
      StepOk(Run(Initial(clock), events[..|events| - 1]), events[|events| - 1]);
    }
  }

  /** In every interleaving a link is redeemed at most once, and at most one link per user and kind is open. */
  lemma RedeemedOnce(clock: int, events: seq<Event>, i: nat)
    ensures var s := Run(Initial(clock), events);
            && s.redeemed[i] <= 1
            && forall j, k ::
                 0 <= j < |s.links| && 0 <= k < |s.links| && Rivals(s.links[j], s.links[k]) ==>
                 s.links[j].consumed || s.links[k].consumed || j == k
  {
    RunOk(clock, events);
  }

  lemma {:induction false} ClosedStaysUnredeemed(s: State, events: seq<Event>, i: nat)
    requires i < |s.links| && s.links[i].consumed
    ensures var n := Run(s, events);
            i < |n.links| && n.links[i].consumed && n.redeemed[i] == s.redeemed[i]
  {
    if |events| != 0 {
      ClosedStaysUnredeemed(s, events[..|events| - 1], i);
    }
  }

  /**
   * Once a newer link of the same user and kind is stored, no redemption of an older one commits, even one
   * already checked.
   */
  lemma SupersededNeverRedeemed(clock: int, past: seq<Event>, future: seq<Event>, i: nat, j: nat)
    requires var s := Run(Initial(clock), past);
             i < j < |s.links| && s.links[i].user == s.links[j].user && s.links[i].kind == s.links[j].kind
    ensures Run(Run(Initial(clock), past), future).redeemed[i] == Run(Initial(clock), past).redeemed[i]
  {
    RunOk(clock, past);
    ClosedStaysUnredeemed(Run(Initial(clock), past), future, i);
  }

  /** A redemption that passed its check commits exactly if the link is still open, and closes it. */
  lemma CommitCloses(s: State, p: nat, i: nat)
    requires p < |s.pending| && s.pending[p] == Some(i) && i < |s.links|
    ensures var n := Next(s, Commit(p));
            && n.pending == s.pending[p := None]
            && n.links == s.links[i := s.links[i].(consumed := true)]
            && n.redeemed[i] == s.redeemed[i] + if s.links[i].consumed then 0 else 1
  {
    if s.links[i].consumed {
      assert s.links[i := s.links[i].(consumed := true)] == s.links;
    }
  }

  /** A new link is open for its time; the older ones of its user and kind are closed. */
  lemma IssueSteps(s: State, user: User, kind: Kind, ttl: nat)
    ensures var n := Next(s, Issue(user, kind, ttl)).links;
            && |n| == |s.links| + 1 && n[|s.links|] == Link(user, kind, false, s.clock + ttl)
            && forall i :: 0 <= i < |s.links| ==>
                 n[i] == if s.links[i].user == user && s.links[i].kind == kind then s.links[i].(consumed := true)
                         else s.links[i]
  {
  }

  /** In the interleaved requests too only an open, unexpired link of the kind asked for passes the check. */
  lemma CheckPasses(s: State, i: nat, kind: Kind)
    ensures Next(s, Check(i, kind)) ==
            if i < |s.links| && s.links[i].kind == kind && !s.links[i].consumed && s.clock <= s.links[i].expiresAt
            then s.(pending := s.pending + [Some(i)]) else s
  {
  }

  // ---- The service ----

  /** What other requests may do meanwhile: links are added and closed, never reopened or changed otherwise. */
  ghost predicate Advances(links: seq<Link>, links': seq<Link>)
  {
    && |links| <= |links'|
    && forall i :: 0 <= i < |links| ==> links'[i] == links[i] || links'[i] == links[i].(consumed := true)
  }

  class AccountService {
    var links: seq<Link>

    constructor ()
      ensures links == []
    {
      links := [];
    }

    /** Other requests run while this one awaits; both methods below keep what is assumed of them here. */
    method Await(ghost quiet: bool)
      modifies this`links
      ensures Advances(old(links), links) && (quiet ==> links == old(links))
    {
    }

    method IssueToken(user: User, kind: Kind, now: int, ttl: nat) returns (token: nat)
      modifies this`links
      ensures token == |old(links)| == |links| - 1 && links[token] == Link(user, kind, false, now + ttl)
      ensures forall i :: 0 <= i < token ==>
                var link := old(links)[i];
                links[i] == if link.user == user && link.kind == kind then link.(consumed := true) else link
      ensures links == Issued(old(links), user, kind, now + ttl)
      ensures Advances(old(links), links)
      ensures forall i :: 0 <= i < |links| && links[i].user == user && links[i].kind == kind && !links[i].consumed ==>
          i == token
    {
      token := |links|;
      links := Supersede(links, user, kind);
      links := links + [Link(user, kind, false, now + ttl)];
    }

    /**
     * The link is consumed, and its owner returned, exactly if it is still open when the guarded update
     * runs; `at` is what that update finds.
     */
    method ConsumeToken(i: nat, kind: Kind, now: int, ghost quiet: bool)
      returns (owner: Option<User>, ghost at: seq<Link>)
      modifies this`links
      ensures Advances(old(links), at) && (quiet ==> at == old(links))
      // unknown, of another kind, closed or expired: refused, and nothing is written
      ensures !(i < |old(links)| && old(links)[i].kind == kind && !old(links)[i].consumed
                && now <= old(links)[i].expiresAt) ==>
                owner.None? && links == at == old(links)
      ensures i < |old(links)| && old(links)[i].kind == kind && !old(links)[i].consumed
              && now <= old(links)[i].expiresAt ==>
                && i < |at|
                && links == (if at[i].consumed then at else at[i := at[i].(consumed := true)])
                && owner == if at[i].consumed then None else Some(old(links)[i].user)
    {
      at := links;
      if i >= |links| || links[i].kind != kind || links[i].consumed || links[i].expiresAt < now {
        owner := None;
        return;
      }
      var link := links[i];
      Await(quiet);
      at := links;
      if links[i].consumed {
        owner := None;
        return;
      }
      links := Consume(links, i);
      owner := Some(link.user);
    }
  }
}
