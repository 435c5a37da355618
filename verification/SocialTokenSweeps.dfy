/** The social token service: one refresh, the token for a publish, and the sweep. */
module SocialTokenSweeps {
  import opened Sequences
  import opened SocialTokens
  import PublishProtocol

  /** A usable token, a demand to reconnect, or the error of a stored token that does not decrypt. */
  datatype Outcome = Token(access: string) | ReconnectRequired(status: Status) | Undecryptable

  /** How a worker's attempt sees the outcome: only a demand to reconnect ends it in good order. */
  function TokenCheck(r: Outcome): PublishProtocol.TokenOutcome
  {
    match r
    case Token(_) => PublishProtocol.Fresh
    case ReconnectRequired(_) => PublishProtocol.Reconnect
    case Undecryptable => PublishProtocol.TokenError
  }

  datatype Summary = Summary(due: nat, refreshed: nat, needsReconnect: nat)

  /** The accounts, and what their providers honour. */
  datatype Shared = Shared(accounts: map<AccountId, Account>, honoured: map<AccountId, Credential>)

  type Offers = AccountId -> Answer

  /** What other requests may do meanwhile: anything but remove accounts. */
  ghost predicate Meanwhile(s: Shared, n: Shared)
  {
    s.accounts.Keys <= n.accounts.Keys && s.honoured.Keys <= n.honoured.Keys
  }

  function Called(s: Shared, id: AccountId, answer: Answer): Shared
    requires id in s.honoured
  {
    s.(honoured := s.honoured[id := HonouredAfter(s.honoured[id], answer)])
  }

  /**
   * One refresh, of a row read as `seen`: the provider's answer to what that row holds, and a write to the
   * row as `at` has it.
   */
  ghost predicate Treated(s: Shared, at: Shared, n: Shared, id: AccountId, seen: Account, adapters: set<Platform>,
                          offer: Answer, now: int, r: Outcome)
  {
    && id in s.honoured
    && if seen.platform !in adapters then r == ReconnectRequired(Error) && n == s
       else if !seen.readable then r == Undecryptable && n == s
       else
         var answer := Answered(s.honoured[id], Stored(seen), offer);
         && Meanwhile(Called(s, id, answer), at) && id in at.accounts
         && n == at.(accounts := at.accounts[id := Landed(at.accounts[id], seen, answer, now)])
         && r == if answer.Granted? then Token(answer.access)
                 else ReconnectRequired(StatusForFailure(seen, answer.readsRevoked, now))
  }

  /** The same with nothing in between. */
  ghost predicate TreatedAlone(s: Shared, n: Shared, id: AccountId, seen: Account, adapters: set<Platform>,
                               offer: Answer, now: int)
  {
    && id in s.honoured && id in s.accounts
    && if seen.platform !in adapters || !seen.readable then n == s
       else
         var answer := Answered(s.honoured[id], Stored(seen), offer);
         n == Shared(s.accounts[id := Landed(s.accounts[id], seen, answer, now)], Called(s, id, answer).honoured)
  }

  // ---- The sweep ----

  /** Account and honoured token after an undisturbed sweep. */
  function Swept(a: Account, honoured: Credential, offer: Answer, adapters: set<Platform>, now: int)
    : (Account, Credential)
  {
    if !SweepSelects(a, now) || a.platform !in adapters || !a.readable then (a, honoured)
    else
      var answer := Answered(honoured, Stored(a), offer);
      (Landed(a, a, answer, now), HonouredAfter(honoured, answer))
  }

  /**
   * A due account is left connected with the granted tokens or is marked; but one whose platform has no
   * adapter, or whose tokens no longer decrypt, stays connected and due. Where the stored token was
   * honoured it still is, and no sweep connects an account that was not connected.
   */
  lemma SweptAccounts(a: Account, honoured: Credential, offer: Answer, adapters: set<Platform>, now: int)
    ensures var (b, h) := Swept(a, honoured, offer, adapters, now);
            && (b.status == Connected ==> a.status == Connected)
            && (a.status != Connected || !IsDueForRefresh(a, now) ==> b == a && h == honoured)
            && (Stored(a) == honoured ==> Stored(b) == h)
            && (a.status == Connected && IsDueForRefresh(a, now) ==>
                  if a.platform !in adapters || !a.readable then b == a && SweepSelects(b, now)
                  else if Stored(a) == honoured && offer.Granted? then b.status == Connected && b.access == offer.access
                  else b.status != Connected && Stored(b) == Stored(a))
  {
  }

  /** The due accounts, each once, in some order. */
  ghost predicate IsSelection(accounts: map<AccountId, Account>, now: int, due: seq<AccountId>)
  {
    && (forall id :: id in due <==>
        id in accounts && accounts[id].status == Connected && IsDueForRefresh(accounts[id], now))
    && (forall i, k :: 0 <= i < k < |due| ==> due[i] != due[k])
  }

  /** One round of the sweep: the state it starts from, the one its write finds, the one it leaves. */
  datatype Round = Round(before: Shared, at: Shared, after: Shared, outcome: Outcome)

  function Renewed(): Round -> int { (r: Round) => if r.outcome.Token? then 1 else 0 }

  /** A round refreshes account `id`, by the row the sweep selected. */
  ghost predicate RoundOf(start: Shared, now: int, id: AccountId, r: Round, adapters: set<Platform>, offers: Offers)
  {
    && id in start.accounts
    && Treated(r.before, r.at, r.after, id, start.accounts[id], adapters, offers(id), now, r.outcome)
  }

  /** Where round `k` starts from, apart from what others did. */
  function Left(start: Shared, rounds: seq<Round>, k: nat): Shared
    requires k <= |rounds|
  {
    if k == 0 then start else rounds[k - 1].after
  }

  predicate Chained(start: Shared, rounds: seq<Round>, k: nat)
    requires k < |rounds|
  {
    var left := Left(start, rounds, k);
    left.accounts.Keys <= rounds[k].before.accounts.Keys && left.honoured.Keys <= rounds[k].before.honoured.Keys
  }

  /** The due accounts in turn; between rounds others run. */
  ghost predicate RoundsOf(start: Shared, now: int, due: seq<AccountId>, rounds: seq<Round>, adapters: set<Platform>,
                           offers: Offers)
  {
    && |rounds| <= |due|
    && (forall k :: 0 <= k < |rounds| ==> RoundOf(start, now, due[k], rounds[k], adapters, offers))
    && (forall k :: 0 <= k < |rounds| ==> Chained(start, rounds, k))
  }

  /** The accounts after `k` undisturbed rounds. */
  ghost predicate SweptSoFar(start: Shared, n: Shared, now: int, due: seq<AccountId>, k: nat, adapters: set<Platform>,
                             offers: Offers)
  {
    && k <= |due| && n.accounts.Keys == start.accounts.Keys && start.accounts.Keys <= n.honoured.Keys
    && start.accounts.Keys <= start.honoured.Keys
    && forall id :: id in start.accounts ==>
         (n.accounts[id], n.honoured[id]) ==
         if id in due[..k] then Swept(start.accounts[id], start.honoured[id], offers(id), adapters, now)
         else (start.accounts[id], start.honoured[id])
  }

  lemma SweptNext(start: Shared, s: Shared, n: Shared, now: int, due: seq<AccountId>, k: nat, adapters: set<Platform>,
                  offers: Offers)
    requires IsSelection(start.accounts, now, due) && k < |due|
    requires SweptSoFar(start, s, now, due, k, adapters, offers)
    requires due[k] in start.accounts
        && TreatedAlone(s, n, due[k], start.accounts[due[k]], adapters, offers(due[k]), now)
    ensures SweptSoFar(start, n, now, due, k + 1, adapters, offers)
  {
    PrefixSnoc(due, k);
    assert due[k] in due && due[k] !in due[..k];
  }

  lemma RoundsNext(start: Shared, now: int, due: seq<AccountId>, rounds: seq<Round>, adapters: set<Platform>,
                   offers: Offers, r: Round)
    requires RoundsOf(start, now, due, rounds, adapters, offers) && |rounds| < |due|
    requires RoundOf(start, now, due[|rounds|], r, adapters, offers)
    requires Meanwhile(Left(start, rounds, |rounds|), r.before)
    ensures RoundsOf(start, now, due, rounds + [r], adapters, offers)
    ensures Sum(Renewed(), rounds + [r]) == Sum(Renewed(), rounds) + Renewed()(r)
    ensures Left(start, rounds + [r], |rounds| + 1) == r.after
  {
    var more := rounds + [r];
    forall k | 0 <= k < |more|
      ensures RoundOf(start, now, due[k], more[k], adapters, offers) && Chained(start, more, k)
    {
      if k < |rounds| {
        assert RoundOf(start, now, due[k], rounds[k], adapters, offers) && Chained(start, rounds, k);
      }
    }
    SumSnoc(Renewed(), rounds, r);
  }

  class SocialTokenService {
    const adapters: set<Platform>
    var accounts: map<AccountId, Account>
    /** The providers' side: what each honours for an account. */
    var honoured: map<AccountId, Credential>

    constructor (adapters: set<Platform>)
      ensures accounts == map[] && honoured == map[] && this.adapters == adapters
    {
      this.adapters := adapters;
      accounts, honoured := map[], map[];
    }

    ghost function Now(): Shared
      reads this`accounts, this`honoured
    {
      Shared(accounts, honoured)
    }

    /** Other requests run while this one awaits; the methods below keep what is assumed of them here. */
    method Await(ghost quiet: bool)
      modifies this`accounts, this`honoured
      ensures Meanwhile(old(Now()), Now()) && (quiet ==> Now() == old(Now()))
    {
    }

    /** `adapter.refresh` */
    method CallAdapter(id: AccountId, presented: Credential, offer: Answer) returns (answer: Answer)
      requires id in honoured
      modifies this`honoured
      ensures answer == Answered(old(honoured)[id], presented, offer)
      ensures Now() == Called(old(Now()), id, answer)
      // granted only for what is honoured, and then only the newest token is
      ensures offer.Denied? ==> answer == offer && honoured == old(honoured)
      ensures offer.Granted? && presented != old(honoured)[id] ==> answer == Denied(true) && honoured == old(honoured)
      ensures offer.Granted? && presented == old(honoured)[id] ==>
                && answer == offer
                && honoured == old(honoured)[id := if offer.refresh.Some? then RefreshToken(offer.refresh.value)
                                                   else if presented.RefreshToken? then presented
                                                   else AccessToken(offer.access)]
    {
      answer := Answered(honoured[id], presented, offer);
      honoured := honoured[id := HonouredAfter(honoured[id], answer)];
    }

    /** Refreshes or marks the account; without an adapter, or with tokens that do not decrypt, nothing changes. */
    method RefreshAccount(id: AccountId, seen: Account, offer: Answer, now: int, ghost quiet: bool)
      returns (r: Outcome, ghost at: Shared)
      requires id in accounts && id in honoured
      modifies this`accounts, this`honoured
      ensures Treated(old(Now()), at, Now(), id, seen, adapters, offer, now, r)
      ensures Meanwhile(old(Now()), Now())
      ensures quiet ==> TreatedAlone(old(Now()), Now(), id, seen, adapters, offer, now)
      ensures seen.platform !in adapters ==> r == ReconnectRequired(Error) && Now() == old(Now())
      ensures seen.platform in adapters && !seen.readable ==> r == Undecryptable && Now() == old(Now())
      // the refresh token is presented if there is one; a grant is stored whole, a failure only marks
      ensures seen.platform in adapters && seen.readable ==>
                var presented := if seen.refresh.Some? then RefreshToken(seen.refresh.value)
                                 else AccessToken(seen.access);
                && id in at.accounts && honoured == at.honoured
                && if offer.Granted? && presented == old(honoured)[id] then
                     && r == Token(offer.access)
                     && accounts == at.accounts[id := at.accounts[id].(
                          access := offer.access,
                          refresh := if offer.refresh.Some? then offer.refresh else seen.refresh,
                          expiresAt := if offer.expiresAt.Some? then offer.expiresAt else seen.expiresAt,
                          status := Connected, readable := true)]
                   else
                     var status := if offer.Granted? || offer.readsRevoked then Revoked
                                   else if seen.expiresAt.Some? && seen.expiresAt.value <= now then Expired else Error;
                     && r == ReconnectRequired(status)
                     && accounts == at.accounts[id := at.accounts[id].(status := status)]
    {
      at := Now();
      if seen.platform !in adapters {
        r := ReconnectRequired(Error);
        return;
      }
      if !seen.readable {
        r := Undecryptable;
        return;
      }
      var answer := CallAdapter(id, Stored(seen), offer);
      Await(quiet);
      at := Now();
      match answer {
        case Granted(access, _, _) =>
          accounts := accounts[id := Refreshed(accounts[id], seen, answer)];
          r := Token(access);
        case Denied(readsRevoked) =>
          var status := StatusForFailure(seen, readsRevoked, now);
          accounts := accounts[id := accounts[id].(status := status)];
          r := ReconnectRequired(status);
      }
    }

    /** The token a publish uses, for the row it read: refreshed first exactly if due. */
    method EnsureFreshAccessToken(id: AccountId, seen: Account, offer: Answer, now: int, ghost quiet: bool)
      returns (r: Outcome, ghost at: Shared)
      requires id in accounts && id in honoured
      modifies this`accounts, this`honoured
      ensures seen.status != Connected ==> r == ReconnectRequired(seen.status) && Now() == old(Now())
      ensures seen.status == Connected && !IsDueForRefresh(seen, now) ==>
                r == (if seen.readable then Token(seen.access) else Undecryptable) && Now() == old(Now())
      ensures seen.status == Connected && IsDueForRefresh(seen, now) ==>
                && Treated(old(Now()), at, Now(), id, seen, adapters, offer, now, r)
                && (quiet ==> TreatedAlone(old(Now()), Now(), id, seen, adapters, offer, now))
      // a token is used as it is unless it runs out within a day
      ensures var due := seen.expiresAt.Some? && seen.expiresAt.value - now <= 86_400_000;
              && (seen.status == Connected && !due && seen.readable ==> r == Token(seen.access) && Now() == old(Now()))
              && (seen.status == Connected && due && seen.platform in adapters && seen.readable ==>
                    var presented := if seen.refresh.Some? then RefreshToken(seen.refresh.value)
                                     else AccessToken(seen.access);
                    if offer.Granted? && presented == old(honoured)[id] then r == Token(offer.access)
                    else r.ReconnectRequired? && r.status != Connected)
      ensures TokenCheck(r) == PublishProtocol.TokenError <==> r == Undecryptable
      ensures TokenCheck(r) == PublishProtocol.Reconnect <==> r.ReconnectRequired?
      ensures TokenCheck(r) == PublishProtocol.TokenError <==>
                seen.status == Connected && !seen.readable && (IsDueForRefresh(seen, now) ==> seen.platform in adapters)
      ensures Meanwhile(old(Now()), Now())
    {
      at := Now();
      if seen.status != Connected {
        r := ReconnectRequired(seen.status);
      } else if IsDueForRefresh(seen, now) {
        r, at := RefreshAccount(id, seen, offer, now, quiet);
      } else if seen.readable {
        r := Token(seen.access);
      } else {
        r := Undecryptable;
      }
    }

    method FindDue(now: int) returns (due: seq<AccountId>)
      ensures IsSelection(accounts, now, due)
    {
      due := [];
      var rest := accounts.Keys;
      while rest != {}
        invariant rest <= accounts.Keys
        invariant forall id :: id in due <==> id in accounts && id !in rest && SweepSelects(accounts[id], now)
        invariant forall i, k :: 0 <= i < k < |due| ==> due[i] != due[k]
        decreases rest
      {
        var id :| id in rest;
        rest := rest - {id};
        if SweepSelects(accounts[id], now) {
          due := due + [id];
        }
      }
    }

    /**
     * The sweep refreshes exactly the accounts that were connected and due when selected, each by the row
     * selected, and reports as refreshed exactly those that got a token. Undisturbed, every account ends
     * as if the sweep had treated it alone.
     */
    method RefreshDueAccounts(offers: Offers, now: int, ghost quiet: bool)
      returns (s: Summary, ghost due: seq<AccountId>, ghost rounds: seq<Round>)
      requires accounts.Keys <= honoured.Keys
      modifies this`accounts, this`honoured
      ensures IsSelection(old(accounts), now, due) && |rounds| == |due|
      ensures forall id :: id in due <==>
                && id in old(accounts) && old(accounts)[id].status == Connected
                && old(accounts)[id].expiresAt.Some? && old(accounts)[id].expiresAt.value <= now + 86_400_000
      ensures RoundsOf(old(Now()), now, due, rounds, adapters, offers)
      ensures Now() == Left(old(Now()), rounds, |rounds|)
      ensures s.due == |due| == s.refreshed + s.needsReconnect && s.refreshed == Sum(Renewed(), rounds)
      ensures quiet ==> SweptSoFar(old(Now()), Now(), now, due, |due|, adapters, offers)
    {
      ghost var start := Now();
      var rows := accounts;
      var found := FindDue(now);
      due, rounds := found, [];
      var refreshed, needsReconnect := 0, 0;
      for i := 0 to |found|
        invariant |rounds| == i && RoundsOf(start, now, due, rounds, adapters, offers)
        invariant Now() == Left(start, rounds, i) && Meanwhile(start, Now())
        invariant refreshed + needsReconnect == i && refreshed == Sum(Renewed(), rounds)
        invariant quiet ==> SweptSoFar(start, Now(), now, due, i, adapters, offers)
      {
        var id := found[i];
        assert id in due;
        Await(quiet);
        ghost var before := Now();
        ghost var at;
        var r;
        r, at := RefreshAccount(id, rows[id], offers(id), now, quiet);
        if quiet {
          SweptNext(start, before, Now(), now, due, i, adapters, offers);
        }
        RoundsNext(start, now, due, rounds, adapters, offers, Round(before, at, Now(), r));
        rounds := rounds + [Round(before, at, Now(), r)];
        if r.Token? {
          refreshed := refreshed + 1;
        } else {
          needsReconnect := needsReconnect + 1;
        }
      }
      s := Summary(|found|, refreshed, needsReconnect);
    }
  }
}
