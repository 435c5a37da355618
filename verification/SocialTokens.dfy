/** Keeping social accounts' tokens unseen against providers that rotate them, with reads, calls and writes apart. */
module SocialTokens {
  import opened Options

  type AccountId = string
  type Platform = string

  datatype Status = Connected | Expired | Revoked | Error

  /** A stored account; `readable` says that its encrypted tokens decrypt under the current key. */
  datatype Account = Account(
    platform: Platform, access: string, refresh: Option<string>, expiresAt: Option<int>, status: Status, readable: bool)

  /** What a provider honours for an account: a refresh token, or where it issues none the access token itself. */
  datatype Credential = RefreshToken(value: string) | AccessToken(value: string)

  /** A grant returns a refresh token where the provider rotates it; a denial may read as a revocation. */
  datatype Answer =
    | Granted(access: string, refresh: Option<string>, expiresAt: Option<int>)
    | Denied(readsRevoked: bool)

  /** `TOKEN_REFRESH_THRESHOLD_MS` */
  const THRESHOLD := 24 * 60 * 60 * 1000

  predicate IsDueForRefresh(a: Account, now: int) { a.expiresAt.Some? && a.expiresAt.value - now <= THRESHOLD }

  /** The query of the sweep. */
  predicate SweepSelects(a: Account, now: int)
  {
    a.status == Connected && a.expiresAt.Some? && a.expiresAt.value <= now + THRESHOLD
  }

  /** What a refresh presents: the refresh token if one is stored, else the access token. */
  function Stored(a: Account): Credential
  {
    if a.refresh.Some? then RefreshToken(a.refresh.value) else AccessToken(a.access)
  }

  /** The provider's side of a grant: a rotated token replaces the old one, which dies. */
  function Rotated(honoured: Credential, g: Answer): Credential
    requires g.Granted?
  {
    if g.refresh.Some? then RefreshToken(g.refresh.value)
    else if honoured.RefreshToken? then honoured
    else AccessToken(g.access)
  }

  /** A provider grants only what it honours; a failure changes nothing. */
  function Answered(honoured: Credential, presented: Credential, offer: Answer): Answer
  {
    if offer.Granted? && presented != honoured then Denied(true) else offer
  }

  function StatusForFailure(a: Account, readsRevoked: bool, now: int): (s: Status)
    ensures s != Connected
    ensures s == Revoked <==> readsRevoked
    ensures s == Expired <==> !readsRevoked && a.expiresAt.Some? && a.expiresAt.value <= now
  {
    if readsRevoked then Revoked
    else if a.expiresAt.Some? && a.expiresAt.value <= now then Expired
    else Error
  }

  /** The row after a grant; `seen` is the row as it was read. */
  function Refreshed(row: Account, seen: Account, g: Answer): Account
    requires g.Granted?
  {
    row.(access := g.access,
         refresh := if g.refresh.Some? then g.refresh else seen.refresh,
         expiresAt := if g.expiresAt.Some? then g.expiresAt else seen.expiresAt,
         status := Connected,
         readable := true)
  }

  /** The write that ends a refresh. */
  function Landed(row: Account, seen: Account, answer: Answer, now: int): Account
  {
    if answer.Granted? then Refreshed(row, seen, answer)
    else row.(status := StatusForFailure(seen, answer.readsRevoked, now))
  }

  /** What the provider honours after it answered. */
  function HonouredAfter(honoured: Credential, answer: Answer): Credential
  {
    if answer.Granted? then Rotated(honoured, answer) else honoured
  }

  // ---- One refresh: which row it read decides ----

  /**
   * A refresh that the provider is willing to grant connects the account exactly if the row it read still
   * holds the honoured token; then the token it stores is the one honoured.
   */
  lemma RefreshConnectsIff(row: Account, seen: Account, honoured: Credential, offer: Answer, now: int)
    requires Stored(row) == honoured && offer.Granted?
    ensures var answer := Answered(honoured, Stored(seen), offer);
            && (Landed(row, seen, answer, now).status == Connected <==> Stored(seen) == honoured)
            && (Stored(seen) == honoured ==> Stored(Landed(row, seen, answer, now)) == HonouredAfter(honoured, answer))
            && (Stored(seen) != honoured ==> Stored(Landed(row, seen, answer, now)) == honoured)
  {
  }

  /**
   * The write of a grant stores the honoured token exactly if the provider still honours what the grant
   * left it honouring.
   */
  lemma LateWriteCurrentIff(row: Account, seen: Account, g: Answer, honoured: Credential, now: int)
    requires g.Granted?
    ensures Stored(Landed(row, seen, g, now)) == honoured <==> honoured == Rotated(Stored(seen), g)
  {
  }

  // ---- Reads, provider calls and writes interleaved ----

  /** A refresh under way: it read the row, or has the provider's answer; `Over` when written. */
  datatype Flight = Reading(id: AccountId, seen: Account) | Got(id: AccountId, seen: Account, answer: Answer) | Over

  /** The accounts, what providers honour, and the refreshes. */
  datatype State = State(accounts: map<AccountId, Account>, honoured: map<AccountId, Credential>, flights: seq<Flight>)

  datatype Event =
    | Connect(id: AccountId, platform: Platform, granted: Answer)
    | Begin(id: AccountId, now: int)
    | Call(p: nat, offer: Answer)
    | Write(p: nat, now: int)
    | MarkRevoked(id: AccountId)
    | LoseKey(id: AccountId)

  function Fresh(platform: Platform, g: Answer): Account
    requires g.Granted?
  {
    Account(platform, g.access, g.refresh, g.expiresAt, Connected, true)
  }

  /** A publish or a sweep refreshes a row that reads connected, due, readable, and has an adapter. */
  predicate Begins(s: State, adapters: set<Platform>, id: AccountId, now: int)
  {
    && id in s.accounts && s.accounts[id].status == Connected && IsDueForRefresh(s.accounts[id], now)
    && s.accounts[id].platform in adapters && s.accounts[id].readable
  }

  function Next(adapters: set<Platform>, s: State, v: Event): State
  {
    match v
    case Connect(id, platform, g) =>
      if g.Granted?
      then s.(accounts := s.accounts[id := Fresh(platform, g)],
          honoured := s.honoured[id := Stored(Fresh(platform, g))])
      else s
    case Begin(id, now) =>
      if Begins(s, adapters, id, now) then s.(flights := s.flights + [Reading(id, s.accounts[id])]) else s
    case Call(p, offer) =>
      if p < |s.flights| && s.flights[p].Reading? && s.flights[p].id in s.honoured then
        var f := s.flights[p];
        var answer := Answered(s.honoured[f.id], Stored(f.seen), offer);
        s.(honoured := s.honoured[f.id := HonouredAfter(s.honoured[f.id], answer)],
           flights := s.flights[p := Got(f.id, f.seen, answer)])
      else s
    case Write(p, now) =>
      if p < |s.flights| && s.flights[p].Got? && s.flights[p].id in s.accounts then
        var f := s.flights[p];
        s.(accounts := s.accounts[f.id := Landed(s.accounts[f.id], f.seen, f.answer, now)],
            flights := s.flights[p := Over])
      else s
    case MarkRevoked(id) =>
      if id in s.accounts then s.(accounts := s.accounts[id := s.accounts[id].(status := Revoked)]) else s
    case LoseKey(id) =>
      if id in s.accounts then s.(accounts := s.accounts[id := s.accounts[id].(readable := false)]) else s
  }

  /** The interleaved requests write what the service's methods write; reconnecting stores what was granted. */
  lemma RequestSteps(adapters: set<Platform>, s: State, id: AccountId, platform: Platform, g: Answer, now: int, p: nat)
    ensures g.Granted? ==>
              var n := Next(adapters, s, Connect(id, platform, g));
              && n.accounts == s.accounts[id := Account(platform, g.access, g.refresh, g.expiresAt, Connected, true)]
              && n.honoured == s.honoured[id := if g.refresh.Some? then RefreshToken(g.refresh.value)
                                                else AccessToken(g.access)]
    ensures id in s.accounts ==>
              var a := s.accounts[id];
              var due := a.status == Connected && a.expiresAt.Some? && a.expiresAt.value - now <= 86_400_000;
              && Next(adapters, s, MarkRevoked(id)).accounts == s.accounts[id := a.(status := Revoked)]
              && Next(adapters, s, LoseKey(id)).accounts == s.accounts[id := a.(readable := false)]
              && Next(adapters, s, Begin(id, now)).flights
                 == s.flights + if due && a.platform in adapters && a.readable then [Reading(id, a)] else []
    ensures p < |s.flights| && s.flights[p].Reading? && s.flights[p].id == id && id in s.honoured ==>
              var n, seen := Next(adapters, s, Call(p, g)), s.flights[p].seen;
              var presented := if seen.refresh.Some? then RefreshToken(seen.refresh.value)
                               else AccessToken(seen.access);
              if g.Granted? && presented == s.honoured[id]
              then n.flights[p] == Got(id, seen, g)
                   && n.honoured == s.honoured[id := if g.refresh.Some? then RefreshToken(g.refresh.value)
                                                     else if presented.RefreshToken? then presented
                                                     else AccessToken(g.access)]
              else n.flights[p].Got? && n.flights[p].answer.Denied? && n.honoured == s.honoured
  {
  }

  function Run(adapters: set<Platform>, s: State, events: seq<Event>): State
  {
    if |events| == 0 then s else Next(adapters, Run(adapters, s, events[..|events| - 1]), events[|events| - 1])
  }

  lemma {:induction false} RunConcat(adapters: set<Platform>, s: State, xs: seq<Event>, ys: seq<Event>)
    ensures Run(adapters, s, xs + ys) == Run(adapters, Run(adapters, s, xs), ys)
  {
    if |ys| == 0 {
      assert xs + ys == xs;
    } else {
      RunConcat(adapters, s, xs, ys[..|ys| - 1]);
      assert (xs + ys)[..|xs + ys| - 1] == xs + ys[..|ys| - 1];
    }
  }

  const INITIAL := State(map[], map[], [])

  /** The refresh is under way for this account. */
  predicate For(f: Flight, id: AccountId) { !f.Over? && f.id == id }

  predicate Alone(s: State, id: AccountId) { forall p :: 0 <= p < |s.flights| ==> !For(s.flights[p], id) }

  /** A connected account holds the token its provider honours. */
  predicate InStep(s: State, id: AccountId)
  {
    id in s.accounts ==>
      id in s.honoured && (s.accounts[id].status == Connected ==> Stored(s.accounts[id]) == s.honoured[id])
  }

  // ---- Runs without overlap ----

  /**
   * At most one refresh of the account is under way, it read the present tokens, and its write will store
   * the honoured one.
   */
  ghost predicate Orderly(s: State, id: AccountId)
  {
    && Settled(s, id)
    && (forall p, q :: 0 <= p < q < |s.flights| && For(s.flights[p], id) ==> !For(s.flights[q], id))
    && (forall p :: 0 <= p < |s.flights| && For(s.flights[p], id) ==> FlightOrderly(s, id, s.flights[p]))
  }

  predicate Settled(s: State, id: AccountId)
  {
    && (id in s.accounts ==> id in s.honoured)
    && (Alone(s, id) ==> InStep(s, id))
  }

  predicate FlightOrderly(s: State, id: AccountId, f: Flight)
    requires !f.Over?
  {
    && id in s.accounts && id in s.honoured
    && if f.Got? && f.answer.Granted? then s.honoured[id] == Rotated(Stored(f.seen), f.answer)
       else Stored(s.accounts[id]) == s.honoured[id]
  }

  /** Refreshes and reconnections of an account start only when no refresh of it is under way. */
  predicate Apart(adapters: set<Platform>, s: State, v: Event)
  {
    match v
    case Begin(id, now) => Begins(s, adapters, id, now) ==> Alone(s, id)
    case Connect(id, _, _) => Alone(s, id)
    case _ => true
  }

  ghost predicate Sequential(adapters: set<Platform>, events: seq<Event>)
  {
    |events| != 0 ==>
      Sequential(adapters, events[..|events| - 1])
      && Apart(adapters, Run(adapters, INITIAL, events[..|events| - 1]), events[|events| - 1])
  }

  lemma CallOrderly(adapters: set<Platform>, s: State, p: nat, offer: Answer, id: AccountId)
    requires Orderly(s, id)
    ensures Orderly(Next(adapters, s, Call(p, offer)), id)
  {
    var n := Next(adapters, s, Call(p, offer));
    forall q | 0 <= q < |s.flights|
      ensures For(n.flights[q], id) <==> For(s.flights[q], id)
      ensures For(s.flights[q], id) ==> FlightOrderly(n, id, n.flights[q])
    {
      assert For(s.flights[q], id) ==> FlightOrderly(s, id, s.flights[q]);
    }
    assert Alone(n, id) <==> Alone(s, id);
    if p < |s.flights| && Alone(s, id) {
      assert !For(s.flights[p], id);
    }
  }

  lemma WriteOrderly(adapters: set<Platform>, s: State, p: nat, now: int, id: AccountId)
    requires Orderly(s, id)
    ensures Orderly(Next(adapters, s, Write(p, now)), id)
  {
    var n := Next(adapters, s, Write(p, now));
    if p < |s.flights| && s.flights[p].Got? && s.flights[p].id == id {
      assert FlightOrderly(s, id, s.flights[p]);
    }
    assert forall q :: 0 <= q < |s.flights| && q != p ==> n.flights[q] == s.flights[q];
    forall q | 0 <= q < |n.flights| && For(n.flights[q], id) ensures FlightOrderly(n, id, n.flights[q]) {
      assert FlightOrderly(s, id, s.flights[q]);
    }
  }

  lemma BeginOrderly(adapters: set<Platform>, s: State, k: AccountId, now: int, id: AccountId)
    requires Orderly(s, id) && (Begins(s, adapters, k, now) ==> Alone(s, k))
    ensures Orderly(Next(adapters, s, Begin(k, now)), id)
  {
    var n := Next(adapters, s, Begin(k, now));
    assert forall q :: 0 <= q < |s.flights| ==> n.flights[q] == s.flights[q];
    if Begins(s, adapters, k, now) && k != id && Alone(n, id) {
      assert Alone(s, id);
    }
  }

  lemma RowOrderly(adapters: set<Platform>, s: State, v: Event, id: AccountId)
    requires Orderly(s, id) && Apart(adapters, s, v) && (v.Connect? || v.MarkRevoked? || v.LoseKey?)
    ensures Orderly(Next(adapters, s, v), id)
  {
    var n := Next(adapters, s, v);
    assert n.flights == s.flights;
    assert Alone(n, id) ==> Alone(s, id);
    forall q | 0 <= q < |n.flights| && For(n.flights[q], id) ensures FlightOrderly(n, id, n.flights[q]) {
      assert FlightOrderly(s, id, s.flights[q]);
    }
  }

  lemma StepOrderly(adapters: set<Platform>, s: State, v: Event, id: AccountId)
    requires Orderly(s, id) && Apart(adapters, s, v)
    ensures Orderly(Next(adapters, s, v), id)
  {
    match v
    case Call(p, offer) => CallOrderly(adapters, s, p, offer, id);
    case Write(p, now) => WriteOrderly(adapters, s, p, now, id);
    case Begin(k, now) => BeginOrderly(adapters, s, k, now, id);
    case _ => RowOrderly(adapters, s, v, id);
  }

  lemma {:induction false} SequentialOrderly(adapters: set<Platform>, events: seq<Event>, id: AccountId)
    requires Sequential(adapters, events)
    ensures Orderly(Run(adapters, INITIAL, events), id)
  {
    if |events| != 0 {
      SequentialOrderly(adapters, events[..|events| - 1], id);
      StepOrderly(adapters, Run(adapters, INITIAL, events[..|events| - 1]), events[|events| - 1], id);
    }
  }

  /**
   * Over every run in which refreshes and reconnections of an account do not overlap, a connected account
   * holds the token its provider honours whenever no refresh of it is under way.
   */
  lemma StoredTokensStayCurrent(adapters: set<Platform>, events: seq<Event>, id: AccountId)
    requires Sequential(adapters, events)
    ensures var s := Run(adapters, INITIAL, events); Alone(s, id) ==> InStep(s, id)
  {
    SequentialOrderly(adapters, events, id);
  }

  // ---- What an overlap costs ----

  /** No further refresh, reconnection or revocation of the account starts, and providers grant what they honour. */
  predicate Harmless(v: Event, id: AccountId)
  {
    match v
    case Begin(k, _) => k != id
    case Connect(k, _, _) => k != id
    case MarkRevoked(k) => k != id
    case Call(_, offer) => offer.Granted?
    case _ => true
  }

  ghost predicate Undisturbed(events: seq<Event>, id: AccountId)
  {
    forall k :: 0 <= k < |events| ==> Harmless(events[k], id)
  }

  /** With every refresh of it over, the account is connected with the token its provider honours. */
  predicate LandsWell(s: State, id: AccountId)
  {
    Alone(s, id) ==>
      id in s.accounts && id in s.honoured && s.accounts[id].status == Connected
          && Stored(s.accounts[id]) == s.honoured[id]
  }

  /** The only refresh of the account is on its way to store the honoured token, or has. */
  ghost predicate OnCourse(s: State, id: AccountId, p: nat)
  {
    && p < |s.flights| && (forall q :: 0 <= q < |s.flights| && q != p ==> !For(s.flights[q], id))
    && id in s.accounts && id in s.honoured && s.accounts[id].status == Connected
    && match s.flights[p]
       case Reading(k, seen) => k == id && Stored(seen) == s.honoured[id]
       case Got(k, seen, answer) => k == id && answer.Granted? && s.honoured[id] == Rotated(Stored(seen), answer)
       case Over => Stored(s.accounts[id]) == s.honoured[id]
  }

  lemma StepOnCourse(adapters: set<Platform>, s: State, v: Event, id: AccountId, p: nat)
    requires OnCourse(s, id, p) && Harmless(v, id)
    ensures OnCourse(Next(adapters, s, v), id, p)
  {
    var n := Next(adapters, s, v);
    forall q | 0 <= q < |n.flights| && q != p ensures !For(n.flights[q], id) {
      assert q < |s.flights| ==> !For(s.flights[q], id);
    }
  }

  lemma {:induction false} RunOnCourse(adapters: set<Platform>, s: State, events: seq<Event>, id: AccountId, p: nat)
    requires OnCourse(s, id, p) && Undisturbed(events, id)
    ensures OnCourse(Run(adapters, s, events), id, p)
  {
    if |events| != 0 {
      RunOnCourse(adapters, s, events[..|events| - 1], id, p);
      StepOnCourse(adapters, Run(adapters, s, events[..|events| - 1]), events[|events| - 1], id, p);
    }
  }

  function Rotating(unseen: string): Answer { Granted("", Some(unseen), None) }

  lemma TwoEvents(adapters: set<Platform>, s: State, v: Event, w: Event)
    ensures Run(adapters, s, [v]) == Next(adapters, s, v)
    ensures Run(adapters, s, [v, w]) == Next(adapters, Next(adapters, s, v), w)
  {
    assert [v, w][..1] == [v] && [v][..0] == [];
  }

  /** A refresh under way lands; a provider that honours `unseen` goes on doing so. */
  lemma Land(adapters: set<Platform>, s: State, q: nat, id: AccountId, unseen: string) returns (events: seq<Event>)
    requires q < |s.flights| && For(s.flights[q], id) && id in s.accounts && id in s.honoured
    requires s.honoured[id] == RefreshToken(unseen)
    ensures Undisturbed(events, id)
    ensures var n := Run(adapters, s, events);
            n.flights == s.flights[q := Over] && id in n.accounts && id in n.honoured
                && n.honoured[id] == RefreshToken(unseen)
  {
    if s.flights[q].Reading? {
      TwoEvents(adapters, s, Call(q, Rotating(unseen)), Write(q, 0));
      events := [Call(q, Rotating(unseen)), Write(q, 0)];
    } else {
      TwoEvents(adapters, s, Write(q, 0), Write(q, 0));
      events := [Write(q, 0)];
    }
  }

  /** All refreshes of the account but one land. */
  lemma {:induction false} LandOthers(adapters: set<Platform>, s: State, k: nat, f: nat, id: AccountId, unseen: string)
    returns (events: seq<Event>)
    requires k <= |s.flights| && f < |s.flights| && id in s.accounts && id in s.honoured
    requires s.honoured[id] == RefreshToken(unseen)
    ensures Undisturbed(events, id)
    ensures var n := Run(adapters, s, events);
            && |n.flights| == |s.flights| && n.flights[f] == s.flights[f]
            && (forall q :: 0 <= q < k && q != f ==> !For(n.flights[q], id))
            && id in n.accounts && id in n.honoured && n.honoured[id] == RefreshToken(unseen)
  {
    events := [];
    if k != 0 {
      events := LandOthers(adapters, s, k - 1, f, id, unseen);
      var n := Run(adapters, s, events);
      if k - 1 != f && For(n.flights[k - 1], id) {
        var more := Land(adapters, n, k - 1, id, unseen);
        RunConcat(adapters, s, events, more);
        events := events + more;
      }
    }
  }

  /** The last refresh to land read the row, or was answered, before another rotated the token: it lands badly. */
  lemma LandLast(adapters: set<Platform>, s: State, f: nat, id: AccountId, unseen: string) returns (events: seq<Event>)
    requires f < |s.flights| && For(s.flights[f], id) && id in s.accounts && id in s.honoured
    requires forall q :: 0 <= q < |s.flights| && q != f ==> !For(s.flights[q], id)
    requires s.honoured[id] == RefreshToken(unseen)
    requires Stored(s.flights[f].seen) != RefreshToken(unseen)
    requires s.flights[f].Got? && s.flights[f].answer.Granted? ==>
               Rotated(Stored(s.flights[f].seen), s.flights[f].answer) != RefreshToken(unseen)
    ensures Undisturbed(events, id) && !LandsWell(Run(adapters, s, events), id)
  {
    if s.flights[f].Reading? {
      TwoEvents(adapters, s, Call(f, Rotating(unseen)), Write(f, 0));
      events := [Call(f, Rotating(unseen)), Write(f, 0)];
      assert Alone(Run(adapters, s, events), id);
    } else {
      TwoEvents(adapters, s, Write(f, 0), Write(f, 0));
      events := [Write(f, 0)];
      assert Alone(Run(adapters, s, events), id);
    }
  }

  /** A token no one has seen: longer than the two that matter. */
  function Unseen(f: Flight): (r: string)
    requires !f.Over?
    ensures |r| > |Stored(f.seen).value|
    ensures f.Got? && f.answer.Granted? ==> |r| > |Rotated(Stored(f.seen), f.answer).value|
  {
    Stored(f.seen).value
    + (if f.Got? && f.answer.Granted? then Rotated(Stored(f.seen), f.answer).value else "")
    + "x"
  }

  lemma OverlapLandsBadly(adapters: set<Platform>, s: State, id: AccountId, now: int, f: nat)
    returns (events: seq<Event>)
    requires Begins(s, adapters, id, now) && InStep(s, id) && f < |s.flights| && For(s.flights[f], id)
    ensures Undisturbed(events, id) && !LandsWell(Run(adapters, Next(adapters, s, Begin(id, now)), events), id)
  {
    var n, p, unseen := Next(adapters, s, Begin(id, now)), |s.flights|, Unseen(s.flights[f]);
    var first := [Call(p, Rotating(unseen)), Write(p, 0)];
    TwoEvents(adapters, n, first[0], first[1]);
    var a := Run(adapters, n, first);
    assert a.flights[f] == s.flights[f] && a.honoured[id] == RefreshToken(unseen);
    var second := LandOthers(adapters, a, |a.flights|, f, id, unseen);
    var b := Run(adapters, a, second);
    assert |unseen| > |Stored(b.flights[f].seen).value|;
    var third := LandLast(adapters, b, f, id, unseen);
    RunConcat(adapters, n, first, second);
    RunConcat(adapters, n, first + second, third);
    events := first + second + third;
  }

  /**
   * A refresh of an account that holds the honoured token ends, in every continuation without further
   * disturbance and with providers that grant what they honour, with the account connected and the honoured
   * token stored, exactly if no other refresh of it is under way when it reads the row.
   */
  lemma RefreshSafeIffAlone(adapters: set<Platform>, s: State, id: AccountId, now: int)
    requires Begins(s, adapters, id, now) && InStep(s, id)
    ensures Alone(s, id) <==>
            forall events :: Undisturbed(events, id) ==>
              LandsWell(Run(adapters, Next(adapters, s, Begin(id, now)), events), id)
  {
    var n := Next(adapters, s, Begin(id, now));
    if f :| 0 <= f < |s.flights| && For(s.flights[f], id) {
      var events := OverlapLandsBadly(adapters, s, id, now, f);
      assert Undisturbed(events, id) && !LandsWell(Run(adapters, n, events), id);
    } else {
      forall events | Undisturbed(events, id) ensures LandsWell(Run(adapters, n, events), id) {
        RunOnCourse(adapters, n, events, id, |s.flights|);
      }
    }
  }
}
