/** Platform webhooks: nested changes applied one by one, against what the set of changes means. */
module Webhooks {
  import opened Options
  import opened PublishJobs

  /** A value in a change: only non-empty strings are ever read. */
  datatype Json = Text(text: string) | NotText

  datatype Change = Change(field: Option<string>, value: Option<map<string, Json>>)

  datatype Delivery = Delivery(id: Option<string>, changes: Option<seq<Change>>)

  datatype Payload = Payload(entries: Option<seq<Delivery>>)

  datatype AccountStatus = Connected | Expired | Revoked

  datatype Account = Account(platform: Platform, externalUserId: Option<string>, status: AccountStatus)

  type Accounts = map<string, Account>
  type Jobs = map<JobId, Row>

  /** What a change asks for. */
  datatype Action = RemovePost(postId: string) | RevokeUser(userId: string) | Nothing

  // ---- Reading a change ----

  /** `asString(value[key])` */
  function Field(value: map<string, Json>, key: string): Option<string>
  {
    if key in value && value[key].Text? && value[key].text != "" then Some(value[key].text) else None
  }

  function Or(a: Option<string>, b: Option<string>): Option<string> { if a.Some? then a else b }

  const POST_REMOVAL_FIELDS := {"feed", "mentions", "media"}
  const POST_REMOVAL_VERBS := {"remove", "delete", "hide", "unpublish"}

  /** The action of a change: a removal needs a post id, a revocation the account's user id. */
  function Decode(entryId: Option<string>, c: Change): Action
  {
    var field := if c.field.Some? then c.field.value else "";
    var value := if c.value.Some? then c.value.value else map[];
    var verb := Or(Field(value, "verb"), Field(value, "action"));
    var postId := Or(Field(value, "post_id"), Or(Field(value, "media_id"), Field(value, "id")));
    var status := Field(value, "status");
    if field in POST_REMOVAL_FIELDS && verb.Some? && verb.value in POST_REMOVAL_VERBS && postId.Some? then
      RemovePost(postId.value)
    else if field == "permissions" && entryId.Some? && entryId.value != ""
            && (verb == Some("revoke") || status == Some("removed") || status == Some("unsubscribed")) then
      RevokeUser(entryId.value)
    else Nothing
  }

  /** The string under a key, if there is one and it is not empty. */
  ghost predicate Says(c: Change, key: string, text: string)
  {
    c.value.Some? && key in c.value.value && c.value.value[key] == Text(text) && text != ""
  }

  ghost predicate Silent(c: Change, key: string) { forall text :: !Says(c, key, text) }

  /** `key` says `text`, or says nothing and `other` does. */
  ghost predicate SaysFirst(c: Change, key: string, other: string, text: string)
  {
    Says(c, key, text) || (Silent(c, key) && Says(c, other, text))
  }

  lemma FieldSays(c: Change, key: string, text: string)
    ensures var value := if c.value.Some? then c.value.value else map[];
            && (Field(value, key) == Some(text) <==> Says(c, key, text))
            && (Field(value, key).None? <==> Silent(c, key))
  {
    var value := if c.value.Some? then c.value.value else map[];
    if Field(value, key).Some? {
      assert Says(c, key, Field(value, key).value);
    }
  }

  /** Which changes remove a post, in the words of the platform's webhook. */
  lemma RemovesPost(entryId: Option<string>, c: Change, postId: string)
    ensures Decode(entryId, c) == RemovePost(postId) <==>
              && (c.field == Some("feed") || c.field == Some("mentions") || c.field == Some("media"))
              && (|| SaysFirst(c, "verb", "action", "remove") || SaysFirst(c, "verb", "action", "delete")
                  || SaysFirst(c, "verb", "action", "hide") || SaysFirst(c, "verb", "action", "unpublish"))
              && (Says(c, "post_id", postId)
                  || (Silent(c, "post_id") && SaysFirst(c, "media_id", "id", postId)))
  {
    forall key: string, text: string
      ensures var value := if c.value.Some? then c.value.value else map[];
              && (Field(value, key) == Some(text) <==> Says(c, key, text))
              && (Field(value, key).None? <==> Silent(c, key))
    {
      FieldSays(c, key, text);
    }
  }

  /** Which changes revoke the accounts of a user. */
  lemma RevokesUser(entryId: Option<string>, c: Change, userId: string)
    ensures Decode(entryId, c) == RevokeUser(userId) <==>
              && c.field == Some("permissions") && entryId == Some(userId) && userId != ""
              && (SaysFirst(c, "verb", "action", "revoke")
                  || Says(c, "status", "removed") || Says(c, "status", "unsubscribed"))
  {
    forall key: string, text: string
      ensures var value := if c.value.Some? then c.value.value else map[];
              && (Field(value, key) == Some(text) <==> Says(c, key, text))
              && (Field(value, key).None? <==> Silent(c, key))
    {
      FieldSays(c, key, text);
    }
  }

  function Items<T>(list: Option<seq<T>>): seq<T> { if list.Some? then list.value else [] }

  function Decoded(d: Delivery, n: nat): seq<Action>
    requires n <= |Items(d.changes)|
  {
    if n == 0 then [] else Decoded(d, n - 1) + [Decode(d.id, Items(d.changes)[n - 1])]
  }

  /** All actions of one entry. */
  function AllDecoded(d: Delivery): seq<Action> { Decoded(d, |Items(d.changes)|) }

  function Flattened(deliveries: seq<Delivery>, n: nat): seq<Action>
    requires n <= |deliveries|
  {
    if n == 0 then [] else Flattened(deliveries, n - 1) + AllDecoded(deliveries[n - 1])
  }

  /** Every action of the payload, in order. */
  function Actions(p: Payload): seq<Action> { Flattened(Items(p.entries), |Items(p.entries)|) }

  lemma {:induction false} DecodedAt(d: Delivery, n: nat, k: nat)
    requires k < n <= |Items(d.changes)|
    ensures |Decoded(d, n)| == n && Decoded(d, n)[k] == Decode(d.id, Items(d.changes)[k])
  {
    if n > 1 {
      DecodedAt(d, n - 1, if k < n - 1 then k else 0);
    }
  }

  lemma {:induction false} FlattenedHas(deliveries: seq<Delivery>, n: nat, i: nat, a: Action)
    requires i < n <= |deliveries| && a in AllDecoded(deliveries[i])
    ensures a in Flattened(deliveries, n)
  {
    assert Flattened(deliveries, n) == Flattened(deliveries, n - 1) + AllDecoded(deliveries[n - 1]);
    if i < n - 1 {
      FlattenedHas(deliveries, n - 1, i, a);
    }
  }

  lemma {:induction false} FlattenedFrom(deliveries: seq<Delivery>, n: nat, a: Action) returns (i: nat)
    requires n <= |deliveries| && a in Flattened(deliveries, n)
    ensures i < n && a in AllDecoded(deliveries[i])
  {
    assert Flattened(deliveries, n) == Flattened(deliveries, n - 1) + AllDecoded(deliveries[n - 1]);
    if a in AllDecoded(deliveries[n - 1]) {
      i := n - 1;
    } else {
      i := FlattenedFrom(deliveries, n - 1, a);
    }
  }

  /** Change `k` of an entry, read with the entry's id. */
  ghost predicate IsChange(d: Delivery, k: nat, a: Action)
  {
    d.changes.Some? && k < |d.changes.value| && Decode(d.id, d.changes.value[k]) == a
  }

  lemma ActionOf(p: Payload, i: nat, k: nat, a: Action)
    requires p.entries.Some? && i < |p.entries.value| && IsChange(p.entries.value[i], k, a)
    ensures a in Actions(p)
  {
    var d := p.entries.value[i];
    DecodedAt(d, |Items(d.changes)|, k);
    assert a == AllDecoded(d)[k];
    FlattenedHas(p.entries.value, |p.entries.value|, i, a);
  }

  lemma ActionFrom(p: Payload, a: Action) returns (i: nat, k: nat)
    requires a in Actions(p)
    ensures p.entries.Some? && i < |p.entries.value| && IsChange(p.entries.value[i], k, a)
  {
    i := FlattenedFrom(Items(p.entries), |Items(p.entries)|, a);
    var d := Items(p.entries)[i];
    k :| 0 <= k < |AllDecoded(d)| && AllDecoded(d)[k] == a;
    if |Items(d.changes)| > 0 {
      DecodedAt(d, |Items(d.changes)|, 0);
      DecodedAt(d, |Items(d.changes)|, k);
    }
  }

  /** Every change of every entry is an action of the payload, read with the id of its own entry; and none else. */
  lemma ActionsMean(p: Payload, a: Action)
    ensures a in Actions(p) <==>
              p.entries.Some? && exists i, k :: 0 <= i < |p.entries.value| && IsChange(p.entries.value[i], k, a)
  {
    if a in Actions(p) {
      var i, k := ActionFrom(p, a);
    } else if p.entries.Some? {
      forall i: nat, k: nat | i < |p.entries.value| ensures !IsChange(p.entries.value[i], k, a) {
        if IsChange(p.entries.value[i], k, a) {
          ActionOf(p, i, k, a);
        }
      }
    }
  }

  // ---- What a set of actions means ----

  function RowAfter(row: Row, platform: Platform, actions: set<Action>): Row
  {
    if row.status == Published && row.platform == platform && row.externalPostId.Some?
       && RemovePost(row.externalPostId.value) in actions
    then Removed(row) else row
  }

  predicate Revocable(a: Account, platform: Platform, userId: string)
  {
    a.platform == platform && a.externalUserId == Some(userId) && a.status != Revoked
  }

  function AccountAfter(a: Account, platform: Platform, actions: set<Action>): Account
  {
    if a.platform == platform && a.externalUserId.Some? && RevokeUser(a.externalUserId.value) in actions
    then a.(status := Revoked) else a
  }

  /** A job fails iff a removal names its post; an account is revoked iff a revocation names its user. */
  function JobsAfter(jobs: Jobs, platform: Platform, actions: set<Action>): Jobs
  {
    map j | j in jobs :: RowAfter(jobs[j], platform, actions)
  }

  function AccountsAfter(accounts: Accounts, platform: Platform, actions: set<Action>): Accounts
  {
    map k | k in accounts :: AccountAfter(accounts[k], platform, actions)
  }

  /** In the rows' own terms: which fail and which are revoked, and that nothing else changes. */
  lemma AfterMeans(jobs: Jobs, accounts: Accounts, platform: Platform, actions: set<Action>)
    ensures JobsAfter(jobs, platform, actions).Keys == jobs.Keys
    ensures forall j :: j in jobs ==>
              var row := jobs[j];
              JobsAfter(jobs, platform, actions)[j]
              == if row.status == Published && row.platform == platform && row.externalPostId.Some?
                    && RemovePost(row.externalPostId.value) in actions
                 then row.(status := Failed, lastError := Some(RemovedOn(platform))) else row
    ensures AccountsAfter(accounts, platform, actions).Keys == accounts.Keys
    ensures forall k :: k in accounts ==>
              var a := accounts[k];
              AccountsAfter(accounts, platform, actions)[k]
              == if a.platform == platform && a.externalUserId.Some? && RevokeUser(a.externalUserId.value) in actions
                 then a.(status := Revoked) else a
  {
  }

  /** Some row would change. */
  ghost predicate Effective(jobs: Jobs, accounts: Accounts, platform: Platform, a: Action)
  {
    match a
    case RemovePost(id) => exists j :: j in jobs && Removable(jobs[j], platform, id)
    case RevokeUser(user) => exists k :: k in accounts && Revocable(accounts[k], platform, user)
    case Nothing => false
  }

  ghost function Effects(jobs: Jobs, accounts: Accounts, platform: Platform, actions: set<Action>): set<Action>
  {
    set a | a in actions && Effective(jobs, accounts, platform, a)
  }

  function SetOf(actions: seq<Action>): set<Action> { set a | a in actions }

  // ---- One action after others ----

  lemma NothingAfter(jobs: Jobs, accounts: Accounts, platform: Platform, a: Action)
    ensures !a.RemovePost? ==> JobsAfter(jobs, platform, {a}) == jobs
    ensures !a.RevokeUser? ==> AccountsAfter(accounts, platform, {a}) == accounts
  {
  }

  lemma JobsOneMore(jobs: Jobs, platform: Platform, actions: set<Action>, a: Action)
    ensures JobsAfter(JobsAfter(jobs, platform, actions), platform, {a}) == JobsAfter(jobs, platform, actions + {a})
  {
  }

  lemma AccountsOneMore(accounts: Accounts, platform: Platform, actions: set<Action>, a: Action)
    ensures AccountsAfter(AccountsAfter(accounts, platform, actions), platform, {a})
            == AccountsAfter(accounts, platform, actions + {a})
  {
  }

  /** An action has an effect after others exactly if it had one before and is not among them. */
  lemma EffectiveAfter(jobs: Jobs, accounts: Accounts, platform: Platform, actions: set<Action>, a: Action)
    ensures Effective(JobsAfter(jobs, platform, actions), AccountsAfter(accounts, platform, actions), platform, a)
            <==> Effective(jobs, accounts, platform, a) && a !in actions
  {
    var after, accountsAfter := JobsAfter(jobs, platform, actions), AccountsAfter(accounts, platform, actions);
    match a
    case RemovePost(id) =>
      forall j | j in jobs ensures Removable(after[j], platform, id) <==>
          Removable(jobs[j], platform, id) && a !in actions {
      }
    case RevokeUser(user) =>
      forall k | k in accounts
        ensures Revocable(accountsAfter[k], platform, user) <==>
            Revocable(accounts[k], platform, user) && a !in actions {
      }
    case Nothing =>
  }

  lemma CountOneMore(jobs: Jobs, accounts: Accounts, platform: Platform, actions: set<Action>, a: Action)
    ensures |Effects(jobs, accounts, platform, actions + {a})| == |Effects(jobs, accounts, platform, actions)|
              + (if Effective(jobs, accounts, platform, a) && a !in actions then 1 else 0)
  {
    var before, after := Effects(jobs, accounts, platform, actions), Effects(jobs, accounts, platform, actions + {a});
    if Effective(jobs, accounts, platform, a) && a !in actions {
      assert after == before + {a};
    } else {
      assert after == before;
    }
  }

  /** After a delivery, any delivery of the same or fewer actions changes nothing and handles nothing. */
  lemma SecondDeliveryDoesNothing(jobs: Jobs, accounts: Accounts, platform: Platform, actions: set<Action>,
                                  again: set<Action>)
    requires again <= actions
    ensures var after, accountsAfter := JobsAfter(jobs, platform, actions), AccountsAfter(accounts, platform, actions);
            && JobsAfter(after, platform, again) == after
            && AccountsAfter(accountsAfter, platform, again) == accountsAfter
            && Effects(after, accountsAfter, platform, again) == {}
  {
    forall a | a in again ensures !Effective(JobsAfter(jobs, platform, actions),
        AccountsAfter(accounts, platform, actions), platform, a) {
      EffectiveAfter(jobs, accounts, platform, actions, a);
    }
  }

  lemma BothDeliveries(jobs: Jobs, accounts: Accounts, platform: Platform, xs: set<Action>, ys: set<Action>)
    ensures JobsAfter(JobsAfter(jobs, platform, xs), platform, ys) == JobsAfter(jobs, platform, xs + ys)
    ensures AccountsAfter(AccountsAfter(accounts, platform, xs), platform, ys)
        == AccountsAfter(accounts, platform, xs + ys)
  {
  }

  lemma BothEffects(first: set<Action>, second: set<Action>, all: set<Action>)
    requires forall a :: a in all <==> a in first || a in second
    requires forall a :: a in first ==> a !in second
    ensures |all| == |first| + |second|
  {
    assert all == first + second;
    assert first * second == {};
  }

  /** Two deliveries one after the other, in either order, are one delivery of all their actions. */
  lemma DeliveriesCommute(jobs: Jobs, accounts: Accounts, platform: Platform, xs: set<Action>, ys: set<Action>)
    ensures JobsAfter(JobsAfter(jobs, platform, xs), platform, ys) == JobsAfter(jobs, platform, xs + ys)
    ensures AccountsAfter(AccountsAfter(accounts, platform, xs), platform, ys)
        == AccountsAfter(accounts, platform, xs + ys)
    ensures |Effects(jobs, accounts, platform, xs)|
              + |Effects(JobsAfter(jobs, platform, xs), AccountsAfter(accounts, platform, xs), platform, ys)|
            == |Effects(jobs, accounts, platform, xs + ys)|
  {
    BothDeliveries(jobs, accounts, platform, xs, ys);
    var later, laterAccounts := JobsAfter(jobs, platform, xs), AccountsAfter(accounts, platform, xs);
    forall a ensures a in Effects(later, laterAccounts, platform, ys)
                     <==> a in ys && Effective(jobs, accounts, platform, a) && a !in xs
    {
      EffectiveAfter(jobs, accounts, platform, xs, a);
    }
    BothEffects(Effects(jobs, accounts, platform, xs), Effects(later, laterAccounts, platform, ys),
                Effects(jobs, accounts, platform, xs + ys));
  }

  // ---- The service ----

  lemma SetOfSnoc(actions: seq<Action>, a: Action)
    ensures SetOf(actions + [a]) == SetOf(actions) + {a}
  {
  }

  /** The state after handling `done` since `(jobs, accounts)`. */
  ghost predicate Handled(jobs: Jobs, accounts: Accounts, platform: Platform, done: seq<Action>,
                          jobs': Jobs, accounts': Accounts, handled: nat)
  {
    && jobs' == JobsAfter(jobs, platform, SetOf(done))
    && accounts' == AccountsAfter(accounts, platform, SetOf(done))
    && handled == |Effects(jobs, accounts, platform, SetOf(done))|
  }

  lemma HandledNone(jobs: Jobs, accounts: Accounts, platform: Platform)
    ensures Handled(jobs, accounts, platform, [], jobs, accounts, 0)
  {
    assert SetOf([]) == {};
    assert JobsAfter(jobs, platform, {}) == jobs && AccountsAfter(accounts, platform, {}) == accounts;
    assert Effects(jobs, accounts, platform, {}) == {};
  }

  lemma HandledOneMore(jobs: Jobs, accounts: Accounts, platform: Platform, done: seq<Action>,
                       jobs': Jobs, accounts': Accounts, handled: nat, a: Action)
    requires Handled(jobs, accounts, platform, done, jobs', accounts', handled)
    ensures Handled(jobs, accounts, platform, done + [a], JobsAfter(jobs', platform, {a}),
        AccountsAfter(accounts', platform, {a}),
                    handled + if Effective(jobs', accounts', platform, a) then 1 else 0)
  {
    SetOfSnoc(done, a);
    JobsOneMore(jobs, platform, SetOf(done), a);
    AccountsOneMore(accounts, platform, SetOf(done), a);
    EffectiveAfter(jobs, accounts, platform, SetOf(done), a);
    CountOneMore(jobs, accounts, platform, SetOf(done), a);
  }

  /** What the update of one change finds. */
  datatype Seen = Seen(jobs: Jobs, accounts: Accounts)

  /** How many of the changes had something to act on when their update ran. */
  ghost function Acted(platform: Platform, actions: seq<Action>, found: seq<Seen>): nat
    requires |found| == |actions|
  {
    if |actions| == 0 then 0
    else
      var n := |actions| - 1;
      Acted(platform, actions[..n], found[..n])
      + if Effective(found[n].jobs, found[n].accounts, platform, actions[n]) then 1 else 0
  }

  /** Every change acted, on the state it found; this is the state after the last one. */
  ghost predicate OneByOne(platform: Platform, actions: seq<Action>, found: seq<Seen>, before: Seen, after: Seen,
                           handled: nat)
  {
    && |found| == |actions|
    && handled == Acted(platform, actions, found)
    && if |actions| == 0 then after == before
       else
         var last, a := found[|found| - 1], actions[|actions| - 1];
         after == Seen(JobsAfter(last.jobs, platform, {a}), AccountsAfter(last.accounts, platform, {a}))
  }

  lemma OneMore(platform: Platform, actions: seq<Action>, found: seq<Seen>, before: Seen, after: Seen, handled: nat,
                at: Seen, a: Action)
    requires OneByOne(platform, actions, found, before, after, handled)
    ensures OneByOne(platform, actions + [a], found + [at], before,
                     Seen(JobsAfter(at.jobs, platform, {a}), AccountsAfter(at.accounts, platform, {a})),
                     handled + if Effective(at.jobs, at.accounts, platform, a) then 1 else 0)
  {
    assert (actions + [a])[..|actions|] == actions && (found + [at])[..|found|] == found;
  }

  class WebhooksService {
    var jobs: Jobs
    var accounts: Accounts

    ghost function Now(): Seen
      reads this
    {
      Seen(jobs, accounts)
    }

    /** Other requests run while this one awaits; nothing is assumed of them. */
    method Await(ghost quiet: bool)
      modifies this
      ensures quiet ==> Now() == old(Now())
    {
    }

    /** Only a job that still reads published fails. */
    method MarkPostRemoved(platform: Platform, postId: string) returns (changed: bool)
      modifies this`jobs
      ensures jobs == JobsAfter(old(jobs), platform, {RemovePost(postId)})
      ensures changed == Effective(old(jobs), accounts, platform, RemovePost(postId))
      ensures jobs.Keys == old(jobs).Keys
      ensures forall j :: j in old(jobs) ==>
                var row := old(jobs)[j];
                jobs[j] == if row.status == Published && row.platform == platform && row.externalPostId == Some(postId)
                           then row.(status := Failed, lastError := Some(RemovedOn(platform))) else row
      ensures changed <==> exists j :: j in old(jobs) && jobs[j] != old(jobs)[j]
    {
      changed := exists j :: j in jobs && Removable(jobs[j], platform, postId);
      jobs := map j | j in jobs :: if Removable(jobs[j], platform, postId) then Removed(jobs[j]) else jobs[j];
    }

    method MarkAccountRevoked(platform: Platform, userId: string) returns (changed: bool)
      modifies this`accounts
      ensures accounts == AccountsAfter(old(accounts), platform, {RevokeUser(userId)})
      ensures changed == Effective(jobs, old(accounts), platform, RevokeUser(userId))
      ensures accounts.Keys == old(accounts).Keys
      ensures forall k :: k in old(accounts) ==>
                var a := old(accounts)[k];
                accounts[k] == if a.platform == platform && a.externalUserId == Some(userId)
                               then a.(status := Revoked) else a
      ensures changed <==> exists k :: k in old(accounts) && accounts[k] != old(accounts)[k]
    {
      changed := exists k :: k in accounts && Revocable(accounts[k], platform, userId);
      accounts := map k | k in accounts ::
        if Revocable(accounts[k], platform, userId) then accounts[k].(status := Revoked) else accounts[k];
    }

    method HandleChange(platform: Platform, entryId: Option<string>, change: Change) returns (acted: bool)
      modifies this
      ensures var a := Decode(entryId, change);
              && jobs == JobsAfter(old(jobs), platform, {a})
              && accounts == AccountsAfter(old(accounts), platform, {a})
              && acted == Effective(old(jobs), old(accounts), platform, a)
    {
      var field := if change.field.Some? then change.field.value else "";
      var value := if change.value.Some? then change.value.value else map[];
      var verb := Or(Field(value, "verb"), Field(value, "action"));
      NothingAfter(jobs, accounts, platform, Decode(entryId, change));
      if field in POST_REMOVAL_FIELDS && verb.Some? && verb.value in POST_REMOVAL_VERBS {
        var postId := Or(Field(value, "post_id"), Or(Field(value, "media_id"), Field(value, "id")));
        if postId.Some? {
          acted := MarkPostRemoved(platform, postId.value);
          return;
        }
      }
      if field == "permissions" {
        var status := Field(value, "status");
        var revoked := verb == Some("revoke") || status == Some("removed") || status == Some("unsubscribed");
        if revoked && entryId.Some? && entryId.value != "" {
          acted := MarkAccountRevoked(platform, entryId.value);
          return;
        }
      }
      acted := false;
    }

    /**
     * Change by change, each acts on what its update finds, `found`, and `handled` counts those that had
     * something to act on. Undisturbed, whatever the nesting, order and repetitions of the changes, the outcome
     * is that of their set, and `handled` is the number of distinct ones with an effect.
     */
    method HandleMetaEvent(platform: Platform, payload: Payload, ghost quiet: bool)
      returns (handled: nat, ghost found: seq<Seen>)
      modifies this
      ensures OneByOne(platform, Actions(payload), found, old(Now()), Now(), handled)
      ensures quiet ==>
                var actions := SetOf(Actions(payload));
                && jobs == JobsAfter(old(jobs), platform, actions)
                && accounts == AccountsAfter(old(accounts), platform, actions)
                && handled == |Effects(old(jobs), old(accounts), platform, actions)|
    {
      ghost var done: seq<Action> := [];
      var deliveries := Items(payload.entries);
      handled, found := 0, [];
      HandledNone(jobs, accounts, platform);
      for i := 0 to |deliveries|
        invariant done == Flattened(deliveries, i)
        invariant OneByOne(platform, done, found, old(Now()), Now(), handled)
        invariant quiet ==> Handled(old(jobs), old(accounts), platform, done, jobs, accounts, handled)
      {
        var changes := Items(deliveries[i].changes);
        for k := 0 to |changes|
          invariant done == Flattened(deliveries, i) + Decoded(deliveries[i], k)
          invariant OneByOne(platform, done, found, old(Now()), Now(), handled)
          invariant quiet ==> Handled(old(jobs), old(accounts), platform, done, jobs, accounts, handled)
        {
          ghost var a := Decode(deliveries[i].id, changes[k]);
          ghost var before := Now();
          Await(quiet);
          OneMore(platform, done, found, old(Now()), before, handled, Now(), a);
          if quiet {
            HandledOneMore(old(jobs), old(accounts), platform, done, jobs, accounts, handled, a);
          }
          found := found + [Now()];
          var acted := HandleChange(platform, deliveries[i].id, changes[k]);
          if acted {
            handled := handled + 1;
          }
          done := done + [a];
        }
      }
    }
  }
}
