/** What the publishing service's requests check, and what its dispatch loop and its workers come to. */
module PublishRules {
  import opened Options
  import opened Sequences
  import opened PublishJobs
  import opened PublishProtocol
  import opened PublishWorker

  /** A rendered design with what its asset and organization say about approval. */
  datatype Variant = Variant(
    orgId: string, platform: Platform, ready: bool, approved: bool, approvalRequired: bool,
    media: Option<string>, caption: Caption)

  datatype Carousel = Carousel(mediaUrls: seq<string>, caption: Caption)

  datatype Account = Account(orgId: string, platform: Platform, connected: bool, externalId: string)

  /** What `queue.add` is given, and on which platform's queue. */
  datatype Order = Order(queue: Platform, job: JobId, caption: Caption)

  datatype AdapterCall =
    | PublishOne(platform: Platform, imageUrl: string, caption: string, account: string)
    | PublishAlbum(platform: Platform, mediaUrls: seq<string>, caption: string, account: string)

  datatype Refusal =
    | VariantNotFound | NotApproved | AccountNotFound | NotReady | NoImage | NotConnected | WrongPlatform
    | Unsupported | NoItems | TooManyItems | NotInFuture
    | JobNotFound | AlreadyPublished | NoSuchQueue | NotScheduled | JustStarted

  /** JavaScript truth of an optional string. */
  predicate Present(s: Option<string>) { s.Some? && s.value != "" }

  /** `a ?? b ?? ''` */
  function Chosen(asked: Caption, stored: Caption): string
  {
    match asked
    case Some(text) => text
    case None => if stored.Some? then stored.value else ""
  }

  // ---- What a request must meet ----

  /** The checks of `loadAndValidate`, in order. */
  function VariantRefusal(org: string, variant: Option<Variant>, account: Option<Account>): (r: Option<Refusal>)
    ensures r.None? <==>
              && variant.Some? && account.Some? && variant.value.orgId == account.value.orgId == org
              && (variant.value.approvalRequired ==> variant.value.approved)
              && variant.value.ready && Present(variant.value.media)
              && account.value.connected && account.value.platform == variant.value.platform
    // each check in its turn
    ensures r == Some(VariantNotFound) <==> variant.None? || variant.value.orgId != org
    ensures r == Some(NotApproved) <==>
              variant.Some? && variant.value.orgId == org && variant.value.approvalRequired && !variant.value.approved
    ensures r == Some(AccountNotFound) <==>
              && variant.Some? && variant.value.orgId == org
              && (variant.value.approvalRequired ==> variant.value.approved)
              && (account.None? || account.value.orgId != org)
    ensures r == Some(NotReady) ==> !variant.value.ready
    ensures r == Some(NoImage) ==> variant.value.ready && !Present(variant.value.media)
    ensures r == Some(NotConnected) ==>
              variant.value.ready && Present(variant.value.media) && !account.value.connected
    ensures r == Some(WrongPlatform) ==> account.value.connected && account.value.platform != variant.value.platform
    ensures r.Some? ==>
              r.value in {VariantNotFound, NotApproved, AccountNotFound, NotReady, NoImage, NotConnected, WrongPlatform}
  {
    if variant.None? || variant.value.orgId != org then Some(VariantNotFound)
    else if variant.value.approvalRequired && !variant.value.approved then Some(NotApproved)
    else if account.None? || account.value.orgId != org then Some(AccountNotFound)
    else if !variant.value.ready then Some(NotReady)
    else if !Present(variant.value.media) then Some(NoImage)
    else if !account.value.connected then Some(NotConnected)
    else if account.value.platform != variant.value.platform then Some(WrongPlatform)
    else None
  }

  /** The checks of `loadAndValidateCarousel`, in order; `limit` is 0 where the platform takes no carousels. */
  function CarouselRefusal(org: string, account: Option<Account>, queues: set<Platform>, limits: map<Platform, nat>,
                           items: nat)
    : (r: Option<Refusal>)
    ensures r.None? <==>
              && account.Some? && account.value.orgId == org && account.value.connected
              && account.value.platform in queues && account.value.platform in limits
              && 1 <= items <= limits[account.value.platform]
    ensures r == Some(AccountNotFound) <==> account.None? || account.value.orgId != org
    ensures r == Some(NotConnected) <==> account.Some? && account.value.orgId == org && !account.value.connected
    ensures r == Some(NoItems) ==> items == 0
    ensures r == Some(TooManyItems) ==>
              account.Some? && account.value.platform in limits && items > limits[account.value.platform] > 0
    ensures r.Some? ==> r.value in {AccountNotFound, NotConnected, Unsupported, NoItems, TooManyItems}
  {
    if account.None? || account.value.orgId != org then Some(AccountNotFound)
    else if !account.value.connected then Some(NotConnected)
    else
      var platform := account.value.platform;
      if platform !in limits || platform !in queues || limits[platform] == 0 then Some(Unsupported)
      else if items < 1 then Some(NoItems)
      else if items > limits[platform] then Some(TooManyItems)
      else None
  }

  // ---- What an attempt finds ----

  function Lookup<T>(table: map<string, T>, id: string): Option<T> { if id in table then Some(table[id]) else None }

  /** The call for a carousel: a single image is an ordinary post, since platforms take no album of one. */
  function AlbumCall(carousel: Carousel, account: Account, asked: Caption): AdapterCall
    requires |carousel.mediaUrls| >= 1
  {
    var caption := Chosen(asked, carousel.caption);
    if |carousel.mediaUrls| == 1 then PublishOne(account.platform, carousel.mediaUrls[0], caption, account.externalId)
    else PublishAlbum(account.platform, carousel.mediaUrls, caption, account.externalId)
  }

  /** The adapter call an attempt would make, if nothing it needs is gone. */
  function Plan(row: Row, asked: Caption, variants: map<string, Variant>, carousels: map<string, Carousel>,
                accounts: map<string, Account>, limits: map<Platform, nat>): Option<AdapterCall>
  {
    if row.account !in accounts || accounts[row.account].platform !in limits then None
    else
      var account := accounts[row.account];
      match row.target
      case Untargeted => None
      case OfVariant(id) =>
        if id !in variants || !Present(variants[id].media) then None
        else Some(PublishOne(account.platform, variants[id].media.value, Chosen(asked, variants[id].caption),
            account.externalId))
      case OfCarousel(id) =>
        if id !in carousels || |carousels[id].mediaUrls| < 1 then None
        else Some(AlbumCall(carousels[id], account, asked))
  }

  /** The plan in the terms of what is stored: when there is one, and what goes out. */
  lemma PlanMeans(row: Row, asked: Caption, variants: map<string, Variant>, carousels: map<string, Carousel>,
                  accounts: map<string, Account>, limits: map<Platform, nat>)
    ensures var plan := Plan(row, asked, variants, carousels, accounts, limits);
            && (plan.Some? <==>
                && row.account in accounts && accounts[row.account].platform in limits
                && match row.target
                   case OfVariant(id) => id in variants && variants[id].media.Some? && variants[id].media.value != ""
                   case OfCarousel(id) => id in carousels && |carousels[id].mediaUrls| >= 1
                   case Untargeted => false)
            && (plan.Some? ==>
                var call := plan.value;
                && call.platform == accounts[row.account].platform && call.account == accounts[row.account].externalId
                && (asked.Some? ==> call.caption == asked.value)
                && match row.target
                   case OfVariant(id) =>
                     && call.PublishOne? && variants[id].media == Some(call.imageUrl)
                     && (asked.None? && variants[id].caption.Some? ==> call.caption == variants[id].caption.value)
                     && (asked.None? && variants[id].caption.None? ==> call.caption == "")
                   case OfCarousel(id) =>
                     && call.PublishOne? == (|carousels[id].mediaUrls| == 1)
                     && carousels[id].mediaUrls == (if call.PublishOne? then [call.imageUrl] else call.mediaUrls)
                     && (asked.None? && carousels[id].caption.Some? ==> call.caption == carousels[id].caption.value)
                     && (asked.None? && carousels[id].caption.None? ==> call.caption == "")
                   case Untargeted => false)
  {
  }

  /** The plan of a job for a design. */
  lemma VariantPlan(row: Row, asked: Caption, variants: map<string, Variant>, carousels: map<string, Carousel>,
                    accounts: map<string, Account>, limits: map<Platform, nat>)
    requires row.target.OfVariant?
    ensures var id := row.target.id;
            Plan(row, asked, variants, carousels, accounts, limits) ==
            if id !in variants || !Present(variants[id].media) || row.account !in accounts
               || accounts[row.account].platform !in limits
            then None
            else var caption := if asked.Some? then asked.value
                                else if variants[id].caption.Some? then variants[id].caption.value else "";
              Some(PublishOne(accounts[row.account].platform, variants[id].media.value, caption,
                              accounts[row.account].externalId))
  {
  }

  // ---- What a tick makes of the rows ----

  function DispatchedRow(row: Row, queues: set<Platform>): Row
  {
    if row.platform in queues then Claimed(row) else Unqueueable(Claimed(row))
  }

  function DispatchedRows(jobs: map<JobId, Row>, due: seq<JobId>, queues: set<Platform>): map<JobId, Row>
  {
    map j | j in jobs :: if j in due then DispatchedRow(jobs[j], queues) else jobs[j]
  }

  function OrderOf(jobs: map<JobId, Row>, j: JobId): Order
    requires j in jobs
  {
    Order(jobs[j].platform, j, jobs[j].caption)
  }

  /** The orders of the claimed jobs that have a queue. */
  function OrdersOf(jobs: map<JobId, Row>, due: seq<JobId>, queues: set<Platform>): multiset<Order>
    requires forall j :: j in due ==> j in jobs
  {
    if |due| == 0 then multiset{}
    else
      var j := due[|due| - 1];
      OrdersOf(jobs, due[..|due| - 1], queues) + OrdersIf(jobs[j].platform in queues, jobs, j)
  }

  /** Orders for jobs of the list, at most one each, on the queues of their platforms. */
  ghost predicate PlacedFor(jobs: map<JobId, Row>, due: seq<JobId>, queues: set<Platform>, mine: multiset<Order>)
  {
    forall o :: o in mine ==>
      mine[o] == 1 && o.job in due && o.job in jobs && o == OrderOf(jobs, o.job) && o.queue in queues
  }

  lemma PlaceOneMore(jobs: map<JobId, Row>, due: seq<JobId>, i: nat, queues: set<Platform>, mine: multiset<Order>)
    requires i < |due| && due[i] in jobs && due[i] !in due[..i] && jobs[due[i]].platform in queues
    requires PlacedFor(jobs, due[..i], queues, mine)
    ensures PlacedFor(jobs, due[..i + 1], queues, mine + OrdersIf(true, jobs, due[i]))
  {
    PrefixSnoc(due, i);
  }

  lemma PlacedForMore(jobs: map<JobId, Row>, due: seq<JobId>, i: nat, queues: set<Platform>, mine: multiset<Order>)
    requires i < |due| && PlacedFor(jobs, due[..i], queues, mine)
    ensures PlacedFor(jobs, due[..i + 1], queues, mine)
  {
    PrefixSnoc(due, i);
  }

  function OrdersIf(placed: bool, jobs: map<JobId, Row>, j: JobId): multiset<Order>
    requires j in jobs
  {
    if placed then multiset{OrderOf(jobs, j)} else multiset{}
  }

  /** None of the first `n` jobs of the list is scheduled. */
  ghost predicate AllLeft(jobs: map<JobId, Row>, due: seq<JobId>, n: nat)
  {
    forall k :: 0 <= k < n && k < |due| ==> Left(jobs, due[k])
  }

  lemma LeftMore(jobs: map<JobId, Row>, jobs': map<JobId, Row>, due: seq<JobId>, i: nat)
    requires i < |due| && Follows(jobs, jobs') && AllLeft(jobs, due, i) && Left(jobs', due[i])
    ensures AllLeft(jobs', due, i + 1)
  {
  }

  lemma DispatchOneMore(jobs: map<JobId, Row>, now: int, due: seq<JobId>, i: nat, queues: set<Platform>)
    requires i < |due| && IsSnapshot(jobs, now, due)
    ensures due[i] !in due[..i]
    ensures DispatchedRows(jobs, due[..i + 1], queues)
            == DispatchedRows(jobs, due[..i], queues)[due[i] := DispatchedRow(jobs[due[i]], queues)]
    ensures OrdersOf(jobs, due[..i + 1], queues)
            == OrdersOf(jobs, due[..i], queues) + OrdersIf(jobs[due[i]].platform in queues, jobs, due[i])
  {
    PrefixSnoc(due, i);
    assert due[..i + 1][..i] == due[..i];
  }

  /** How often a list of distinct jobs has an order placed: once, if its job is listed and served. */
  function CountOf(jobs: map<JobId, Row>, due: seq<JobId>, queues: set<Platform>, o: Order): nat
  {
    if o.job in due && o.job in jobs && jobs[o.job].platform in queues
       && o.queue == jobs[o.job].platform && o.caption == jobs[o.job].caption then 1 else 0
  }

  lemma {:induction false} OrdersCounted(jobs: map<JobId, Row>, due: seq<JobId>, queues: set<Platform>, o: Order)
    requires forall j :: j in due ==> j in jobs
    requires forall i, k :: 0 <= i < k < |due| ==> due[i] != due[k]
    ensures OrdersOf(jobs, due, queues)[o] == CountOf(jobs, due, queues, o)
  {
    if |due| != 0 {
      var front, last := due[..|due| - 1], due[|due| - 1];
      OrdersCounted(jobs, front, queues, o);
      assert due == front + [last] && last !in front;
    }
  }

  // ---- What requests that run concurrently may assume of each other ----

  /** What all requests share; `decisions` are the claims and withdrawals so far. */
  datatype Shared = Shared(jobs: map<JobId, Row>, orders: multiset<Order>, decisions: multiset<Decision>)

  /** The row invariant of the interleaved protocol: every scheduled job was claimed or withdrawn at most once. */
  ghost predicate Sound(s: Shared) { forall j :: RowOk(s.jobs, s.decisions, j) }

  /** What other requests, ticks and workers may do meanwhile. */
  ghost predicate Meanwhile(s: Shared, n: Shared)
  {
    Follows(s.jobs, n.jobs) && s.orders <= n.orders && s.decisions <= n.decisions && Sound(n)
  }

  lemma MeanwhileOn(a: Shared, b: Shared, c: Shared)
    requires Meanwhile(a, b) && Meanwhile(b, c)
    ensures Meanwhile(a, c)
  {
  }

  function Rewritten(s: Shared, j: JobId, row: Row): Shared { s.(jobs := s.jobs[j := row]) }

  function Decides(s: Shared, d: Decision, row: Row): Shared
  {
    s.(jobs := s.jobs[d.job := row], decisions := s.decisions + multiset{d})
  }

  function Ordered(s: Shared, o: Order): Shared { s.(orders := s.orders + multiset{o}) }

  /** A write that creates a row or leaves one that is not scheduled is sound. */
  lemma RewritingIsSound(s: Shared, j: JobId, row: Row)
    requires Sound(s) && LegalRow(s.jobs, j, row)
    ensures Meanwhile(s, Rewritten(s, j, row))
  {
    var n := Rewritten(s, j, row);
    forall k ensures RowOk(n.jobs, n.decisions, k) {
      assert RowOk(s.jobs, s.decisions, k);
    }
  }

  /** A claim or withdrawal is sound if the row it replaces is scheduled; this is what the guard is for. */
  lemma DecidingIsSound(s: Shared, d: Decision, row: Row)
    requires Sound(s) && (d.Claim? || d.Withdraw?)
    requires LegalRow(s.jobs, d.job, row) && LegalDecision(s.jobs, map[d.job := row], d)
    ensures Meanwhile(s, Decides(s, d, row))
    ensures Decides(s, d, row).decisions[d] == 1 && s.decisions[d] == 0
  {
    var n := Decides(s, d, row);
    forall k ensures RowOk(n.jobs, n.decisions, k) {
      assert RowOk(s.jobs, s.decisions, k);
    }
    assert RowOk(s.jobs, s.decisions, d.job);
  }

  lemma OrderingIsSound(s: Shared, o: Order)
    requires Sound(s)
    ensures Meanwhile(s, Ordered(s, o))
  {
  }

  // ---- The dispatch loop ----

  /** One round: after the claim, which needs a scheduled row, the order or the failure. */
  ghost predicate Round(s: Shared, n: Shared, queues: set<Platform>, j: JobId, quiet: bool, placed: bool)
    requires j in s.jobs
  {
    && Meanwhile(s, n) && Left(n.jobs, j)
    && (placed ==> s.jobs[j].platform in queues && s.decisions[Claim(j)] == 0 && n.decisions[Claim(j)] == 1)
    && s.orders + OrdersIf(placed, s.jobs, j) <= n.orders
    && (quiet && s.jobs[j].status != Scheduled ==> n.jobs == s.jobs && n.orders == s.orders && !placed)
    && (quiet && s.jobs[j].status == Scheduled ==>
          && placed == (s.jobs[j].platform in queues)
          && n.jobs == s.jobs[j := DispatchedRow(s.jobs[j], queues)]
          && n.orders == s.orders + OrdersIf(placed, s.jobs, j))
  }

  lemma MeanwhileThrough(a: Shared, b: Shared, c: Shared, d: Shared, e: Shared)
    requires Meanwhile(a, b) && Meanwhile(b, c) && Meanwhile(c, d) && Meanwhile(d, e)
    ensures Meanwhile(a, e) && Meanwhile(a, d)
  {
    MeanwhileOn(a, b, c);
    MeanwhileOn(a, c, d);
    MeanwhileOn(a, d, e);
  }

  lemma OrderSame(a: map<JobId, Row>, b: map<JobId, Row>, j: JobId)
    requires Follows(a, b) && j in a
    ensures j in b && b[j].platform == a[j].platform && OrderOf(b, j) == OrderOf(a, j)
  {
  }

  lemma QuietRound(s: Shared, n: Shared, queues: set<Platform>, j: JobId, placed: bool)
    requires j in s.jobs && placed == (s.jobs[j].platform in queues)
    requires var between := Decides(s, Claim(j), Claimed(s.jobs[j]));
             n == if placed then Ordered(between, OrderOf(between.jobs, j))
                  else Rewritten(between, j, Unqueueable(between.jobs[j]))
    ensures n.jobs == s.jobs[j := DispatchedRow(s.jobs[j], queues)]
    ensures n.orders == s.orders + OrdersIf(placed, s.jobs, j)
  {
  }

  /** A claim and what follows it are a round; `before` and `at` are what its two writes find. */
  lemma RoundDone(start: Shared, before: Shared, between: Shared, at: Shared, n: Shared, queues: set<Platform>,
                  j: JobId, quiet: bool, placed: bool)
    requires j in start.jobs && Meanwhile(start, before) && Meanwhile(before, between) && Meanwhile(between, at)
    requires Meanwhile(at, n) && j in before.jobs && j in at.jobs
    requires before.jobs[j].status == Scheduled && before.decisions[Claim(j)] == 0
    requires between == Decides(before, Claim(j), Claimed(before.jobs[j])) && Left(n.jobs, j)
    requires placed == (at.jobs[j].platform in queues)
    requires n == (if placed then Ordered(at, OrderOf(at.jobs, j)) else Rewritten(at, j, Unqueueable(at.jobs[j])))
    requires quiet ==> before == start && at == between
    ensures Round(start, n, queues, j, quiet, placed)
  {
    MeanwhileThrough(start, before, between, at, n);
    OrderSame(start.jobs, at.jobs, j);
    ClaimCounted(before, between, n, j);
    if quiet {
      QuietRound(start, n, queues, j, placed);
    }
  }

  lemma ClaimCounted(before: Shared, between: Shared, n: Shared, j: JobId)
    requires between.decisions == before.decisions + multiset{Claim(j)} && between.decisions <= n.decisions && Sound(n)
    ensures n.decisions[Claim(j)] == 1
  {
    assert RowOk(n.jobs, n.decisions, j);
  }

  /** Each order is for a job claimed since `s`, and claimed by nobody else. */
  ghost predicate ClaimedSince(s: Shared, n: Shared, mine: multiset<Order>)
  {
    forall o :: o in mine ==> s.decisions[Claim(o.job)] == 0 && n.decisions[Claim(o.job)] == 1
  }

  /** The loop after `i` rounds. */
  ghost predicate Progress(start: Shared, s: Shared, due: seq<JobId>, i: nat, queues: set<Platform>,
                           mine: multiset<Order>, quiet: bool)
  {
    && i <= |due|
    && (forall j :: j in due ==> j in start.jobs)
    && Meanwhile(start, s)
    && AllLeft(s.jobs, due, i)
    && start.orders + mine <= s.orders
    && PlacedFor(start.jobs, due[..i], queues, mine)
    && ClaimedSince(start, s, mine)
    && (quiet ==> s.jobs == DispatchedRows(start.jobs, due[..i], queues))
    && (quiet ==> s.orders == start.orders + OrdersOf(start.jobs, due[..i], queues))
  }

  lemma Room(start: multiset<Order>, mine: multiset<Order>, before: multiset<Order>, added: multiset<Order>,
             after: multiset<Order>)
    requires start + mine <= before && before + added <= after
    ensures start + (mine + added) <= after && start + mine <= after
  {
  }

  lemma ClaimedOneMore(start: Shared, s: Shared, n: Shared, mine: multiset<Order>, placed: bool, j: JobId)
    requires j in start.jobs && Meanwhile(start, s) && Meanwhile(s, n) && ClaimedSince(start, s, mine)
    requires placed ==> s.decisions[Claim(j)] == 0 && n.decisions[Claim(j)] == 1
    ensures ClaimedSince(start, n, mine + OrdersIf(placed, start.jobs, j))
  {
    forall o | o in mine + OrdersIf(placed, start.jobs, j)
      ensures start.decisions[Claim(o.job)] == 0 && n.decisions[Claim(o.job)] == 1
    {
      assert RowOk(n.jobs, n.decisions, o.job);
    }
  }

  lemma ProgressOn(start: Shared, s: Shared, n: Shared, now: int, due: seq<JobId>, i: nat, queues: set<Platform>,
                   mine: multiset<Order>, quiet: bool, placed: bool)
    requires i < |due| && IsSnapshot(start.jobs, now, due)
    requires Progress(start, s, due, i, queues, mine, quiet)
    requires Round(s, n, queues, due[i], quiet, placed)
    ensures Progress(start, n, due, i + 1, queues, mine + OrdersIf(placed, start.jobs, due[i]), quiet)
    ensures |OrdersIf(placed, start.jobs, due[i])| == if placed then 1 else 0
  {
    var added := OrdersIf(placed, start.jobs, due[i]);
    DispatchOneMore(start.jobs, now, due, i, queues);
    assert Meanwhile(start, n) && AllLeft(n.jobs, due, i + 1) by {
      MeanwhileOn(start, s, n);
      LeftMore(s.jobs, n.jobs, due, i);
    }
    assert start.orders + (mine + added) <= n.orders by {
      Room(start.orders, mine, s.orders, added, n.orders);
    }
    assert PlacedFor(start.jobs, due[..i + 1], queues, mine + added) by {
      PlacedForMore(start.jobs, due, i, queues, mine);
      if placed {
        PlaceOneMore(start.jobs, due, i, queues, mine);
      }
    }
    assert ClaimedSince(start, n, mine + added) by {
      ClaimedOneMore(start, s, n, mine, placed, due[i]);
    }
  }

  /** What a tick that is through has done, row by row and order by order. */
  lemma TickMeans(start: Shared, n: Shared, now: int, due: seq<JobId>, queues: set<Platform>, mine: multiset<Order>,
                  quiet: bool)
    requires IsSnapshot(start.jobs, now, due) && Progress(start, n, due, |due|, queues, mine, quiet)
    ensures forall j :: j in due ==> j in n.jobs && n.jobs[j].status != Scheduled
    ensures forall o :: o in mine ==>
              && mine[o] == 1 && o.job in due && o.job in start.jobs && o.queue in queues
              && o.queue == start.jobs[o.job].platform && o.caption == start.jobs[o.job].caption
    ensures quiet ==> n.jobs == DispatchedRows(start.jobs, due, queues)
    ensures quiet ==> n.orders == start.orders + OrdersOf(start.jobs, due, queues)
    ensures quiet ==> forall o: Order :: n.orders[o] == start.orders[o] + CountOf(start.jobs, due, queues, o)
  {
    WholePrefix(due);
    forall j | j in due ensures j in n.jobs && n.jobs[j].status != Scheduled {
      var k :| 0 <= k < |due| && due[k] == j;
      assert Left(n.jobs, due[k]);
    }
    forall o: Order ensures OrdersOf(start.jobs, due, queues)[o] == CountOf(start.jobs, due, queues, o) {
      OrdersCounted(start.jobs, due, queues, o);
    }
  }

  // ---- The updates of a worker ----

  /** A worker's updates, by the job they are for. */
  datatype Sent = Sent(job: JobId, update: Update)

  function SentFor(j: JobId, us: seq<Update>): (r: seq<Sent>)
    ensures |r| == |us| && forall k :: 0 <= k < |us| ==> r[k] == Sent(j, us[k])
  {
    seq(|us|, k requires 0 <= k < |us| => Sent(j, us[k]))
  }

  /** The updates of one attempt: two for the status, or one for a job that cannot be attempted. */
  function AttemptUpdates(target: Target, complete: bool, token: TokenOutcome, answer: AdapterOutcome, made: nat,
                          max: nat)
    : seq<Update>
  {
    if target.Untargeted? then [Doom(NoTarget)] else Updates(Try(complete, token, answer), made, max)
  }

  /**
   * Updates `us` were sent for `j`, the last to the row that `at` holds; undisturbed, all to the row that
   * `s` holds.
   */
  ghost predicate Sends(s: Shared, n: Shared, at: Shared, j: JobId, us: seq<Update>, quiet: bool)
  {
    && |us| > 0 && j in s.jobs && j in at.jobs && Meanwhile(s, at) && Meanwhile(at, n)
    && n == Rewritten(at, j, Applied(at.jobs[j], us[|us| - 1]))
    && (quiet ==> n == Rewritten(s, j, AllApplied(s.jobs[j], us)))
  }

  lemma SendsOne(s: Shared, at: Shared, j: JobId, u: Update, quiet: bool)
    requires j in s.jobs && j in at.jobs && Meanwhile(s, at) && (quiet ==> at == s)
    ensures Sends(s, Rewritten(at, j, Applied(at.jobs[j], u)), at, j, [u], quiet)
  {
    RewritingIsSound(at, j, Applied(at.jobs[j], u));
    assert [u][..0] == [];
    assert AllApplied(s.jobs[j], [u]) == Applied(s.jobs[j], u);
  }

  lemma AppliedTwice(row: Row, u: Update, v: Update)
    ensures AllApplied(row, [u, v]) == Applied(Applied(row, u), v) && AllApplied(row, [u]) == Applied(row, u)
  {
    assert [u, v][..1] == [u] && [u][..0] == [];
    assert AllApplied(row, [u]) == Applied(row, u);
  }

  lemma RewrittenTwice(s: Shared, m: Shared, n: Shared, j: JobId, u: Update, v: Update)
    requires j in s.jobs && m == Rewritten(s, j, Applied(s.jobs[j], u)) && n == Rewritten(m, j, Applied(m.jobs[j], v))
    ensures n == Rewritten(s, j, AllApplied(s.jobs[j], [u, v]))
  {
    AppliedTwice(s.jobs[j], u, v);
  }

  lemma SendsMore(s: Shared, m: Shared, n: Shared, at: Shared, at': Shared, j: JobId, u: Update, v: Update, quiet: bool)
    requires Sends(s, m, at, j, [u], quiet) && Sends(m, n, at', j, [v], quiet)
    ensures Sends(s, n, at', j, [u, v], quiet)
  {
    MeanwhileThrough(s, at, m, at', n);
    if quiet {
      AppliedTwice(s.jobs[j], u, v);
      AppliedTwice(m.jobs[j], v, v);
      RewrittenTwice(s, m, n, j, u, v);
    }
  }

  /** An attempt: what it found to do, how token check and platform answered, which try of how many it is. */
  datatype Trial = Trial(
    job: JobId, plan: Option<AdapterCall>, made: nat, max: nat, token: TokenOutcome, answer: AdapterOutcome,
    quiet: bool)

  function UpdatesOf(target: Target, a: Trial): seq<Update>
  {
    AttemptUpdates(target, a.plan.Some?, a.token, a.answer, a.made, a.max)
  }

  function CallsOf(a: Trial): seq<AdapterCall> { if a.plan.Some? && a.token == Fresh then [a.plan.value] else [] }

  function EndingOf(a: Trial): Ending { if Throws(Try(a.plan.Some?, a.token, a.answer)) then Threw else Completed }

  /** What one attempt promises: the updates it sends, in order, on top of those sent before. */
  ghost predicate Attempted(s: Shared, n: Shared, at: Shared, a: Trial, log: seq<Sent>, log': seq<Sent>)
  {
    && a.job in s.jobs
    && var us := UpdatesOf(s.jobs[a.job].target, a);
    && Sends(s, n, at, a.job, us, a.quiet) && log' == log + SentFor(a.job, us)
  }

  /** The update that ends an attempt whose token check did not throw. */
  function Closing(token: TokenOutcome, answer: AdapterOutcome, made: nat, max: nat): Update
    requires token != TokenError
  {
    if token == Reconnect then Doom(NeedsReconnect)
    else
      match answer
      case Accept(id) => Publish(id)
      case Refuse(m) => Fail(m, IsFinal(made, max))
  }

  /** What the part of an attempt behind its first update sends: nothing if the token check throws. */
  ghost predicate Closed(s: Shared, n: Shared, at: Shared, a: Trial, log: seq<Sent>, log': seq<Sent>)
  {
    if a.token == TokenError then n == s && log' == log
    else
      var u := Closing(a.token, a.answer, a.made, a.max);
      Sends(s, n, at, a.job, [u], a.quiet) && log' == log + [Sent(a.job, u)]
  }

  /** First update and closing are an attempt. */
  lemma AttemptClosed(s: Shared, m: Shared, n: Shared, first: Shared, at: Shared, a: Trial, log: seq<Sent>,
                      log': seq<Sent>)
    requires Sends(s, m, first, a.job, [Begin(a.made)], a.quiet) && a.plan.Some?
    requires !s.jobs[a.job].target.Untargeted?
    requires Closed(m, n, at, a, log + [Sent(a.job, Begin(a.made))], log')
    ensures Attempted(s, n, if a.token == TokenError then first else at, a, log, log')
  {
    if a.token == TokenError {
      AttemptedOnce(s, n, first, a, Begin(a.made), log, log');
    } else {
      AttemptedTwice(s, m, n, first, at, a, Begin(a.made), Closing(a.token, a.answer, a.made, a.max), log, log');
    }
  }

  lemma AttemptedOnce(s: Shared, n: Shared, at: Shared, a: Trial, u: Update, log: seq<Sent>, log': seq<Sent>)
    requires Sends(s, n, at, a.job, [u], a.quiet) && log' == log + [Sent(a.job, u)]
    requires UpdatesOf(s.jobs[a.job].target, a) == [u]
    ensures Attempted(s, n, at, a, log, log')
  {
    assert SentFor(a.job, [u]) == [Sent(a.job, u)];
  }

  lemma AttemptedTwice(s: Shared, m: Shared, n: Shared, at: Shared, at': Shared, a: Trial, u: Update, v: Update,
                       log: seq<Sent>, log': seq<Sent>)
    requires Sends(s, m, at, a.job, [u], a.quiet) && Sends(m, n, at', a.job, [v], a.quiet)
    requires log' == log + [Sent(a.job, u)] + [Sent(a.job, v)]
    requires UpdatesOf(s.jobs[a.job].target, a) == [u, v]
    ensures Attempted(s, n, at', a, log, log')
  {
    SendsMore(s, m, n, at, at', a.job, u, v, a.quiet);
    assert SentFor(a.job, [u, v]) == [Sent(a.job, u)] + [Sent(a.job, v)];
  }

  /** What one attempt comes to, update by update, and on an undisturbed row field by field. */
  lemma AttemptMeans(s: Shared, n: Shared, at: Shared, a: Trial, log: seq<Sent>, log': seq<Sent>)
    requires Attempted(s, n, at, a, log, log')
    ensures var lost := if s.jobs[a.job].target.Untargeted? then NoTarget else DependencyGone;
            var there := a.plan.Some? && !s.jobs[a.job].target.Untargeted?;
            && (!there ==> log' == log + [Sent(a.job, Doom(lost))])
            && (there ==> match a.token
                case TokenError => log' == log + [Sent(a.job, Begin(a.made))]
                case Reconnect => log' == log + [Sent(a.job, Begin(a.made)), Sent(a.job, Doom(NeedsReconnect))]
                case Fresh =>
                  log' == log + [Sent(a.job, Begin(a.made)),
                                 Sent(a.job, if a.answer.Accept? then Publish(a.answer.postId)
                                             else Fail(a.answer.message, a.made + 1 >= a.max))])
    ensures a.quiet ==>
              var row := s.jobs[a.job];
              var lost := if row.target.Untargeted? then NoTarget else DependencyGone;
              var there := a.plan.Some? && !row.target.Untargeted?;
              var tried := row.(attemptCount := a.made + 1);
              && n.orders == s.orders && n.decisions == s.decisions
              && n.jobs == s.jobs[a.job :=
                   if !there then row.(status := Failed, lastError := Some(lost))
                   else match a.token
                     case TokenError => tried.(status := Processing)
                     case Reconnect => tried.(status := Failed, lastError := Some(NeedsReconnect))
                     case Fresh =>
                       if a.answer.Accept?
                       then tried.(status := Published, externalPostId := Some(a.answer.postId), lastError := None)
                       else tried.(status := if a.made + 1 >= a.max then Failed else Processing,
                                   lastError := Some(Rejected(a.answer.message)))]
  {
    var row, us := s.jobs[a.job], UpdatesOf(s.jobs[a.job].target, a);
    assert SentFor(a.job, us) == log'[|log|..];
    if |us| == 1 {
      AppliedTwice(row, us[0], us[0]);
      assert us == [us[0]] && SentFor(a.job, us) == [Sent(a.job, us[0])];
    } else {
      AppliedTwice(row, us[0], us[1]);
      assert us == [us[0], us[1]] && SentFor(a.job, us) == [Sent(a.job, us[0]), Sent(a.job, us[1])];
    }
  }

  // ---- The two paths ----

  function UpdatesIn(log: seq<Sent>): (us: seq<Update>)
    ensures |us| == |log| && forall k :: 0 <= k < |us| ==> us[k] == log[k].update
  {
    seq(|log|, k requires 0 <= k < |log| => log[k].update)
  }

  /** Both attempts find everything they need or both do not, and are answered the same on the same try. */
  predicate SameTrial(a: Trial, b: Trial)
  {
    a.plan.Some? == b.plan.Some? && a.token == b.token && a.answer == b.answer && a.made == b.made && a.max == b.max
  }

  predicate SameProgress(row: Row, row': Row)
  {
    && row.status == row'.status && row.attemptCount == row'.attemptCount
    && row.externalPostId == row'.externalPostId && row.lastError == row'.lastError
  }

  lemma {:induction false} SameAllApplied(row: Row, row': Row, us: seq<Update>)
    requires SameProgress(row, row')
    ensures SameProgress(AllApplied(row, us), AllApplied(row', us))
  {
    if |us| != 0 {
      SameAllApplied(row, row', us[..|us| - 1]);
    }
  }

  /**
   * An attempt at a design and one at a carousel send the same updates in the same order, make as many platform
   * calls and end the same; undisturbed, rows that agreed in status, attempts, post id and error agree after.
   */
  lemma SameUpdates(s: Shared, n: Shared, at: Shared, a: Trial, log: seq<Sent>, log': seq<Sent>,
                    t: Shared, m: Shared, at': Shared, b: Trial, past: seq<Sent>, past': seq<Sent>)
    requires Attempted(s, n, at, a, log, log') && Attempted(t, m, at', b, past, past')
    requires s.jobs[a.job].target.OfVariant? && t.jobs[b.job].target.OfCarousel? && SameTrial(a, b)
    ensures |log| <= |log'| && |past| <= |past'| && UpdatesIn(log'[|log|..]) == UpdatesIn(past'[|past|..])
    ensures |CallsOf(a)| == |CallsOf(b)| && EndingOf(a) == EndingOf(b)
    ensures a.quiet && b.quiet && SameProgress(s.jobs[a.job], t.jobs[b.job]) ==>
              SameProgress(n.jobs[a.job], m.jobs[b.job])
  {
    var us := UpdatesOf(s.jobs[a.job].target, a);
    assert us == UpdatesOf(t.jobs[b.job].target, b);
    assert log'[|log|..] == SentFor(a.job, us) && past'[|past|..] == SentFor(b.job, us);
    if SameProgress(s.jobs[a.job], t.jobs[b.job]) {
      SameAllApplied(s.jobs[a.job], t.jobs[b.job], us);
    }
  }
}
