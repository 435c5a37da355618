/** The publishing service: its requests, the dispatch loop, and the worker's attempt. */
module Publishing {
  import opened Options
  import opened PublishJobs
  import opened PublishProtocol
  import opened PublishWorker
  import opened PublishRules

  /**
   * Methods call `Await` where other requests, ticks and workers may run. A ghost result `at` is the shared
   * state as a method's last database write finds it; with `quiet`, nothing else runs.
   */
  class PublishingService {
    const queues: set<Platform>
    const limits: map<Platform, nat>
    var variants: map<string, Variant>
    var carousels: map<string, Carousel>
    var accounts: map<string, Account>
    var jobs: map<JobId, Row>
    var orders: multiset<Order>
    var calls: seq<AdapterCall>
    /** The claims and withdrawals of all requests so far. */
    ghost var decisions: multiset<Decision>
    /** The updates sent by the worker whose attempt runs. */
    ghost var sent: seq<Sent>

    constructor (queues: set<Platform>, limits: map<Platform, nat>)
      ensures this.queues == queues && this.limits == limits
      ensures jobs == map[] && orders == multiset{} && calls == [] && Sound(Now())
    {
      this.queues := queues;
      this.limits := limits;
      variants, carousels, accounts, jobs, orders, calls := map[], map[], map[], map[], multiset{}, [];
      decisions, sent := multiset{}, [];
    }

    ghost function Now(): Shared
      reads this`jobs, this`orders, this`decisions
    {
      Shared(jobs, orders, decisions)
    }

    /** What is assumed of the others here, every method below ensures. */
    method Await(ghost quiet: bool)
      requires Sound(Now())
      modifies this`jobs, this`orders, this`decisions
      ensures Meanwhile(old(Now()), Now())
      ensures quiet ==> Now() == old(Now())
    {
    }

    // ---- Creation ----

    method PublishNow(org: string, variantId: string, accountId: string, caption: Caption, id: JobId, ghost quiet: bool)
      returns (refused: Option<Refusal>, ghost at: Shared)
      requires Sound(Now()) && id !in jobs
      modifies this`jobs, this`orders, this`decisions
      ensures refused == (if VariantRefusal(org, Lookup(variants, variantId), Lookup(accounts, accountId)).Some?
                          then VariantRefusal(org, Lookup(variants, variantId), Lookup(accounts, accountId))
                          else if accounts[accountId].platform !in queues then Some(Unsupported) else None)
      ensures Meanwhile(old(Now()), Now())
      ensures refused.Some? ==> Now() == old(Now())
      ensures refused.None? ==>
                var platform := accounts[accountId].platform;
                var row := Row(OfVariant(variantId), accountId, platform, Queued, None, None, 0, None, None);
                var created := old(Now()).(jobs := old(jobs)[id := row]);
                && Meanwhile(created, at) && (quiet ==> at == created)
                && Now() == at.(orders := at.orders + multiset{Order(platform, id, caption)})
    {
      at := Now();
      refused := VariantRefusal(org, Lookup(variants, variantId), Lookup(accounts, accountId));
      if refused.Some? {
        return;
      }
      var platform := accounts[accountId].platform;
      if platform !in queues {
        refused := Some(Unsupported);
        return;
      }
      RewritingIsSound(Now(), id, Immediate(OfVariant(variantId), accountId, platform));
      jobs := jobs[id := Immediate(OfVariant(variantId), accountId, platform)];
      Await(quiet);
      at := Now();
      OrderingIsSound(at, Order(platform, id, caption));
      orders := orders + multiset{Order(platform, id, caption)};
    }

    method Schedule(org: string, variantId: string, accountId: string, time: int, now: int, caption: Caption, id: JobId)
      returns (refused: Option<Refusal>)
      requires Sound(Now()) && id !in jobs
      modifies this`jobs
      ensures refused == if time <= now then Some(NotInFuture)
                         else VariantRefusal(org, Lookup(variants, variantId), Lookup(accounts, accountId))
      ensures Meanwhile(old(Now()), Now())
      ensures refused.Some? ==> jobs == old(jobs)
      ensures refused.None? ==>
                var platform := accounts[accountId].platform;
                var target := OfVariant(variantId);
                jobs == old(jobs)[id := Row(target, accountId, platform, Scheduled, Some(time), caption, 0, None, None)]
    {
      if time <= now {
        return Some(NotInFuture);
      }
      refused := VariantRefusal(org, Lookup(variants, variantId), Lookup(accounts, accountId));
      if refused.None? {
        var row := Future(OfVariant(variantId), accountId, accounts[accountId].platform, time, caption);
        RewritingIsSound(Now(), id, row);
        jobs := jobs[id := row];
      }
    }

    method PublishCarouselNow(org: string, accountId: string, mediaUrls: seq<string>, caption: Caption,
                              carouselId: string, id: JobId, ghost quiet: bool)
      returns (refused: Option<Refusal>, ghost at: Shared)
      requires Sound(Now()) && id !in jobs && carouselId !in carousels
      modifies this`jobs, this`orders, this`decisions, this`carousels
      ensures refused == CarouselRefusal(org, Lookup(accounts, accountId), queues, limits, |mediaUrls|)
      ensures Meanwhile(old(Now()), Now())
      ensures refused.Some? ==> Now() == old(Now()) && carousels == old(carousels)
      ensures refused.None? ==>
                var platform := accounts[accountId].platform;
                var row := Row(OfCarousel(carouselId), accountId, platform, Queued, None, None, 0, None, None);
                var created := old(Now()).(jobs := old(jobs)[id := row]);
                && carousels == old(carousels)[carouselId := Carousel(mediaUrls, caption)]
                && Meanwhile(created, at) && (quiet ==> at == created)
                && Now() == at.(orders := at.orders + multiset{Order(platform, id, caption)})
    {
      at := Now();
      refused := CarouselRefusal(org, Lookup(accounts, accountId), queues, limits, |mediaUrls|);
      if refused.Some? {
        return;
      }
      var platform := accounts[accountId].platform;
      carousels := carousels[carouselId := Carousel(mediaUrls, caption)];
      RewritingIsSound(Now(), id, Immediate(OfCarousel(carouselId), accountId, platform));
      jobs := jobs[id := Immediate(OfCarousel(carouselId), accountId, platform)];
      Await(quiet);
      at := Now();
      OrderingIsSound(at, Order(platform, id, caption));
      orders := orders + multiset{Order(platform, id, caption)};
    }

    method ScheduleCarousel(org: string, accountId: string, mediaUrls: seq<string>, time: int, now: int,
                            caption: Caption, carouselId: string, id: JobId)
      returns (refused: Option<Refusal>)
      requires Sound(Now()) && id !in jobs && carouselId !in carousels
      modifies this`jobs, this`carousels
      ensures refused == if time <= now then Some(NotInFuture)
                         else CarouselRefusal(org, Lookup(accounts, accountId), queues, limits, |mediaUrls|)
      ensures Meanwhile(old(Now()), Now())
      ensures refused.Some? ==> jobs == old(jobs) && carousels == old(carousels)
      ensures refused.None? ==>
                var platform := accounts[accountId].platform;
                var target := OfCarousel(carouselId);
                && carousels == old(carousels)[carouselId := Carousel(mediaUrls, caption)]
                && jobs == old(jobs)[id :=
                     Row(target, accountId, platform, Scheduled, Some(time), caption, 0, None, None)]
    {
      if time <= now {
        return Some(NotInFuture);
      }
      refused := CarouselRefusal(org, Lookup(accounts, accountId), queues, limits, |mediaUrls|);
      if refused.None? {
        carousels := carousels[carouselId := Carousel(mediaUrls, caption)];
        var row := Future(OfCarousel(carouselId), accountId, accounts[accountId].platform, time, caption);
        RewritingIsSound(Now(), id, row);
        jobs := jobs[id := row];
      }
    }

    // ---- The dispatcher ----

    /** `findMany` for the due jobs: each once, in no particular order. */
    method FindDue(now: int) returns (due: seq<JobId>)
      ensures IsSnapshot(jobs, now, due)
    {
      due := [];
      var rest := jobs.Keys;
      while rest != {}
        invariant rest <= jobs.Keys
        invariant forall j :: j in due <==> j in jobs && j !in rest && IsDue(jobs[j], now)
        invariant forall i, k :: 0 <= i < k < |due| ==> due[i] != due[k]
        decreases rest
      {
        var j :| j in rest;
        rest := rest - {j};
        if IsDue(jobs[j], now) {
          due := due + [j];
        }
      }
    }

    /**
     * `updateMany` from `Scheduled` to `Queued`: the row is claimed exactly if it is scheduled when the
     * update runs.
     */
    method ClaimScheduled(j: JobId, ghost quiet: bool) returns (claimed: bool, ghost at: Shared)
      requires Sound(Now()) && j in jobs
      modifies this`jobs, this`orders, this`decisions
      ensures Meanwhile(old(Now()), at) && j in at.jobs && (quiet ==> at == old(Now()))
      ensures claimed == (at.jobs[j].status == Scheduled)
      ensures Now() == if claimed
                       then at.(jobs := at.jobs[j := at.jobs[j].(status := Queued)],
                                decisions := at.decisions + multiset{Claim(j)})
                       else at
      ensures claimed ==> at.decisions[Claim(j)] == 0
      ensures Meanwhile(at, Now()) && Left(jobs, j)
    {
      Await(quiet);
      at := Now();
      claimed := jobs[j].status == Scheduled;
      if claimed {
        DecidingIsSound(at, Claim(j), Claimed(jobs[j]));
        jobs := jobs[j := Claimed(jobs[j])];
        decisions := decisions + multiset{Claim(j)};
      }
    }

    /** The claimed job goes to its queue, or is failed for lack of one. */
    method Enqueue(j: JobId, ghost quiet: bool) returns (placed: bool, ghost at: Shared)
      requires Sound(Now()) && Left(jobs, j)
      modifies this`jobs, this`orders, this`decisions
      ensures Meanwhile(old(Now()), at) && j in at.jobs && (quiet ==> at == old(Now()))
      ensures placed == (at.jobs[j].platform in queues)
      ensures var row := at.jobs[j];
              Now() == if placed
                       then at.(orders := at.orders + multiset{Order(row.platform, j, row.caption)})
                       else at.(jobs := at.jobs[j := row.(status := Failed, lastError := Some(NoQueue(row.platform)))])
      ensures Meanwhile(at, Now())
    {
      Await(quiet);
      at := Now();
      placed := jobs[j].platform in queues;
      if placed {
        OrderingIsSound(at, OrderOf(jobs, j));
        orders := orders + multiset{OrderOf(jobs, j)};
      } else {
        RewritingIsSound(at, j, Unqueueable(jobs[j]));
        jobs := jobs[j := Unqueueable(jobs[j])];
      }
    }

    /** One round of the dispatch loop. */
    method DispatchOne(j: JobId, ghost quiet: bool) returns (placed: bool)
      requires Sound(Now()) && j in jobs
      modifies this`jobs, this`orders, this`decisions
      ensures Round(old(Now()), Now(), queues, j, quiet, placed)
    {
      ghost var start := Now();
      var claimed, before := ClaimScheduled(j, quiet);
      MeanwhileOn(start, before, Now());
      if !claimed {
        return false;
      }
      ghost var between := Now();
      ghost var at;
      placed, at := Enqueue(j, quiet);
      RoundDone(start, before, between, at, Now(), queues, j, quiet, placed);
    }

    /**
     * Whatever runs in between: no job that was due is still scheduled when this returns, and it returns how
     * many orders it placed, each for a due job that this tick claimed and no other request ever claims.
     * Undisturbed, it claims and orders them all.
     */
    method DispatchDueScheduledJobs(now: int, ghost quiet: bool)
      returns (dispatched: nat, ghost due: seq<JobId>, ghost mine: multiset<Order>)
      requires Sound(Now())
      modifies this`jobs, this`orders, this`decisions
      ensures IsSnapshot(old(jobs), now, due)
      ensures forall j :: j in due <==>
                && j in old(jobs) && old(jobs)[j].status == Scheduled
                && old(jobs)[j].scheduledAt.Some? && old(jobs)[j].scheduledAt.value <= now
      ensures Meanwhile(old(Now()), Now())
      ensures forall j :: j in due ==> j in jobs && jobs[j].status != Scheduled
      ensures dispatched == |mine| && old(orders) + mine <= orders
      ensures forall o :: o in mine ==>
                && mine[o] == 1 && o.job in due && o.queue in queues
                && o.queue == old(jobs)[o.job].platform && o.caption == old(jobs)[o.job].caption
      ensures forall o :: o in mine ==> old(decisions)[Claim(o.job)] == 0 && decisions[Claim(o.job)] == 1
      ensures quiet ==> jobs == DispatchedRows(old(jobs), due, queues)
      ensures quiet ==> jobs.Keys == old(jobs).Keys
      ensures quiet ==> forall j :: j in old(jobs) ==>
                var row := old(jobs)[j];
                jobs[j] == if j !in due then row
                           else if row.platform in queues then row.(status := Queued)
                           else row.(status := Failed, lastError := Some(NoQueue(row.platform)))
      ensures quiet ==> orders == old(orders) + OrdersOf(old(jobs), due, queues)
      ensures quiet ==> forall o: Order ::
                orders[o] == old(orders)[o] + if o.job in due && old(jobs)[o.job].platform in queues
                                                 && o.queue == old(jobs)[o.job].platform
                                                 && o.caption == old(jobs)[o.job].caption then 1 else 0
    {
      ghost var start := Now();
      var found := FindDue(now);
      due, mine := found, multiset{};
      dispatched := 0;
      for i := 0 to |found|
        invariant Progress(start, Now(), due, i, queues, mine, quiet)
        invariant dispatched == |mine|
      {
        ghost var before := Now();
        var placed := DispatchOne(found[i], quiet);
        ProgressOn(start, before, Now(), now, due, i, queues, mine, quiet, placed);
        mine := mine + OrdersIf(placed, start.jobs, due[i]);
        if placed {
          dispatched := dispatched + 1;
        }
      }
      TickMeans(start, Now(), now, due, queues, mine, quiet);
    }

    // ---- Requests about one job ----

    predicate OwnedBy(row: Row, org: string)
      reads this`accounts
    {
      row.account in accounts && accounts[row.account].orgId == org
    }

    /**
     * Withdraws the job exactly if it is scheduled when the guarded update runs; a tick may have claimed it
     * since the read.
     */
    method CancelScheduled(j: JobId, org: string, ghost quiet: bool)
      returns (refused: Option<Refusal>, ghost at: Shared)
      requires Sound(Now())
      modifies this`jobs, this`orders, this`decisions
      ensures refused == Some(JobNotFound) <==>
                !(j in old(jobs) && old(jobs)[j].account in accounts && accounts[old(jobs)[j].account].orgId == org)
      ensures refused == Some(NotScheduled) <==>
                && j in old(jobs) && old(jobs)[j].account in accounts && accounts[old(jobs)[j].account].orgId == org
                && old(jobs)[j].status != Scheduled
      ensures refused in {None, Some(JobNotFound), Some(NotScheduled), Some(JustStarted)}
      ensures Meanwhile(old(Now()), at) && Meanwhile(at, Now()) && (quiet ==> at == old(Now()))
      ensures refused in {Some(JobNotFound), Some(NotScheduled)} ==> Now() == old(Now())
      ensures refused in {None, Some(JustStarted)} ==>
                && j in at.jobs && (refused.None? <==> at.jobs[j].status == Scheduled)
                && Now() == if refused.None?
                            then at.(jobs := at.jobs[j := at.jobs[j].(status := Cancelled)],
                                     decisions := at.decisions + multiset{Withdraw(j)})
                            else at
    {
      at := Now();
      if j !in jobs || !OwnedBy(jobs[j], org) {
        refused := Some(JobNotFound);
        return;
      }
      if jobs[j].status != Scheduled {
        refused := Some(NotScheduled);
        return;
      }
      Await(quiet);
      at := Now();
      if jobs[j].status != Scheduled {
        refused := Some(JustStarted);
        return;
      }
      DecidingIsSound(at, Withdraw(j), Withdrawn(jobs[j]));
      jobs := jobs[j := Withdrawn(jobs[j])];
      decisions := decisions + multiset{Withdraw(j)};
      refused := None;
    }

    function RequeueRefusal(rows: map<JobId, Row>, j: JobId): Option<Refusal>
    {
      if j !in rows then Some(JobNotFound)
      else if rows[j].status == Published then Some(AlreadyPublished)
      else if rows[j].platform !in queues then Some(NoSuchQueue)
      else None
    }

    /** Neither the update nor the order is guarded: whatever became of the job since the read, it is queued again. */
    method RequeueJob(j: JobId, ghost quiet: bool)
      returns (refused: Option<Refusal>, ghost write: Shared, ghost at: Shared)
      requires Sound(Now())
      modifies this`jobs, this`orders, this`decisions
      ensures refused == if j !in old(jobs) then Some(JobNotFound)
                         else if old(jobs)[j].status == Published then Some(AlreadyPublished)
                         else if old(jobs)[j].platform !in queues then Some(NoSuchQueue) else None
      ensures refused.Some? ==> Now() == old(Now())
      ensures refused.None? ==>
                && Meanwhile(old(Now()), write) && j in write.jobs
                && var queued := write.(jobs := write.jobs[j := write.jobs[j].(status := Queued, lastError := None)]);
                && Meanwhile(queued, at) && j in at.jobs && Meanwhile(at, Now())
                && var order := Order(at.jobs[j].platform, j, at.jobs[j].caption);
                && Now() == at.(orders := at.orders + multiset{order})
                && (quiet ==> write == old(Now()) && at == queued)
    {
      write, at := Now(), Now();
      refused := RequeueRefusal(jobs, j);
      if refused.Some? {
        return;
      }
      write := Rewrite(j, quiet);
      Await(quiet);
      at := Now();
      OrderingIsSound(at, OrderOf(jobs, j));
      orders := orders + multiset{OrderOf(jobs, j)};
    }

    method Rewrite(j: JobId, ghost quiet: bool) returns (ghost at: Shared)
      requires Sound(Now()) && j in jobs
      modifies this`jobs, this`orders, this`decisions
      ensures Meanwhile(old(Now()), at) && j in at.jobs && (quiet ==> at == old(Now()))
      ensures Now() == Rewritten(at, j, Requeued(at.jobs[j])) && Meanwhile(at, Now())
    {
      Await(quiet);
      at := Now();
      RewritingIsSound(at, j, Requeued(jobs[j]));
      jobs := jobs[j := Requeued(jobs[j])];
    }

    /** The update is not guarded either. */
    method CancelJob(j: JobId, ghost quiet: bool) returns (refused: Option<Refusal>, ghost at: Shared)
      requires Sound(Now())
      modifies this`jobs, this`orders, this`decisions
      ensures refused == if j !in old(jobs) then Some(JobNotFound)
                         else if old(jobs)[j].status == Published then Some(AlreadyPublished) else None
      ensures refused.Some? ==> Now() == old(Now())
      ensures refused.None? ==>
                && Meanwhile(old(Now()), at) && j in at.jobs && (quiet ==> at == old(Now()))
                && Now() == at.(jobs := at.jobs[j := at.jobs[j].(status := Cancelled)]) && Meanwhile(at, Now())
    {
      at := Now();
      if j !in jobs {
        refused := Some(JobNotFound);
        return;
      }
      if jobs[j].status == Published {
        refused := Some(AlreadyPublished);
        return;
      }
      Await(quiet);
      at := Now();
      RewritingIsSound(at, j, Withdrawn(jobs[j]));
      jobs := jobs[j := Withdrawn(jobs[j])];
      refused := None;
    }

    // ---- The worker's attempt ----

    function PlanOf(row: Row, asked: Caption): Option<AdapterCall>
      reads this`variants, this`carousels, this`accounts
    {
      Plan(row, asked, variants, carousels, accounts, limits)
    }

    /** A worker's update sets its fields on the row as it is by then. */
    method UpdateJob(j: JobId, u: Update, ghost quiet: bool) returns (ghost at: Shared)
      requires Sound(Now()) && j in jobs
      modifies this`jobs, this`orders, this`decisions, this`sent
      ensures Sends(old(Now()), Now(), at, j, [u], quiet) && sent == old(sent) + [Sent(j, u)]
    {
      Await(quiet);
      at := Now();
      SendsOne(old(Now()), at, j, u, quiet);
      jobs := jobs[j := Applied(jobs[j], u)];
      sent := sent + [Sent(j, u)];
    }

    /** One attempt, by the outcomes of the token check and of the platform; a missing job is nothing to do. */
    method ExecutePublish(j: JobId, asked: Caption, made: nat, max: nat, token: TokenOutcome, answer: AdapterOutcome,
                          ghost quiet: bool)
      returns (ending: Ending, ghost at: Shared, ghost there: bool)
      requires Sound(Now())
      modifies this`jobs, this`orders, this`decisions, this`sent, this`calls
      ensures j !in old(jobs) ==> Now() == old(Now()) && sent == old(sent) && calls == old(calls) && ending == Completed
      ensures j in old(jobs) ==>
                var a := Trial(j, old(PlanOf(jobs[j], asked)), made, max, token, answer, quiet);
                && Attempted(old(Now()), Now(), at, a, old(sent), sent)
                && calls == old(calls) + CallsOf(a) && ending == EndingOf(a)
      ensures there <==>
                && j in old(jobs) && old(jobs)[j].account in accounts
                && accounts[old(jobs)[j].account].platform in limits
                && match old(jobs)[j].target
                   case OfVariant(id) => id in variants && variants[id].media.Some? && variants[id].media.value != ""
                   case OfCarousel(id) => id in carousels && |carousels[id].mediaUrls| >= 1
                   case Untargeted => false
      // what is called: nothing, or once with the request's caption, else the stored one, else none
      ensures !there || token != Fresh ==> calls == old(calls)
      ensures there && token == Fresh ==>
                var row := old(jobs)[j];
                && |calls| == |old(calls)| + 1 && calls[..|old(calls)|] == old(calls)
                && var call := calls[|old(calls)|];
                && call.platform == accounts[row.account].platform && call.account == accounts[row.account].externalId
                && (asked.Some? ==> call.caption == asked.value)
                && match row.target
                   case OfVariant(id) =>
                     && call.PublishOne? && variants[id].media == Some(call.imageUrl)
                     && (asked.None? && variants[id].caption.Some? ==> call.caption == variants[id].caption.value)
                     && (asked.None? && variants[id].caption.None? ==> call.caption == "")
                   case OfCarousel(id) =>
                     && call.PublishOne? == (|carousels[id].mediaUrls| == 1)
                     && carousels[id].mediaUrls == (if call.PublishOne? then [call.imageUrl] else call.mediaUrls)
                     && (asked.None? && carousels[id].caption.Some? ==> call.caption == carousels[id].caption.value)
                     && (asked.None? && carousels[id].caption.None? ==> call.caption == "")
                   case Untargeted => false
      ensures ending == Threw <==> there && (token == TokenError || (token == Fresh && answer.Refuse?))
      // what is sent
      ensures j in old(jobs) && !there ==>
                var lost := if old(jobs)[j].target.Untargeted? then NoTarget else DependencyGone;
                sent == old(sent) + [Sent(j, Doom(lost))]
      ensures there ==> match token
              case TokenError => sent == old(sent) + [Sent(j, Begin(made))]
              case Reconnect => sent == old(sent) + [Sent(j, Begin(made)), Sent(j, Doom(NeedsReconnect))]
              case Fresh =>
                sent == old(sent) + [Sent(j, Begin(made)),
                                     Sent(j, if answer.Accept? then Publish(answer.postId)
                                             else Fail(answer.message, made + 1 >= max))]
      // what an undisturbed row reads
      ensures quiet && j in old(jobs) ==>
                var row := old(jobs)[j];
                var lost := if row.target.Untargeted? then NoTarget else DependencyGone;
                var tried := row.(attemptCount := made + 1);
                jobs == old(jobs)[j :=
                  if !there then row.(status := Failed, lastError := Some(lost))
                  else match token
                    case TokenError => tried.(status := Processing)
                    case Reconnect => tried.(status := Failed, lastError := Some(NeedsReconnect))
                    case Fresh =>
                      if answer.Accept?
                      then tried.(status := Published, externalPostId := Some(answer.postId), lastError := None)
                      else tried.(status := if made + 1 >= max then Failed else Processing,
                                  lastError := Some(Rejected(answer.message)))]
    {
      at, there := Now(), j in jobs && PlanOf(jobs[j], asked).Some?;
      if j !in jobs {
        ending := Completed;
        return;
      }
      ghost var trial := Trial(j, PlanOf(jobs[j], asked), made, max, token, answer, quiet);
      PlanMeans(jobs[j], asked, variants, carousels, accounts, limits);
      ending, at := ExecuteFound(j, asked, made, max, token, answer, quiet);
      AttemptMeans(old(Now()), Now(), at, trial, old(sent), sent);
    }

    /** A job that was found takes the path of its target. */
    method ExecuteFound(j: JobId, asked: Caption, made: nat, max: nat, token: TokenOutcome, answer: AdapterOutcome,
                        ghost quiet: bool)
      returns (ending: Ending, ghost at: Shared)
      requires Sound(Now()) && j in jobs
      modifies this`jobs, this`orders, this`decisions, this`sent, this`calls
      ensures var a := Trial(j, old(PlanOf(jobs[j], asked)), made, max, token, answer, quiet);
              && Attempted(old(Now()), Now(), at, a, old(sent), sent)
              && calls == old(calls) + CallsOf(a) && ending == EndingOf(a)
    {
      if jobs[j].target.OfCarousel? {
        ending, at := ExecuteCarouselPublish(j, asked, made, max, token, answer, quiet);
      } else if jobs[j].target.Untargeted? {
        ghost var a := Trial(j, PlanOf(jobs[j], asked), made, max, token, answer, quiet);
        at := UpdateJob(j, Doom(NoTarget), quiet);
        AttemptedOnce(old(Now()), Now(), at, a, Doom(NoTarget), old(sent), sent);
        ending := Completed;
      } else {
        ending, at := ExecuteVariantPublish(j, asked, made, max, token, answer, quiet);
      }
    }

    method ExecuteVariantPublish(j: JobId, asked: Caption, made: nat, max: nat, token: TokenOutcome,
                                 answer: AdapterOutcome, ghost quiet: bool)
      returns (ending: Ending, ghost at: Shared)
      requires Sound(Now()) && j in jobs && jobs[j].target.OfVariant?
      modifies this`jobs, this`orders, this`decisions, this`sent, this`calls
      ensures var a := Trial(j, old(PlanOf(jobs[j], asked)), made, max, token, answer, quiet);
              && Attempted(old(Now()), Now(), at, a, old(sent), sent)
              && calls == old(calls) + CallsOf(a) && ending == EndingOf(a)
    {
      ghost var start, log := Now(), sent;
      ghost var a := Trial(j, PlanOf(jobs[j], asked), made, max, token, answer, quiet);
      var row := jobs[j];
      var id := row.target.id;
      VariantPlan(row, asked, variants, carousels, accounts, limits);
      if id !in variants || !Present(variants[id].media) || row.account !in accounts
         || accounts[row.account].platform !in limits {
        at := UpdateJob(j, Doom(DependencyGone), quiet);
        AttemptedOnce(start, Now(), at, a, Doom(DependencyGone), log, sent);
        ending := Completed;
        return;
      }
      var variant, account := variants[id], accounts[row.account];
      ghost var first := UpdateJob(j, Begin(made), quiet);
      ghost var mid := Now();
      ending, at := PublishVariant(j, variant, account, asked, made, max, token, answer, quiet);
      AttemptClosed(start, mid, Now(), first, at, a, log, sent);
      at := if token == TokenError then first else at;
    }

    /** The single post: token check, adapter call, and what is recorded of it. */
    method PublishVariant(j: JobId, variant: Variant, account: Account, asked: Caption, made: nat, max: nat,
                          token: TokenOutcome, answer: AdapterOutcome, ghost quiet: bool)
      returns (ending: Ending, ghost at: Shared)
      requires Sound(Now()) && j in jobs && Present(variant.media)
      modifies this`jobs, this`orders, this`decisions, this`sent, this`calls
      ensures var caption := if asked.Some? then asked.value
                             else if variant.caption.Some? then variant.caption.value else "";
              var call := PublishOne(account.platform, variant.media.value, caption, account.externalId);
              var a := Trial(j, Some(call), made, max, token, answer, quiet);
              && Closed(old(Now()), Now(), at, a, old(sent), sent)
              && calls == old(calls) + CallsOf(a) && ending == EndingOf(a)
    {
      at := Now();
      match token {
        case Reconnect =>
          at := UpdateJob(j, Doom(NeedsReconnect), quiet);
          ending := Completed;
        case TokenError =>
          ending := Threw;
        case Fresh =>
          calls := calls
            + [PublishOne(account.platform, variant.media.value, Chosen(asked, variant.caption), account.externalId)];
          match answer {
            case Accept(post) =>
              at := UpdateJob(j, Publish(post), quiet);
              ending := Completed;
            case Refuse(message) =>
              at := UpdateJob(j, Fail(message, IsFinal(made, max)), quiet);
              ending := Threw;
          }
      }
    }

    /** The carousel's twin, written out again: other dependencies, the same updates. */
    method ExecuteCarouselPublish(j: JobId, asked: Caption, made: nat, max: nat, token: TokenOutcome,
                                  answer: AdapterOutcome, ghost quiet: bool)
      returns (ending: Ending, ghost at: Shared)
      requires Sound(Now()) && j in jobs && jobs[j].target.OfCarousel?
      modifies this`jobs, this`orders, this`decisions, this`sent, this`calls
      ensures var a := Trial(j, old(PlanOf(jobs[j], asked)), made, max, token, answer, quiet);
              && Attempted(old(Now()), Now(), at, a, old(sent), sent)
              && calls == old(calls) + CallsOf(a) && ending == EndingOf(a)
    {
      ghost var start, log := Now(), sent;
      ghost var a := Trial(j, PlanOf(jobs[j], asked), made, max, token, answer, quiet);
      var carousel := Lookup(carousels, jobs[j].target.id);
      var account := Lookup(accounts, jobs[j].account);
      if carousel.None? || |carousel.value.mediaUrls| < 1 || account.None? || account.value.platform !in limits {
        at := UpdateJob(j, Doom(DependencyGone), quiet);
        AttemptedOnce(start, Now(), at, a, Doom(DependencyGone), log, sent);
        ending := Completed;
        return;
      }
      ghost var first := UpdateJob(j, Begin(made), quiet);
      ghost var mid := Now();
      ending, at := PublishAlbumOf(j, carousel.value, account.value, asked, made, max, token, answer, quiet);
      AttemptClosed(start, mid, Now(), first, at, a, log, sent);
      at := if token == TokenError then first else at;
    }

    /** An album, or for a single image an ordinary post: token check, adapter call, and what is recorded of it. */
    method PublishAlbumOf(j: JobId, carousel: Carousel, account: Account, asked: Caption, made: nat, max: nat,
                          token: TokenOutcome, answer: AdapterOutcome, ghost quiet: bool)
      returns (ending: Ending, ghost at: Shared)
      requires Sound(Now()) && j in jobs && |carousel.mediaUrls| >= 1
      modifies this`jobs, this`orders, this`decisions, this`sent, this`calls
      ensures var a := Trial(j, Some(AlbumCall(carousel, account, asked)), made, max, token, answer, quiet);
              && Closed(old(Now()), Now(), at, a, old(sent), sent)
              && calls == old(calls) + CallsOf(a) && ending == EndingOf(a)
      ensures token == Fresh ==>
                var caption := if asked.Some? then asked.value
                               else if carousel.caption.Some? then carousel.caption.value else "";
                calls == old(calls)
                  + [if |carousel.mediaUrls| == 1
                     then PublishOne(account.platform, carousel.mediaUrls[0], caption, account.externalId)
                     else PublishAlbum(account.platform, carousel.mediaUrls, caption, account.externalId)]
      ensures token != Fresh ==> calls == old(calls)
    {
      at := Now();
      if token == Reconnect {
        at := UpdateJob(j, Doom(NeedsReconnect), quiet);
        ending := Completed;
        return;
      }
      if token == TokenError {
        ending := Threw;
        return;
      }
      var caption := Chosen(asked, carousel.caption);
      if |carousel.mediaUrls| == 1 {
        calls := calls + [PublishOne(account.platform, carousel.mediaUrls[0], caption, account.externalId)];
      } else {
        calls := calls + [PublishAlbum(account.platform, carousel.mediaUrls, caption, account.externalId)];
      }
      if answer.Accept? {
        at := UpdateJob(j, Publish(answer.postId), quiet);
        ending := Completed;
        return;
      }
      var isFinalAttempt := made + 1 >= max;
      at := UpdateJob(j, Fail(answer.message, isFinalAttempt), quiet);
      ending := Threw;
    }
  }
}
