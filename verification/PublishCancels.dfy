/**
 * When an administrator's cancel keeps a job from being posted. Neither its write nor a worker looks at the
 * status; what decides is whether anything can still post the job when the cancel is written.
 */
module PublishCancels {
  import opened Options
  import opened Sequences
  import opened PublishJobs
  import opened PublishProtocol
  import opened PublishLedger
  import opened PublishWorker
  import opened PublishRequeue

  /** No entry of the job is live, nothing is about to add one, and no tick will. */
  ghost predicate Settled(queues: set<Platform>, s: State, j: JobId)
  {
    && (forall e :: !LiveAt(s, e, j))
    && (forall p :: !WillAddAt(queues, s, p, j))
    && !(Served(queues, s, j) && s.jobs[j].status == Scheduled)
  }

  lemma SettledPotential(queues: set<Platform>, s: State, j: JobId)
    requires j in s.jobs && Settled(queues, s, j)
    ensures Potential(s, j, Served(queues, s, j)) == PostsOf(s, j)
  {
    forall e | 0 <= e < |s.entries| && s.entries[e].job == j ensures !Live(s.entries[e]) {
      assert !LiveAt(s, e, j);
    }
    SettledSum(j, s.entries);
    forall p | 0 <= p < |s.procs| ensures Coming(j, Served(queues, s, j))(s.procs[p]) == 0 {
      assert !WillAddAt(queues, s, p, j);
      assert !WillAdd(s.procs[p], j, FromRequest) && !WillAdd(s.procs[p], j, FromRequeue);
    }
    NothingComes(j, Served(queues, s, j), s.procs);
  }

  lemma SettledNeverPosts(queues: set<Platform>, s: State, j: JobId, events: seq<Event>)
    requires Ok(s) && j in s.jobs && Settled(queues, s, j) && Leaves(events, j)
    ensures PostsOf(Run(queues, s, events), j) <= PostsOf(s, j)
  {
    SettledPotential(queues, s, j);
    RunGains(queues, s, events, j);
    PostsPromised(j, Run(queues, s, events).entries);
    SumAtLeast(Coming(j, Served(queues, s, j)), Run(queues, s, events).procs);
  }

  lemma UnsettledPosts(queues: set<Platform>, s: State, j: JobId) returns (events: seq<Event>)
    requires Ok(s) && j in s.jobs && !Settled(queues, s, j)
    ensures Leaves(events, j) && PostsOf(Run(queues, s, events), j) == PostsOf(s, j) + 1
  {
    if e :| LiveAt(s, e, j) {
      events := DriveEntry(queues, s, e, j, 0);
    } else if p :| WillAddAt(queues, s, p, j) {
      events := DriveAdding(queues, s, p, j);
    } else {
      events := DriveScheduled(queues, s, j);
    }
  }

  /** In every reachable state: a job comes to no further post, short of a requeue, exactly if it is settled. */
  lemma NoFurtherPostIffSettled(queues: set<Platform>, s: State, j: JobId)
    requires Reachable(queues, s) && j in s.jobs
    ensures Settled(queues, s, j) <==>
            forall events :: Leaves(events, j) ==> PostsOf(Run(queues, s, events), j) <= PostsOf(s, j)
  {
    var clock, past :| s == Run(queues, Initial(clock), past);
    RunOk(queues, Initial(clock), past);
    if Settled(queues, s, j) {
      forall events | Leaves(events, j) ensures PostsOf(Run(queues, s, events), j) <= PostsOf(s, j) {
        SettledNeverPosts(queues, s, j, events);
      }
    } else {
      var events := UnsettledPosts(queues, s, j);
      assert Leaves(events, j);
    }
  }

  lemma ReachableOk(queues: set<Platform>, s: State)
    requires Reachable(queues, s)
    ensures Ok(s)
  {
    var clock, past :| s == Run(queues, Initial(clock), past);
    RunOk(queues, Initial(clock), past);
  }

  lemma StillReachable(queues: set<Platform>, s: State, events: seq<Event>)
    requires Reachable(queues, s)
    ensures Reachable(queues, Run(queues, s, events))
  {
    var clock, past :| s == Run(queues, Initial(clock), past);
    RunConcat(queues, Initial(clock), past, events);
  }

  lemma NextReachable(queues: set<Platform>, s: State, v: Event)
    requires Reachable(queues, s)
    ensures Reachable(queues, Next(queues, s, v))
  {
    StillReachable(queues, s, [v]);
    assert [v][..0] == [];
    assert Run(queues, s, [v]) == Next(queues, s, v);
  }

  lemma CancelWrites(queues: set<Platform>, s: State, p: nat, j: JobId)
    requires p < |s.procs| && s.procs[p] == AdminCancelling(j) && j in s.jobs
    ensures var n := Next(queues, s, Proceed(p));
            n.entries == s.entries && n.jobs == s.jobs[j := Withdrawn(s.jobs[j])]
  {
  }

  lemma CancelAddsNothing(queues: set<Platform>, s: State, p: nat, q: nat, j: JobId)
    requires p < |s.procs| && s.procs[p] == AdminCancelling(j) && j in s.jobs
    ensures WillAddAt(queues, Next(queues, s, Proceed(p)), q, j) <==> WillAddAt(queues, s, q, j)
  {
    var n := Next(queues, s, Proceed(p));
    assert n.procs == s.procs[p := Over];
    if q != p && q < |s.procs| {
      assert n.procs[q] == s.procs[q];
    }
  }

  lemma CancelSettles(queues: set<Platform>, s: State, p: nat, j: JobId)
    requires p < |s.procs| && s.procs[p] == AdminCancelling(j) && j in s.jobs
    ensures Settled(queues, Next(queues, s, Proceed(p)), j)
            <==> (forall e :: !LiveAt(s, e, j)) && (forall q :: !WillAddAt(queues, s, q, j))
  {
    var n := Next(queues, s, Proceed(p));
    assert n.entries == s.entries && n.jobs[j].status == Cancelled;
    forall e ensures LiveAt(n, e, j) <==> LiveAt(s, e, j) {
    }
    forall q ensures WillAddAt(queues, n, q, j) <==> WillAddAt(queues, s, q, j) {
      CancelAddsNothing(queues, s, p, q, j);
    }
  }

  /**
   * An administrator's cancel, once written, keeps the job from any further post exactly if no entry of it is
   * live then and no request or tick is about to add one. That the row reads cancelled plays no part.
   */
  lemma CancelStopsIffQuiet(queues: set<Platform>, s: State, p: nat, j: JobId)
    requires Reachable(queues, s) && p < |s.procs| && s.procs[p] == AdminCancelling(j)
    ensures var n := Next(queues, s, Proceed(p));
            && j in n.jobs && n.jobs[j].status == Cancelled
            && ((forall e :: !LiveAt(s, e, j)) && (forall q :: !WillAddAt(queues, s, q, j)) <==>
                forall events :: Leaves(events, j) ==> PostsOf(Run(queues, n, events), j) <= PostsOf(s, j))
  {
    ReachableOk(queues, s);
    assert ProcOk(s.jobs, s.clock, s.procs[p]);
    var n := Next(queues, s, Proceed(p));
    NextReachable(queues, s, Proceed(p));
    CancelWrites(queues, s, p, j);
    NoFurtherPostIffSettled(queues, n, j);
    CancelSettles(queues, s, p, j);
  }

  // ---- Both failures occur ----

  /** A job published immediately, its entry waiting, whose cancel an administrator has begun. */
  lemma CancelBegun(queues: set<Platform>, clock: int, j: JobId, target: Target, account: string, platform: Platform)
    returns (s: State)
    requires platform in queues
    ensures Reachable(queues, s) && j in s.jobs && s.jobs[j].target == target
    ensures |s.entries| == 1 && s.entries[0] == Entry(j, None, FromRequest, clock, 0, Waiting, 0, 0)
    ensures |s.procs| == 2 && s.procs[1] == AdminCancelling(j)
  {
    var published := PublishedNow(queues, clock, j, target, account, platform);
    s := Next(queues, published, BeginAdminCancel(j));
    NextReachable(queues, published, BeginAdminCancel(j));
  }

  lemma WaitingPosts(queues: set<Platform>, s: State, j: JobId) returns (events: seq<Event>)
    requires Reachable(queues, s) && j in s.jobs && |s.entries| == 1
    requires s.entries[0].job == j && s.entries[0].stage == Waiting && s.entries[0].posts == 0
    ensures PostsOf(s, j) == 0 && Leaves(events, j) && PostsOf(Run(queues, s, events), j) == 1
  {
    ReachableOk(queues, s);
    NeverPosted(j, s.entries);
    assert LiveAt(s, 0, j);
    events := DriveEntry(queues, s, 0, j, 0);
  }

  /** A cancelled job is posted: its worker does not look at the status. */
  lemma CancelledYetPosted(queues: set<Platform>, clock: int, j: JobId, target: Target, account: string,
                           platform: Platform)
    returns (s: State, events: seq<Event>)
    requires platform in queues
    ensures Reachable(queues, s) && j in s.jobs && s.jobs[j].status == Cancelled && PostsOf(s, j) == 0
    ensures Leaves(events, j) && PostsOf(Run(queues, s, events), j) == 1
  {
    var begun := CancelBegun(queues, clock, j, target, account, platform);
    CancelWrites(queues, begun, 1, j);
    NextReachable(queues, begun, Proceed(1));
    s := Next(queues, begun, Proceed(1));
    events := WaitingPosts(queues, s, j);
  }

  /** A job whose entry went out while a cancel was in progress. */
  lemma WentOut(queues: set<Platform>, begun: State, j: JobId, postId: string) returns (s: State)
    requires Reachable(queues, begun) && j in begun.jobs && |begun.entries| == 1
    requires begun.entries[0].job == j && begun.entries[0].stage == Waiting && begun.entries[0].posts == 0
    ensures Reachable(queues, s) && s.procs == begun.procs
    ensures j in s.jobs && s.jobs[j].status == Published && s.jobs[j].externalPostId == Some(postId)
    ensures PostsOf(s, j) == 1
  {
    var t := Try(true, Fresh, Accept(postId));
    AttemptIsFourSteps(queues, begun, 0, t);
    StillReachable(queues, begun, Steps(0, t));
    s := Run(queues, begun, Steps(0, t));
    OnePost(s.entries, j);
  }

  lemma OnePost(entries: seq<Entry>, j: JobId)
    requires |entries| == 1 && entries[0].job == j && entries[0].posts == 1
    ensures Sum(Posts(j), entries) == 1
  {
    assert Sum(Posts(j), entries[..0]) == 0;
  }

  /** A published job is cancelled: it went out between the cancel's check and its write. */
  lemma PublishedYetCancelled(queues: set<Platform>, clock: int, j: JobId, target: Target, account: string,
                              platform: Platform, postId: string)
    returns (s: State, p: nat)
    requires platform in queues
    ensures Reachable(queues, s) && p < |s.procs| && s.procs[p] == AdminCancelling(j)
    ensures j in s.jobs && s.jobs[j].status == Published && s.jobs[j].externalPostId == Some(postId)
    ensures var n := Next(queues, s, Proceed(p));
            n.jobs[j].status == Cancelled && n.jobs[j].externalPostId == Some(postId) && PostsOf(n, j) == 1
  {
    var begun := CancelBegun(queues, clock, j, target, account, platform);
    s := WentOut(queues, begun, j, postId);
    p := 1;
    CancelWrites(queues, s, p, j);
  }
}
