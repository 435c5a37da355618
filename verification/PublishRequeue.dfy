/**
 * When an administrator's requeue can post a job twice. The service only refuses a job that reads
 * `published`; what decides is whether anything else can still post the job, or already has.
 */
module PublishRequeue {
  import opened Options
  import opened Sequences
  import opened PublishJobs
  import opened PublishProtocol
  import opened PublishLedger

  /** An entry whose worker may still call the adapter. */
  predicate Live(x: Entry)
  {
    match x.stage
    case Waiting => true
    case Started => true
    case Ready => true
    case Refused(_) => !IsFinal(x.attemptsMade, ATTEMPTS)
    case _ => false
  }

  /** Never posted, nothing queued, running or about to be queued, and not waiting for its time. */
  ghost predicate Clean(s: State, j: JobId)
  {
    && (forall e :: 0 <= e < |s.entries| && s.entries[e].job == j ==> s.entries[e].posts == 0 && !Live(s.entries[e]))
    && (forall p, source :: 0 <= p < |s.procs| ==> !WillAdd(s.procs[p], j, source))
    && (j in s.jobs ==> s.jobs[j].status != Scheduled)
  }

  // ---- The posts a job may still come to ----

  function Promise(j: JobId): Entry -> int { (x: Entry) => if x.job == j then x.posts + One(Live(x)) else 0 }

  function Waits(jobs: map<JobId, Row>, j: JobId): int { One(j in jobs && jobs[j].status == Scheduled) }

  /** Requests and ticks about to add an entry for `j`; a tick does so only if the platform is served by a queue. */
  function Coming(j: JobId, served: bool): Proc -> int
  {
    (q: Proc) => One(WillAdd(q, j, FromRequest)) + One(WillAdd(q, j, FromRequeue))
                 + One(served && WillAdd(q, j, FromDispatch))
  }

  predicate Served(queues: set<Platform>, s: State, j: JobId) { j in s.jobs && s.jobs[j].platform in queues }

  function Potential(s: State, j: JobId, served: bool): int
  {
    Sum(Promise(j), s.entries) + Sum(Coming(j, served), s.procs) + if served then Waits(s.jobs, j) else 0
  }

  /** What a change adds to the potential. */
  function Gain(s: State, c: Change, j: JobId, served: bool): int
  {
    Delta(Promise(j), s.entries, c.entries) + Delta(Coming(j, served), s.procs, c.procs)
    + if served then Waits(s.jobs + c.rows, j) - Waits(s.jobs, j) else 0
  }

  lemma PotentialAfter(s: State, c: Change, j: JobId, served: bool)
    ensures Potential(Apply(s, c), j, served) == Potential(s, j, served) + Gain(s, c, j, served)
  {
    SumEdited(Promise(j), s.entries, c.entries);
    SumEdited(Coming(j, served), s.procs, c.procs);
  }

  lemma TickGains(queues: set<Platform>, s: State, p: nat, j: JobId)
    requires Ok(s) && p < |s.procs| && s.procs[p].Tick?
    ensures Gain(s, TickStep(queues, s, p, s.procs[p]), j, Served(queues, s, j)) <= 0
  {
    assert ProcOk(s.jobs, s.clock, s.procs[p]);
  }

  lemma ProcGains(queues: set<Platform>, s: State, p: nat, j: JobId)
    requires Ok(s) && p < |s.procs|
    ensures Gain(s, ProcStep(queues, s, p, s.procs[p]), j, Served(queues, s, j)) <= 0
  {
    if s.procs[p].Tick? {
      TickGains(queues, s, p, j);
    }
  }

  lemma WorkerGains(s: State, v: Event, j: JobId, served: bool)
    requires Ok(s) && (v.Start? || v.CheckToken? || v.Call? || v.Record?)
    ensures Gain(s, WorkerStep(s, v), j, served) <= 0
  {
    WorkerLegal(s, v);
    WorkerOnlyProgress(s, v);
    if v.e < |s.entries| {
      assert EntryOk(s.jobs, s.clock, s.entries[v.e]);
      WorkerPromises(s, v, j);
    }
  }

  lemma WorkerPromises(s: State, v: Event, j: JobId)
    requires v.Start? || v.CheckToken? || v.Call? || v.Record?
    requires v.e < |s.entries|
    ensures var c := WorkerStep(s, v); !c.entries.Keep? ==> Promise(j)(c.entries.item) <= Promise(j)(s.entries[v.e])
  {
  }

  /** Only a requeue adds to what an existing job may still come to. */
  lemma StepGains(queues: set<Platform>, s: State, v: Event, j: JobId)
    requires Ok(s) && j in s.jobs && v != BeginRequeue(j)
    ensures Gain(s, StepOf(queues, s, v), j, Served(queues, s, j)) <= 0
  {
    match v
    case Proceed(p) => if p < |s.procs| { ProcGains(queues, s, p, j); }
    case Start(_, _) => WorkerGains(s, v, j, Served(queues, s, j));
    case CheckToken(_, _) => WorkerGains(s, v, j, Served(queues, s, j));
    case Call(_, _) => WorkerGains(s, v, j, Served(queues, s, j));
    case Record(_) => WorkerGains(s, v, j, Served(queues, s, j));
    case _ =>
  }

  predicate Leaves(events: seq<Event>, j: JobId) { BeginRequeue(j) !in events }

  lemma {:induction false} RunGains(queues: set<Platform>, s: State, events: seq<Event>, j: JobId)
    requires Ok(s) && j in s.jobs && Leaves(events, j)
    ensures Ok(Run(queues, s, events)) && j in Run(queues, s, events).jobs
    ensures Served(queues, Run(queues, s, events), j) == Served(queues, s, j)
    ensures Potential(Run(queues, s, events), j, Served(queues, s, j)) <= Potential(s, j, Served(queues, s, j))
  {
    if |events| != 0 {
      var front, v := events[..|events| - 1], events[|events| - 1];
      RunGains(queues, s, front, j);
      var m := Run(queues, s, front);
      NextOk(queues, m, v);
      StepFollows(queues, m, v);
      StepGains(queues, m, v, j);
      PotentialAfter(m, StepOf(queues, m, v), j, Served(queues, s, j));
    }
  }

  /** With no live entry only the posts made count, and with no request about to add one nothing comes. */
  lemma {:induction false} SettledSum(j: JobId, entries: seq<Entry>)
    requires forall e :: 0 <= e < |entries| && entries[e].job == j ==> !Live(entries[e])
    ensures Sum(Promise(j), entries) == Sum(Posts(j), entries)
  {
    if |entries| != 0 {
      SettledSum(j, entries[..|entries| - 1]);
    }
  }

  lemma {:induction false} NothingComes(j: JobId, served: bool, procs: seq<Proc>)
    requires forall p :: 0 <= p < |procs| ==> Coming(j, served)(procs[p]) == 0
    ensures Sum(Coming(j, served), procs) == 0
  {
    if |procs| != 0 {
      NothingComes(j, served, procs[..|procs| - 1]);
    }
  }

  lemma {:induction false} NeverPosted(j: JobId, entries: seq<Entry>)
    requires forall e :: 0 <= e < |entries| && entries[e].job == j ==> entries[e].posts == 0
    ensures Sum(Posts(j), entries) == 0
  {
    if |entries| != 0 {
      NeverPosted(j, entries[..|entries| - 1]);
    }
  }

  lemma {:induction false} PostsPromised(j: JobId, entries: seq<Entry>)
    ensures Sum(Posts(j), entries) <= Sum(Promise(j), entries)
  {
    if |entries| != 0 {
      PostsPromised(j, entries[..|entries| - 1]);
    }
  }

  lemma RequeuedPotential(queues: set<Platform>, s: State, j: JobId)
    requires Ok(s) && j in s.jobs && Clean(s, j)
    ensures var n := Next(queues, s, BeginRequeue(j));
            Ok(n) && j in n.jobs && Potential(n, j, Served(queues, n, j)) <= 1
  {
    NextOk(queues, s, BeginRequeue(j));
    SettledSum(j, s.entries);
    NeverPosted(j, s.entries);
    forall p | 0 <= p < |s.procs| ensures Coming(j, Served(queues, s, j))(s.procs[p]) == 0 {
      assert !WillAdd(s.procs[p], j, FromRequest) && !WillAdd(s.procs[p], j, FromRequeue);
      assert !WillAdd(s.procs[p], j, FromDispatch);
    }
    NothingComes(j, Served(queues, s, j), s.procs);
    PotentialAfter(s, StepOf(queues, s, BeginRequeue(j)), j, Served(queues, s, j));
  }

  /** The requeue of a clean job, and any run after it, posts the job at most once. */
  lemma CleanRequeueIsSafe(queues: set<Platform>, s: State, j: JobId, events: seq<Event>)
    requires Ok(s) && j in s.jobs && Clean(s, j) && Leaves(events, j)
    ensures Sum(Posts(j), Run(queues, Next(queues, s, BeginRequeue(j)), events).entries) <= 1
  {
    var n := Next(queues, s, BeginRequeue(j));
    RequeuedPotential(queues, s, j);
    RunGains(queues, n, events, j);
    PostsPromised(j, Run(queues, n, events).entries);
    SumAtLeast(Coming(j, Served(queues, n, j)), Run(queues, n, events).procs);
  }

  // ---- Carrying out what may still happen ----

  /** The run goes on from `s` without another requeue of `j`, and no other request moves. */
  ghost predicate Continues(queues: set<Platform>, s: State, events: seq<Event>, j: JobId, p: nat)
  {
    var n := Run(queues, s, events);
    && Leaves(events, j)
    && Ok(n)
    && Follows(s.jobs, n.jobs)
    && |s.procs| <= |n.procs|
    && forall q :: 0 <= q < |s.procs| && q != p ==> n.procs[q] == s.procs[q]
  }

  lemma ContinuesOn(queues: set<Platform>, s: State, xs: seq<Event>, ys: seq<Event>, j: JobId, p: nat)
    requires Continues(queues, s, xs, j, p) && Continues(queues, Run(queues, s, xs), ys, j, p)
    ensures Continues(queues, s, xs + ys, j, p)
    ensures Run(queues, s, xs + ys) == Run(queues, Run(queues, s, xs), ys)
  {
    RunConcat(queues, s, xs, ys);
  }

  lemma OneStep(queues: set<Platform>, s: State, v: Event, j: JobId)
    requires Ok(s) && v != BeginRequeue(j)
    ensures Run(queues, s, [v]) == Next(queues, s, v)
    ensures Leaves([v], j) && Ok(Next(queues, s, v)) && Follows(s.jobs, Next(queues, s, v).jobs)
    ensures |s.procs| <= |Next(queues, s, v).procs|
    ensures forall q :: 0 <= q < |s.procs| && v != Proceed(q) ==> Next(queues, s, v).procs[q] == s.procs[q]
  {
    assert [v][..0] == [];
    NextOk(queues, s, v);
    StepFollows(queues, s, v);
    OthersStand(queues, s, v);
  }

  lemma OthersStand(queues: set<Platform>, s: State, v: Event)
    ensures |s.procs| <= |Next(queues, s, v).procs|
    ensures forall q :: 0 <= q < |s.procs| && v != Proceed(q) ==> Next(queues, s, v).procs[q] == s.procs[q]
  {
    if v.Start? || v.CheckToken? || v.Call? || v.Record? {
      WorkerOnlyProgress(s, v);
    }
  }

  function PostsOf(s: State, j: JobId): int { Sum(Posts(j), s.entries) }

  ghost predicate LiveAt(s: State, e: nat, j: JobId)
  {
    e < |s.entries| && s.entries[e].job == j && j in s.jobs && Live(s.entries[e])
  }

  /** The step that brings a live entry closer to its post. */
  function Push(x: Entry, e: nat): Event
    requires Live(x)
  {
    match x.stage
    case Waiting => Start(e, true)
    case Started => CheckToken(e, Fresh)
    case Ready => Call(e, Accept(""))
    case _ => Record(e)
  }

  function Remaining(x: Entry): nat
  {
    match x.stage
    case Ready => 0
    case Started => 1
    case Waiting => 2
    case _ => 3
  }

  ghost predicate CloserAt(s: State, n: State, e: nat, j: JobId)
  {
    && LiveAt(s, e, j) && LiveAt(n, e, j)
    && Remaining(n.entries[e]) < Remaining(s.entries[e]) && PostsOf(n, j) == PostsOf(s, j)
  }

  lemma PushWorks(queues: set<Platform>, s: State, e: nat, j: JobId)
    requires Ok(s) && LiveAt(s, e, j)
    ensures var n := Next(queues, s, Push(s.entries[e], e));
            && n.procs == s.procs && |n.entries| == |s.entries|
            && if s.entries[e].stage == Ready then PostsOf(n, j) == PostsOf(s, j) + 1
               else CloserAt(s, n, e, j)
  {
    var v := Push(s.entries[e], e);
    SumEdited(Posts(j), s.entries, StepOf(queues, s, v).entries);
  }

  /** A live entry can come to a post, with every request standing still. */
  lemma {:induction false} DriveEntry(queues: set<Platform>, s: State, e: nat, j: JobId, p: nat)
    returns (events: seq<Event>)
    requires Ok(s) && LiveAt(s, e, j)
    ensures Continues(queues, s, events, j, p) && PostsOf(Run(queues, s, events), j) == PostsOf(s, j) + 1
    ensures Run(queues, s, events).procs == s.procs
    decreases Remaining(s.entries[e])
  {
    var v := Push(s.entries[e], e);
    var n := Next(queues, s, v);
    PushWorks(queues, s, e, j);
    OneStep(queues, s, v, j);
    events := [v];
    if s.entries[e].stage != Ready {
      var rest := DriveEntry(queues, n, e, j, p);
      ContinuesOn(queues, s, [v], rest, j, p);
      events := [v] + rest;
    }
  }

  ghost predicate WillAddAt(queues: set<Platform>, s: State, p: nat, j: JobId)
  {
    && p < |s.procs| && j in s.jobs
    && exists source :: WillAdd(s.procs[p], j, source) && (source == FromDispatch ==> s.jobs[j].platform in queues)
  }

  lemma AddingWorks(queues: set<Platform>, s: State, p: nat, j: JobId)
    requires Ok(s) && WillAddAt(queues, s, p, j)
    ensures var n := Next(queues, s, Proceed(p));
            || (|n.entries| == |s.entries| + 1 && LiveAt(n, |s.entries|, j) && PostsOf(n, j) == PostsOf(s, j))
            || (s.procs[p] == Requeuing(j, false) && WillAddAt(queues, n, p, j) && n.procs[p] == Requeuing(j, true)
                && PostsOf(n, j) == PostsOf(s, j))
  {
    SumEdited(Posts(j), s.entries, StepOf(queues, s, Proceed(p)).entries);
    var n := Next(queues, s, Proceed(p));
    assert ProcOk(s.jobs, s.clock, s.procs[p]);
    if s.procs[p] == Requeuing(j, false) {
      assert n.procs[p] == Requeuing(j, true);
      assert WillAdd(n.procs[p], j, FromRequeue);
    } else {
      assert |n.entries| == |s.entries| + 1;
    }
  }

  /** A request that is about to add an entry can come to a post. */
  lemma DriveAdding(queues: set<Platform>, s: State, p: nat, j: JobId) returns (events: seq<Event>)
    requires Ok(s) && WillAddAt(queues, s, p, j)
    ensures Continues(queues, s, events, j, p) && PostsOf(Run(queues, s, events), j) == PostsOf(s, j) + 1
    decreases s.procs[p] == Requeuing(j, false)
  {
    var v := Proceed(p);
    var n := Next(queues, s, v);
    AddingWorks(queues, s, p, j);
    OneStep(queues, s, v, j);
    var rest;
    if |n.entries| == |s.entries| + 1 {
      rest := DriveEntry(queues, n, |s.entries|, j, p);
    } else {
      rest := DriveAdding(queues, n, p, j);
    }
    ContinuesOn(queues, s, [v], rest, j, p);
    events := [v] + rest;
  }

  /** The elements of a finite set, each once, in some order. */
  lemma {:induction false} Listing(jobs: set<JobId>) returns (list: seq<JobId>)
    ensures forall k :: k in list <==> k in jobs
    ensures forall i, k :: 0 <= i < k < |list| ==> list[i] != list[k]
    decreases jobs
  {
    if jobs == {} {
      return [];
    }
    var x :| x in jobs;
    var rest := Listing(jobs - {x});
    return [x] + rest;
  }

  lemma SnapshotFrom(jobs: map<JobId, Row>, now: int, j: JobId) returns (due: seq<JobId>)
    requires j in jobs && IsDue(jobs[j], now)
    ensures IsSnapshot(jobs, now, due) && |due| > 0 && due[0] == j
  {
    var rest := set k | k in jobs && IsDue(jobs[k], now) && k != j;
    var others := Listing(rest);
    assert forall k :: 0 <= k < |others| ==> others[k] in rest;
    due := [j] + others;
    forall i, k | 0 <= i < k < |due| ensures due[i] != due[k] {
      assert due[k] == others[k - 1];
    }
    forall k ensures k in due <==> k in jobs && IsDue(jobs[k], now) {
      assert k in due <==> k == j || k in others;
      assert k in others <==> k in rest;
    }
  }

  /** A claim made by a tick that runs next. */
  lemma TickClaims(queues: set<Platform>, s: State, j: JobId, due: seq<JobId>)
    requires Ok(s) && j in s.jobs && s.jobs[j].platform in queues && IsDue(s.jobs[j], s.clock)
    requires IsSnapshot(s.jobs, s.clock, due) && |due| > 0 && due[0] == j
    ensures var n := Next(queues, Next(queues, s, BeginTick(s.clock, due)), Proceed(|s.procs|));
            WillAddAt(queues, n, |s.procs|, j) && n.entries == s.entries
  {
    var t := Next(queues, s, BeginTick(s.clock, due));
    var n := Next(queues, t, Proceed(|s.procs|));
    assert t.procs[|s.procs|] == Tick(s.clock, due, 0, false, 0);
    assert n.procs[|s.procs|] == Tick(s.clock, due, 0, true, 0);
    assert WillAdd(n.procs[|s.procs|], j, FromDispatch);
  }

  lemma DriveDue(queues: set<Platform>, s: State, j: JobId) returns (events: seq<Event>)
    requires Ok(s) && j in s.jobs && s.jobs[j].platform in queues && IsDue(s.jobs[j], s.clock)
    ensures Continues(queues, s, events, j, |s.procs|) && PostsOf(Run(queues, s, events), j) == PostsOf(s, j) + 1
  {
    var p := |s.procs|;
    var due := SnapshotFrom(s.jobs, s.clock, j);
    var v, w := BeginTick(s.clock, due), Proceed(p);
    var t := Next(queues, s, v);
    var n := Next(queues, t, w);
    TickClaims(queues, s, j, due);
    OneStep(queues, s, v, j);
    OneStep(queues, t, w, j);
    var rest := DriveAdding(queues, n, p, j);
    ContinuesOn(queues, t, [w], rest, j, p);
    ContinuesOn(queues, s, [v], [w] + rest, j, p);
    events := [v] + ([w] + rest);
  }

  /** A scheduled job can come to a post: its time comes, a tick claims it. */
  lemma DriveScheduled(queues: set<Platform>, s: State, j: JobId) returns (events: seq<Event>)
    requires Ok(s) && j in s.jobs && s.jobs[j].platform in queues && s.jobs[j].status == Scheduled
    ensures Continues(queues, s, events, j, |s.procs|) && PostsOf(Run(queues, s, events), j) == PostsOf(s, j) + 1
  {
    assert RowOk(s.jobs, s.decisions, j);
    var wait := s.jobs[j].scheduledAt.value - s.clock;
    var v := Elapse(if wait > 0 then wait else 0);
    OneStep(queues, s, v, j);
    var n := Next(queues, s, v);
    var rest := DriveDue(queues, n, j);
    ContinuesOn(queues, s, [v], rest, j, |s.procs|);
    events := [v] + rest;
  }

  /** Whatever is not clean about a job can come to a post before the requeue does. */
  lemma DriveUnclean(queues: set<Platform>, s: State, j: JobId, p: nat) returns (events: seq<Event>, q: nat)
    requires Ok(s) && j in s.jobs && s.jobs[j].platform in queues
    requires p < |s.procs| && (forall e :: 0 <= e < |s.entries| && s.entries[e].job == j ==> s.entries[e].posts == 0)
    requires
      || (exists e :: LiveAt(s, e, j))
      || (exists k :: k != p && WillAddAt(queues, s, k, j))
      || s.jobs[j].status == Scheduled
    ensures Continues(queues, s, events, j, q) && q != p && PostsOf(Run(queues, s, events), j) == PostsOf(s, j) + 1
  {
    if e :| LiveAt(s, e, j) {
      q := p + 1;
      events := DriveEntry(queues, s, e, j, q);
    } else if k :| k != p && WillAddAt(queues, s, k, j) {
      q := k;
      events := DriveAdding(queues, s, k, j);
    } else {
      q := |s.procs|;
      events := DriveScheduled(queues, s, j);
    }
  }

  /** Posts are never taken back. */
  lemma PostsStay(queues: set<Platform>, s: State, j: JobId, e: nat)
    requires Ok(s) && e < |s.entries| && s.entries[e].job == j && s.entries[e].posts >= 1
    ensures PostsOf(s, j) >= 1
  {
    SumAtLeast(Posts(j), s.entries);
    assert Posts(j)(s.entries[e]) >= 1;
  }

  /** The requeue of a job that is not clean can be followed by two posts, without a further requeue. */
  lemma UncleanRequeueCanDoublePost(queues: set<Platform>, s: State, j: JobId) returns (events: seq<Event>)
    requires Ok(s) && j in s.jobs && s.jobs[j].status != Published && s.jobs[j].platform in queues && !Clean(s, j)
    ensures Leaves(events, j)
    ensures PostsOf(Run(queues, Next(queues, s, BeginRequeue(j)), events), j) >= 2
  {
    var n, p := Next(queues, s, BeginRequeue(j)), |s.procs|;
    NextOk(queues, s, BeginRequeue(j));
    assert n.procs[p] == Requeuing(j, false) && WillAdd(n.procs[p], j, FromRequeue);
    if e :| 0 <= e < |s.entries| && s.entries[e].job == j && s.entries[e].posts >= 1 {
      PostsStay(queues, n, j, e);
      events := DriveAdding(queues, n, p, j);
    } else {
      StillUnclean(queues, s, j);
      var first, q := DriveUnclean(queues, n, j, p);
      SumAtLeast(Posts(j), n.entries);
      var m := Run(queues, n, first);
      assert m.procs[p] == Requeuing(j, false);
      var rest := DriveAdding(queues, m, p, j);
      RunConcat(queues, n, first, rest);
      events := first + rest;
    }
  }

  lemma StillUnclean(queues: set<Platform>, s: State, j: JobId)
    requires j in s.jobs && s.jobs[j].status != Published && s.jobs[j].platform in queues && !Clean(s, j)
    requires forall e :: 0 <= e < |s.entries| && s.entries[e].job == j ==> s.entries[e].posts == 0
    ensures var n := Next(queues, s, BeginRequeue(j));
            || (exists e :: LiveAt(n, e, j))
            || (exists k :: k != |s.procs| && WillAddAt(queues, n, k, j))
            || n.jobs[j].status == Scheduled
  {
    var n := Next(queues, s, BeginRequeue(j));
    if e :| 0 <= e < |s.entries| && s.entries[e].job == j && Live(s.entries[e]) {
      assert LiveAt(n, e, j);
    } else if p, source :| 0 <= p < |s.procs| && WillAdd(s.procs[p], j, source) {
      assert n.procs[p] == s.procs[p];
      assert WillAddAt(queues, n, p, j);
    }
  }

  /**
   * A requeue that the service lets through is safe exactly when the job is clean. The documented promise,
   * that a published job is never run again, needs this condition: `status != published` does not suffice.
   */
  lemma RequeueSafeIffClean(queues: set<Platform>, s: State, j: JobId)
    requires Reachable(queues, s)
    requires j in s.jobs && s.jobs[j].status != Published && s.jobs[j].platform in queues
    ensures Clean(s, j) <==>
            forall events :: Leaves(events, j) ==>
                PostsOf(Run(queues, Next(queues, s, BeginRequeue(j)), events), j) <= 1
  {
    var clock, past :| s == Run(queues, Initial(clock), past);
    RunOk(queues, Initial(clock), past);
    if Clean(s, j) {
      forall events | Leaves(events, j)
        ensures PostsOf(Run(queues, Next(queues, s, BeginRequeue(j)), events), j) <= 1
      {
        CleanRequeueIsSafe(queues, s, j, events);
      }
    } else {
      var events := UncleanRequeueCanDoublePost(queues, s, j);
      assert Leaves(events, j);
    }
  }

  /** An immediate publish, step by step. */
  lemma PublishSteps(queues: set<Platform>, clock: int, j: JobId, target: Target, account: string, platform: Platform)
    requires platform in queues
    ensures var rows := map[j := Immediate(target, account, platform)];
            var created := State(clock, rows, [], [Publishing(j, None)], multiset{});
            && Next(queues, Initial(clock), PublishNow(j, target, account, platform, None)) == created
            && Next(queues, created, Proceed(0))
               == State(clock, rows, [Entry(j, None, FromRequest, clock, 0, Waiting, 0, 0)], [Over], multiset{})
  {
  }

  /** The state right after an immediate publish: one queued row and its waiting entry. */
  lemma PublishedNow(queues: set<Platform>, clock: int, j: JobId, target: Target, account: string,
                     platform: Platform)
    returns (s: State)
    requires platform in queues
    ensures Reachable(queues, s) && Ok(s)
    ensures j in s.jobs && s.jobs[j].status == Queued && s.jobs[j].platform in queues
    ensures s.jobs[j].target == target
    ensures s.entries == [Entry(j, None, FromRequest, clock, 0, Waiting, 0, 0)] && s.procs == [Over]
  {
    var v, w := PublishNow(j, target, account, platform, None), Proceed(0);
    PublishSteps(queues, clock, j, target, account, platform);
    TwoSteps(queues, Initial(clock), v, w);
    RunOk(queues, Initial(clock), [v, w]);
    s := Run(queues, Initial(clock), [v, w]);
  }

  /**
   * Such jobs occur: one published immediately, its entry waiting, passes the service's check and is not
   * clean; requeued, it can be posted twice.
   */
  lemma UncleanIsReachable(queues: set<Platform>, clock: int, j: JobId, target: Target, account: string,
                           platform: Platform)
    returns (s: State, events: seq<Event>)
    requires platform in queues
    ensures Reachable(queues, s) && j in s.jobs && s.jobs[j].status == Queued && s.jobs[j].platform in queues
    ensures !Clean(s, j)
    ensures Leaves(events, j) && PostsOf(Run(queues, Next(queues, s, BeginRequeue(j)), events), j) >= 2
  {
    s := PublishedNow(queues, clock, j, target, account, platform);
    assert Live(s.entries[0]);
    events := UncleanRequeueCanDoublePost(queues, s, j);
  }
}
