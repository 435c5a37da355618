/** The service's dispatch loop and the protocol's tick are the same computation: one as a method, one in steps. */
module PublishAgreement {
  import opened Options
  import opened Sequences
  import opened PublishJobs
  import opened PublishProtocol
  import opened PublishRules

  /** The orders the entries from position `from` on stand for. */
  function OrdersIn(jobs: map<JobId, Row>, entries: seq<Entry>, from: nat): multiset<Order>
    requires from <= |entries|
    decreases |entries|
  {
    if |entries| == from then multiset{}
    else
      var x := entries[|entries| - 1];
      OrdersIn(jobs, entries[..|entries| - 1], from)
      + if x.job in jobs then multiset{Order(jobs[x.job].platform, x.job, x.caption)} else multiset{}
  }

  lemma OrdersInSnoc(jobs: map<JobId, Row>, entries: seq<Entry>, x: Entry, from: nat)
    requires from <= |entries| && x.job in jobs
    ensures OrdersIn(jobs, entries + [x], from)
            == OrdersIn(jobs, entries, from) + multiset{Order(jobs[x.job].platform, x.job, x.caption)}
  {
    assert (entries + [x])[..|entries|] == entries;
  }

  function Rounds(p: nat, n: nat): seq<Event> { if n == 0 then [] else Rounds(p, n - 1) + [Proceed(p), Proceed(p)] }

  /** The tick of process `p` has gone through `i` jobs since state `s`, alone. */
  ghost predicate TickedAlone(queues: set<Platform>, s: State, n: State, p: nat, now: int, due: seq<JobId>, i: nat)
  {
    && i <= |due| && (forall j :: j in due ==> j in s.jobs)
    && p < |n.procs| && |s.entries| <= |n.entries|
    && n.clock == s.clock
    && n.jobs == DispatchedRows(s.jobs, due[..i], queues)
    && OrdersIn(s.jobs, n.entries, |s.entries|) == OrdersOf(s.jobs, due[..i], queues)
    && n.procs[p] == Tick(now, due, i, false, |n.entries| - |s.entries|)
  }

  ghost predicate JustClaimed(n: State, a: State, p: nat, t: Proc)
  {
    && t.Tick? && t.pos < |t.due| && t.due[t.pos] in n.jobs && p < |n.procs|
    && var j := t.due[t.pos];
    && a.clock == n.clock && a.entries == n.entries
    && a.jobs == n.jobs[j := Claimed(n.jobs[j])]
    && a.procs == n.procs[p := t.(claimed := true)]
  }

  lemma ClaimsAlone(queues: set<Platform>, s: State, p: nat) returns (n: State)
    requires p < |s.procs| && s.procs[p].Tick? && !s.procs[p].claimed
    requires var t := s.procs[p]; t.pos < |t.due| && t.due[t.pos] in s.jobs && s.jobs[t.due[t.pos]].status == Scheduled
    ensures n == Next(queues, s, Proceed(p)) && JustClaimed(s, n, p, s.procs[p])
  {
    n := Next(queues, s, Proceed(p));
  }

  ghost predicate JustOrdered(queues: set<Platform>, a: State, b: State, p: nat, t: Proc)
  {
    && t.Tick? && t.pos < |t.due| && t.due[t.pos] in a.jobs && p < |a.procs|
    && var j := t.due[t.pos];
    && var row := a.jobs[j];
    && b.clock == a.clock
    && if row.platform in queues then
         && b.jobs == a.jobs
             && b.entries == a.entries + [Entry(j, row.caption, FromDispatch, a.clock, 0, Waiting, 0, 0)]
         && b.procs == a.procs[p := t.(pos := t.pos + 1, claimed := false, dispatched := t.dispatched + 1)]
       else
         && b.jobs == a.jobs[j := Unqueueable(row)] && b.entries == a.entries
         && b.procs == a.procs[p := t.(pos := t.pos + 1, claimed := false)]
  }

  lemma OrdersAlone(queues: set<Platform>, s: State, p: nat) returns (n: State)
    requires p < |s.procs| && s.procs[p].Tick? && s.procs[p].claimed
    requires var t := s.procs[p]; t.pos < |t.due| && t.due[t.pos] in s.jobs
    ensures n == Next(queues, s, Proceed(p)) && JustOrdered(queues, s, n, p, s.procs[p])
  {
    n := Next(queues, s, Proceed(p));
  }

  /** What a round does to a scheduled job. */
  ghost predicate RoundDone(queues: set<Platform>, n: State, b: State, p: nat, t: Proc)
  {
    && t.Tick? && t.pos < |t.due| && t.due[t.pos] in n.jobs && p < |n.procs|
    && var j := t.due[t.pos];
    && var row := n.jobs[j];
    && b.clock == n.clock
    && b.jobs == n.jobs[j := DispatchedRow(row, queues)]
    && b.entries == n.entries + (if row.platform in queues
                                 then [Entry(j, row.caption, FromDispatch, n.clock, 0, Waiting, 0, 0)] else [])
    && |n.entries| <= |b.entries|
    && b.procs == n.procs[p := t.(pos := t.pos + 1, dispatched := t.dispatched + (|b.entries| - |n.entries|))]
  }

  lemma Together(queues: set<Platform>, n: State, a: State, b: State, p: nat)
    requires p < |n.procs| && n.procs[p].Tick? && !n.procs[p].claimed
    requires JustClaimed(n, a, p, n.procs[p]) && JustOrdered(queues, a, b, p, a.procs[p])
    ensures RoundDone(queues, n, b, p, n.procs[p])
  {
    var t := n.procs[p];
    var j := t.due[t.pos];
    assert a.procs[p] == t.(claimed := true);
    assert b.jobs == n.jobs[j := DispatchedRow(n.jobs[j], queues)];
    assert b.entries == n.entries + (if n.jobs[j].platform in queues
                                     then [Entry(j, n.jobs[j].caption, FromDispatch, n.clock, 0, Waiting, 0, 0)]
                                         else []);
  }

  lemma BothSteps(queues: set<Platform>, n: State, p: nat) returns (b: State)
    requires p < |n.procs| && n.procs[p].Tick? && !n.procs[p].claimed
    requires var t := n.procs[p]; t.pos < |t.due| && t.due[t.pos] in n.jobs && n.jobs[t.due[t.pos]].status == Scheduled
    ensures b == Run(queues, n, [Proceed(p), Proceed(p)])
    ensures RoundDone(queues, n, b, p, n.procs[p])
  {
    TwoSteps(queues, n, Proceed(p), Proceed(p));
    var a := ClaimsAlone(queues, n, p);
    b := OrdersAlone(queues, a, p);
    Together(queues, n, a, b, p);
  }

  lemma OneRound(queues: set<Platform>, s: State, n: State, p: nat, now: int, due: seq<JobId>, i: nat)
    requires IsSnapshot(s.jobs, now, due) && i < |due|
    requires TickedAlone(queues, s, n, p, now, due, i)
    ensures TickedAlone(queues, s, Run(queues, n, [Proceed(p), Proceed(p)]), p, now, due, i + 1)
  {
    DispatchOneMore(s.jobs, now, due, i, queues);
    var b := BothSteps(queues, n, p);
    RoundAdds(queues, s, n, b, p, now, due, i);
  }

  lemma OrderAdded(queues: set<Platform>, jobs: map<JobId, Row>, entries: seq<Entry>, x: Entry, from: nat)
    requires from <= |entries| && x.job in jobs && x.caption == jobs[x.job].caption
    ensures var ordered := jobs[x.job].platform in queues;
            OrdersIn(jobs, entries + (if ordered then [x] else []), from)
            == OrdersIn(jobs, entries, from) + OrdersIf(ordered, jobs, x.job)
  {
    if jobs[x.job].platform in queues {
      OrdersInSnoc(jobs, entries, x, from);
    } else {
      assert entries + [] == entries;
    }
  }

  lemma RoundWrites(queues: set<Platform>, s: State, n: State, b: State, p: nat, now: int, due: seq<JobId>, i: nat)
    requires IsSnapshot(s.jobs, now, due) && i < |due| && due[i] !in due[..i]
    requires TickedAlone(queues, s, n, p, now, due, i) && RoundDone(queues, n, b, p, n.procs[p])
    ensures b.jobs == DispatchedRows(s.jobs, due[..i + 1], queues)
    ensures |s.entries| <= |b.entries|
    ensures OrdersIn(s.jobs, b.entries, |s.entries|) == OrdersOf(s.jobs, due[..i + 1], queues)
  {
    var j, row := due[i], n.jobs[due[i]];
    assert row == s.jobs[j];
    DispatchOneMore(s.jobs, now, due, i, queues);
    OrderAdded(queues, s.jobs, n.entries, Entry(j, row.caption, FromDispatch, n.clock, 0, Waiting, 0, 0), |s.entries|);
  }

  lemma RoundAdds(queues: set<Platform>, s: State, n: State, b: State, p: nat, now: int, due: seq<JobId>, i: nat)
    requires IsSnapshot(s.jobs, now, due) && i < |due| && due[i] !in due[..i]
    requires TickedAlone(queues, s, n, p, now, due, i) && RoundDone(queues, n, b, p, n.procs[p])
    ensures TickedAlone(queues, s, b, p, now, due, i + 1)
  {
    RoundWrites(queues, s, n, b, p, now, due, i);
  }

  lemma {:induction false} RoundsAlone(queues: set<Platform>, s: State, t: State, p: nat, now: int, due: seq<JobId>,
                                       i: nat)
    requires IsSnapshot(s.jobs, now, due) && i <= |due|
    requires TickedAlone(queues, s, t, p, now, due, 0)
    ensures TickedAlone(queues, s, Run(queues, t, Rounds(p, i)), p, now, due, i)
  {
    if i != 0 {
      RoundsAlone(queues, s, t, p, now, due, i - 1);
      RunConcat(queues, t, Rounds(p, i - 1), [Proceed(p), Proceed(p)]);
      OneRound(queues, s, Run(queues, t, Rounds(p, i - 1)), p, now, due, i - 1);
    }
  }

  lemma BeginsAlone(queues: set<Platform>, s: State, now: int, due: seq<JobId>)
    requires now <= s.clock && IsSnapshot(s.jobs, now, due)
    ensures TickedAlone(queues, s, Next(queues, s, BeginTick(now, due)), |s.procs|, now, due, 0)
  {
    assert s.jobs == DispatchedRows(s.jobs, due[..0], queues);
  }

  /** A tick that runs alone leaves the rows and orders that `DispatchDueScheduledJobs` promises undisturbed. */
  lemma TickAlone(queues: set<Platform>, s: State, now: int, due: seq<JobId>)
    requires now <= s.clock && IsSnapshot(s.jobs, now, due)
    ensures var n := Run(queues, Next(queues, s, BeginTick(now, due)), Rounds(|s.procs|, |due|));
            && |s.entries| <= |n.entries| && |s.procs| < |n.procs| && (forall j :: j in due ==> j in s.jobs)
            && n.jobs == DispatchedRows(s.jobs, due, queues)
            && OrdersIn(s.jobs, n.entries, |s.entries|) == OrdersOf(s.jobs, due, queues)
            && n.procs[|s.procs|] == Tick(now, due, |due|, false, |n.entries| - |s.entries|)
  {
    BeginsAlone(queues, s, now, due);
    RoundsAlone(queues, s, Next(queues, s, BeginTick(now, due)), |s.procs|, now, due, |due|);
    WholePrefix(due);
  }

  // ---- The requests' steps write what the service's methods write ----

  lemma CreationSteps(queues: set<Platform>, s: State, j: JobId, target: Target, account: string, platform: Platform,
                      time: int, caption: Caption)
    requires j !in s.jobs && platform in queues
    ensures var n := Next(queues, s, PublishNow(j, target, account, platform, caption));
            && n.jobs == s.jobs[j := Row(target, account, platform, Queued, None, None, 0, None, None)]
            && n.procs == s.procs + [Publishing(j, caption)] && n.entries == s.entries
    ensures var n := Next(queues, s, Schedule(j, target, account, platform, time, caption));
            && n.jobs == s.jobs[j := Row(target, account, platform, Scheduled, Some(time), caption, 0, None, None)]
            && n.procs == s.procs && n.entries == s.entries
  {
  }

  /** The next write or order of a request under way. */
  lemma RequestSteps(queues: set<Platform>, s: State, p: nat, j: JobId)
    requires p < |s.procs| && j in s.jobs
    ensures var n, row := Next(queues, s, Proceed(p)), s.jobs[j];
            match s.procs[p]
            case Publishing(k, caption) =>
              n.jobs == s.jobs && n.entries == s.entries + [Entry(k, caption, FromRequest, s.clock, 0, Waiting, 0, 0)]
            case Cancelling(k) =>
              k == j ==>
                n.entries == s.entries
                && n.jobs == if row.status == Scheduled then s.jobs[j := row.(status := Cancelled)] else s.jobs
            case Requeuing(k, written) =>
              k == j ==>
                if written
                then n.jobs == s.jobs
                     && n.entries == s.entries + [Entry(j, row.caption, FromRequeue, s.clock, 0, Waiting, 0, 0)]
                else n.entries == s.entries && n.jobs == s.jobs[j := row.(status := Queued, lastError := None)]
            case AdminCancelling(k) =>
              k == j ==> n.entries == s.entries && n.jobs == s.jobs[j := row.(status := Cancelled)]
            case Tick(_, _, _, _, _) => true
            case Over => n.jobs == s.jobs && n.entries == s.entries
  {
  }

  /** Which requests get under way. */
  lemma RequestsBegin(queues: set<Platform>, s: State, j: JobId)
    ensures Next(queues, s, BeginCancel(j)).procs
            == s.procs + if j in s.jobs && s.jobs[j].status == Scheduled then [Cancelling(j)] else []
    ensures Next(queues, s, BeginAdminCancel(j)).procs
            == s.procs + if j in s.jobs && s.jobs[j].status != Published then [AdminCancelling(j)] else []
    ensures Next(queues, s, BeginRequeue(j)).procs
            == s.procs + if j in s.jobs && s.jobs[j].status != Published && s.jobs[j].platform in queues
                         then [Requeuing(j, false)] else []
  {
  }

  /** A webhook's removal fails the published rows under that post id on that platform, and no others. */
  lemma RemovalStep(queues: set<Platform>, s: State, platform: Platform, postId: string)
    ensures var n := Next(queues, s, RemovePost(platform, postId));
            && n.jobs.Keys == s.jobs.Keys
            && forall j :: j in s.jobs ==>
                 var row := s.jobs[j];
                 n.jobs[j] == if row.status == Published && row.platform == platform
                                 && row.externalPostId == Some(postId)
                              then row.(status := Failed, lastError := Some(RemovedOn(platform))) else row
  {
  }
}
