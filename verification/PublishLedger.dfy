/** Every queue entry is accounted for, whatever the interleaving. */
module PublishLedger {
  import opened Sequences
  import opened PublishJobs
  import opened PublishProtocol

  function One(b: bool): int { if b then 1 else 0 }

  function EntriesOf(j: JobId, source: Source): Entry -> int { (x: Entry) => One(x.job == j && x.source == source) }

  predicate WillAdd(q: Proc, j: JobId, source: Source)
  {
    match source
    case FromRequest => q.Publishing? && q.job == j
    case FromDispatch => q.Tick? && q.claimed && q.pos < |q.due| && q.due[q.pos] == j
    case FromRequeue => q.Requeuing? && q.job == j
  }

  /** Running requests and ticks that have still to add an entry for `j`. */
  function Adding(j: JobId, source: Source): Proc -> int { (q: Proc) => One(WillAdd(q, j, source)) }

  predicate IsImmediate(s: State, j: JobId) { j in s.jobs && s.jobs[j].scheduledAt.None? }

  /** How many entries the decisions about `j` call for. */
  function Owed(s: State, j: JobId, source: Source): int
  {
    match source
    case FromRequest => One(IsImmediate(s, j))
    case FromDispatch => var claims: int := s.decisions[Claim(j)]; claims - s.decisions[Drop(j)]
    case FromRequeue => s.decisions[Requeue(j)]
  }

  ghost predicate Balanced(s: State, j: JobId, source: Source)
  {
    Sum(EntriesOf(j, source), s.entries) + Sum(Adding(j, source), s.procs) == Owed(s, j, source)
  }

  ghost predicate Balances(s: State, c: Change, j: JobId, source: Source)
  {
    Delta(EntriesOf(j, source), s.entries, c.entries) + Delta(Adding(j, source), s.procs, c.procs)
    == Owed(Apply(s, c), j, source) - Owed(s, j, source)
  }

  lemma TickBalances(queues: set<Platform>, s: State, p: nat, j: JobId, source: Source)
    requires Ok(s) && p < |s.procs| && s.procs[p].Tick?
    ensures Balances(s, TickStep(queues, s, p, s.procs[p]), j, source)
  {
    assert ProcOk(s.jobs, s.clock, s.procs[p]);
  }

  lemma ProcBalances(queues: set<Platform>, s: State, p: nat, j: JobId, source: Source)
    requires Ok(s) && p < |s.procs|
    ensures Balances(s, ProcStep(queues, s, p, s.procs[p]), j, source)
  {
    if s.procs[p].Tick? {
      TickBalances(queues, s, p, j, source);
    }
  }

  /** A worker changes the progress of one entry, and rows that exist. */
  ghost predicate OnlyProgress(s: State, e: nat, c: Change)
  {
    && c.procs.Keep? && c.decision.None?
    && c.rows.Keys <= s.jobs.Keys
    && (c.entries.Keep?
        || (c.entries.Replace? && c.entries.at == e && e < |s.entries| && SameOrder(s.entries[e], c.entries.item)))
  }

  predicate SameOrder(x: Entry, y: Entry)
  {
    y.job == x.job && y.caption == x.caption && y.source == x.source && y.at == x.at
  }

  lemma WorkerOnlyProgress(s: State, v: Event)
    requires v.Start? || v.CheckToken? || v.Call? || v.Record?
    ensures OnlyProgress(s, v.e, WorkerStep(s, v))
  {
  }

  lemma ProgressBalances(s: State, e: nat, c: Change, j: JobId, source: Source)
    requires OnlyProgress(s, e, c) && LegalRows(s.jobs, c.rows)
    ensures Balances(s, c, j, source)
  {
    LegalRowsFollow(s.jobs, c.rows);
  }

  lemma WorkerBalances(s: State, v: Event, j: JobId, source: Source)
    requires Ok(s) && (v.Start? || v.CheckToken? || v.Call? || v.Record?)
    ensures Balances(s, WorkerStep(s, v), j, source)
  {
    WorkerOnlyProgress(s, v);
    WorkerLegal(s, v);
    ProgressBalances(s, v.e, WorkerStep(s, v), j, source);
  }

  lemma BeginBalances(queues: set<Platform>, s: State, v: Event, j: JobId, source: Source)
    requires Ok(s) && (v.BeginTick? || v.BeginCancel? || v.BeginRequeue? || v.BeginAdminCancel?)
    ensures Balances(s, StepOf(queues, s, v), j, source)
  {
  }

  lemma CreateBalances(queues: set<Platform>, s: State, v: Event, j: JobId, source: Source)
    requires Ok(s) && (v.PublishNow? || v.Schedule?)
    ensures Balances(s, StepOf(queues, s, v), j, source)
  {
    assert RowOk(s.jobs, s.decisions, j);
  }

  lemma OtherBalances(queues: set<Platform>, s: State, v: Event, j: JobId, source: Source)
    requires Ok(s) && (v.Elapse? || v.RemovePost?)
    ensures Balances(s, StepOf(queues, s, v), j, source)
  {
    ProgressBalances(s, 0, StepOf(queues, s, v), j, source);
  }

  lemma StepBalances(queues: set<Platform>, s: State, v: Event, j: JobId, source: Source)
    requires Ok(s)
    ensures Balances(s, StepOf(queues, s, v), j, source)
  {
    match v
    case Proceed(p) => if p < |s.procs| { ProcBalances(queues, s, p, j, source); }
    case Start(_, _) => WorkerBalances(s, v, j, source);
    case CheckToken(_, _) => WorkerBalances(s, v, j, source);
    case Call(_, _) => WorkerBalances(s, v, j, source);
    case Record(_) => WorkerBalances(s, v, j, source);
    case Elapse(_) => OtherBalances(queues, s, v, j, source);
    case RemovePost(_, _) => OtherBalances(queues, s, v, j, source);
    case PublishNow(_, _, _, _, _) => CreateBalances(queues, s, v, j, source);
    case Schedule(_, _, _, _, _, _) => CreateBalances(queues, s, v, j, source);
    case _ => BeginBalances(queues, s, v, j, source);
  }

  lemma NextBalanced(queues: set<Platform>, s: State, v: Event, j: JobId, source: Source)
    requires Ok(s) && Balanced(s, j, source)
    ensures Balanced(Next(queues, s, v), j, source)
  {
    StepBalances(queues, s, v, j, source);
    SumEdited(EntriesOf(j, source), s.entries, StepOf(queues, s, v).entries);
    SumEdited(Adding(j, source), s.procs, StepOf(queues, s, v).procs);
  }

  lemma NextOk(queues: set<Platform>, s: State, v: Event)
    requires Ok(s)
    ensures Ok(Next(queues, s, v))
  {
    StepLegal(queues, s, v);
    LegalKeepsOk(s, StepOf(queues, s, v));
  }

  /** A state reached from an empty database, by any events in any order. */
  ghost predicate Reachable(queues: set<Platform>, s: State)
  {
    exists clock, events :: s == Run(queues, Initial(clock), events)
  }

  ghost predicate AllBalanced(s: State, j: JobId)
  {
    Balanced(s, j, FromRequest) && Balanced(s, j, FromDispatch) && Balanced(s, j, FromRequeue)
  }

  lemma {:induction false} RunInvariant(queues: set<Platform>, clock: int, events: seq<Event>, j: JobId)
    ensures Ok(Run(queues, Initial(clock), events))
    ensures AllBalanced(Run(queues, Initial(clock), events), j)
  {
    if |events| != 0 {
      var s, v := Run(queues, Initial(clock), events[..|events| - 1]), events[|events| - 1];
      RunInvariant(queues, clock, events[..|events| - 1], j);
      NextOk(queues, s, v);
      NextBalanced(queues, s, v, j, FromRequest);
      NextBalanced(queues, s, v, j, FromDispatch);
      NextBalanced(queues, s, v, j, FromRequeue);
    }
  }

  // ---- At most one entry per claim, and one decision per schedule ----

  function AllEntriesOf(j: JobId): Entry -> int { (x: Entry) => One(x.job == j) }

  function AllAdding(j: JobId): Proc -> int
  {
    (q: Proc) => One(WillAdd(q, j, FromRequest)) + One(WillAdd(q, j, FromDispatch)) + One(WillAdd(q, j, FromRequeue))
  }

  lemma {:induction false} BySource(j: JobId, entries: seq<Entry>)
    ensures Sum(AllEntriesOf(j), entries) ==
            Sum(EntriesOf(j, FromRequest), entries) + Sum(EntriesOf(j, FromDispatch), entries)
            + Sum(EntriesOf(j, FromRequeue), entries)
  {
    if |entries| != 0 {
      BySource(j, entries[..|entries| - 1]);
    }
  }

  lemma {:induction false} AddingBySource(j: JobId, procs: seq<Proc>)
    ensures Sum(AllAdding(j), procs) ==
            Sum(Adding(j, FromRequest), procs) + Sum(Adding(j, FromDispatch), procs)
                + Sum(Adding(j, FromRequeue), procs)
  {
    if |procs| != 0 {
      AddingBySource(j, procs[..|procs| - 1]);
    }
  }

  lemma BalancedAccounts(s: State, j: JobId)
    requires Ok(s) && AllBalanced(s, j)
    ensures s.decisions[Claim(j)] + s.decisions[Withdraw(j)] <= 1
    ensures IsImmediate(s, j) ==> s.decisions[Claim(j)] == 0
    ensures Sum(AllEntriesOf(j), s.entries) + Sum(AllAdding(j), s.procs) + s.decisions[Drop(j)]
            == One(IsImmediate(s, j)) + s.decisions[Claim(j)] + s.decisions[Requeue(j)]
  {
    assert RowOk(s.jobs, s.decisions, j);
    BySource(j, s.entries);
    AddingBySource(j, s.procs);
  }

  /**
   * In every interleaving a scheduled job is claimed by a tick or withdrawn by its user at most once
   * altogether, and its queue entries, made and still to be made, are exactly what was decided.
   */
  lemma EntriesAccounted(queues: set<Platform>, s: State, j: JobId)
    requires Reachable(queues, s)
    ensures s.decisions[Claim(j)] + s.decisions[Withdraw(j)] <= 1
    ensures IsImmediate(s, j) ==> s.decisions[Claim(j)] == 0
    ensures Sum(AllEntriesOf(j), s.entries) + Sum(AllAdding(j), s.procs) + s.decisions[Drop(j)]
            == One(IsImmediate(s, j)) + s.decisions[Claim(j)] + s.decisions[Requeue(j)]
  {
    var clock, events :| s == Run(queues, Initial(clock), events);
    RunInvariant(queues, clock, events, j);
    BalancedAccounts(s, j);
  }

  // ---- Posts ----

  function Calls(j: JobId): Entry -> int { (x: Entry) => if x.job == j then x.calls else 0 }

  function Posts(j: JobId): Entry -> int { (x: Entry) => if x.job == j then x.posts else 0 }

  lemma {:induction false} WorkPerEntry(s: State, j: JobId, entries: seq<Entry>)
    requires forall e :: 0 <= e < |entries| ==> EntryOk(s.jobs, s.clock, entries[e])
    ensures 0 <= Sum(Posts(j), entries) <= Sum(AllEntriesOf(j), entries)
    ensures 0 <= Sum(Posts(j), entries) <= Sum(Calls(j), entries) <= ATTEMPTS * Sum(AllEntriesOf(j), entries)
  {
    if |entries| != 0 {
      WorkPerEntry(s, j, entries[..|entries| - 1]);
      assert EntryOk(s.jobs, s.clock, entries[|entries| - 1]);
    }
  }

  /** Unless an administrator requeues it, a job is posted at most once, in at most three adapter calls. */
  lemma NoDoublePost(queues: set<Platform>, s: State, j: JobId)
    requires Reachable(queues, s)
    ensures Sum(Posts(j), s.entries) <= 1 + s.decisions[Requeue(j)]
    ensures Sum(Calls(j), s.entries) <= ATTEMPTS * (1 + s.decisions[Requeue(j)])
  {
    var clock, events :| s == Run(queues, Initial(clock), events);
    RunInvariant(queues, clock, events, j);
    EntriesAccounted(queues, s, j);
    WorkPerEntry(s, j, s.entries);
    SumAtLeast(AllAdding(j), s.procs);
  }

  // ---- The dispatcher ----

  function Dispatches(): Entry -> int { (x: Entry) => One(x.source == FromDispatch) }

  function Reported(): Proc -> int { (q: Proc) => if q.Tick? then q.dispatched else 0 }

  lemma StepReports(queues: set<Platform>, s: State, v: Event)
    ensures var c := StepOf(queues, s, v);
            Delta(Dispatches(), s.entries, c.entries) == Delta(Reported(), s.procs, c.procs)
  {
    if v.Start? || v.CheckToken? || v.Call? || v.Record? {
      WorkerOnlyProgress(s, v);
    }
  }

  lemma {:induction false} RunReports(queues: set<Platform>, clock: int, events: seq<Event>)
    ensures var s := Run(queues, Initial(clock), events); Sum(Dispatches(), s.entries) == Sum(Reported(), s.procs)
  {
    if |events| != 0 {
      var s, v := Run(queues, Initial(clock), events[..|events| - 1]), events[|events| - 1];
      RunReports(queues, clock, events[..|events| - 1]);
      StepReports(queues, s, v);
      SumEdited(Dispatches(), s.entries, StepOf(queues, s, v).entries);
      SumEdited(Reported(), s.procs, StepOf(queues, s, v).procs);
    }
  }

  /**
   * Ticks enqueue nothing before its time, report together exactly the entries they made,
   * and a tick that returns leaves no job of its snapshot scheduled.
   */
  lemma TicksAreSound(queues: set<Platform>, s: State)
    requires Reachable(queues, s)
    ensures forall e :: 0 <= e < |s.entries| && s.entries[e].source == FromDispatch ==>
              DueBy(s.jobs, s.entries[e].job, s.entries[e].at)
    ensures Sum(Dispatches(), s.entries) == Sum(Reported(), s.procs)
    ensures forall p :: 0 <= p < |s.procs| && s.procs[p].Tick? && s.procs[p].pos == |s.procs[p].due| ==>
              forall j :: j in s.procs[p].due ==> Left(s.jobs, j)
  {
    var clock, events :| s == Run(queues, Initial(clock), events);
    RunOk(queues, Initial(clock), events);
    RunReports(queues, clock, events);
    forall e | 0 <= e < |s.entries| && s.entries[e].source == FromDispatch
      ensures DueBy(s.jobs, s.entries[e].job, s.entries[e].at)
    {
      assert EntryOk(s.jobs, s.clock, s.entries[e]);
    }
    forall p | 0 <= p < |s.procs| && s.procs[p].Tick? && s.procs[p].pos == |s.procs[p].due|
      ensures forall j :: j in s.procs[p].due ==> Left(s.jobs, j)
    {
      assert ProcOk(s.jobs, s.clock, s.procs[p]);
    }
  }

  // ---- A withdrawn job ----

  /** Withdrawn by its user and never requeued. */
  predicate Abandoned(s: State, j: JobId) { s.decisions[Withdraw(j)] >= 1 && s.decisions[Requeue(j)] == 0 }

  lemma NothingFor(s: State, j: JobId)
    requires Ok(s) && AllBalanced(s, j) && Abandoned(s, j)
    ensures forall e :: 0 <= e < |s.entries| ==> s.entries[e].job != j
    ensures forall p, source :: 0 <= p < |s.procs| ==> !WillAdd(s.procs[p], j, source)
  {
    assert RowOk(s.jobs, s.decisions, j);
    forall source: Source
      ensures forall e :: 0 <= e < |s.entries| ==> EntriesOf(j, source)(s.entries[e]) <= 0
      ensures forall p :: 0 <= p < |s.procs| ==> Adding(j, source)(s.procs[p]) <= 0
    {
      SumAtLeast(EntriesOf(j, source), s.entries);
      SumAtLeast(Adding(j, source), s.procs);
      assert Balanced(s, j, source);
    }
    forall e | 0 <= e < |s.entries| ensures s.entries[e].job != j {
      assert EntriesOf(j, s.entries[e].source)(s.entries[e]) <= 0;
    }
    forall p, source | 0 <= p < |s.procs| ensures !WillAdd(s.procs[p], j, source) {
      assert Adding(j, source)(s.procs[p]) <= 0;
    }
  }

  predicate StillCancelled(s: State, j: JobId)
  {
    Abandoned(s, j) ==> j in s.jobs && s.jobs[j].status == Cancelled
  }

  lemma ProcKeepsCancelled(queues: set<Platform>, s: State, p: nat, j: JobId)
    requires Ok(s) && AllBalanced(s, j) && StillCancelled(s, j) && p < |s.procs|
    ensures StillCancelled(Apply(s, ProcStep(queues, s, p, s.procs[p])), j)
  {
    if Abandoned(s, j) {
      NothingFor(s, j);
      assert !WillAdd(s.procs[p], j, FromDispatch) && !WillAdd(s.procs[p], j, FromRequeue);
    }
  }

  lemma WorkerKeepsCancelled(s: State, v: Event, j: JobId)
    requires Ok(s) && AllBalanced(s, j) && StillCancelled(s, j)
    requires v.Start? || v.CheckToken? || v.Call? || v.Record?
    ensures StillCancelled(Apply(s, WorkerStep(s, v)), j)
  {
    WorkerOnlyProgress(s, v);
    if Abandoned(s, j) {
      NothingFor(s, j);
    }
  }

  lemma OtherKeepsCancelled(queues: set<Platform>, s: State, v: Event, j: JobId)
    requires Ok(s) && AllBalanced(s, j) && StillCancelled(s, j)
    requires v.PublishNow? || v.Schedule? || v.RemovePost? || v.Elapse?
    ensures StillCancelled(Next(queues, s, v), j)
  {
  }

  lemma StepKeepsCancelled(queues: set<Platform>, s: State, v: Event, j: JobId)
    requires Ok(s) && AllBalanced(s, j) && StillCancelled(s, j)
    ensures StillCancelled(Next(queues, s, v), j)
  {
    match v
    case Proceed(p) => if p < |s.procs| { ProcKeepsCancelled(queues, s, p, j); }
    case Start(_, _) => WorkerKeepsCancelled(s, v, j);
    case CheckToken(_, _) => WorkerKeepsCancelled(s, v, j);
    case Call(_, _) => WorkerKeepsCancelled(s, v, j);
    case Record(_) => WorkerKeepsCancelled(s, v, j);
    case PublishNow(_, _, _, _, _) => OtherKeepsCancelled(queues, s, v, j);
    case Schedule(_, _, _, _, _, _) => OtherKeepsCancelled(queues, s, v, j);
    case RemovePost(_, _) => OtherKeepsCancelled(queues, s, v, j);
    case Elapse(_) => OtherKeepsCancelled(queues, s, v, j);
    case _ =>
  }

  lemma {:induction false} RunKeepsCancelled(queues: set<Platform>, clock: int, events: seq<Event>, j: JobId)
    ensures StillCancelled(Run(queues, Initial(clock), events), j)
  {
    if |events| != 0 {
      RunKeepsCancelled(queues, clock, events[..|events| - 1], j);
      RunInvariant(queues, clock, events[..|events| - 1], j);
      StepKeepsCancelled(queues, Run(queues, Initial(clock), events[..|events| - 1]), events[|events| - 1], j);
    }
  }

  /** A withdrawal that succeeded is final: without a requeue the job stays cancelled and reaches no queue. */
  lemma WithdrawnNeverPosted(queues: set<Platform>, s: State, j: JobId)
    requires Reachable(queues, s) && Abandoned(s, j)
    ensures j in s.jobs && s.jobs[j].status == Cancelled
    ensures forall e :: 0 <= e < |s.entries| ==> s.entries[e].job != j
  {
    var clock, events :| s == Run(queues, Initial(clock), events);
    RunInvariant(queues, clock, events, j);
    RunKeepsCancelled(queues, clock, events, j);
    NothingFor(s, j);
  }
}
