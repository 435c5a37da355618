/** Publish jobs under concurrency: every database read, write and queue operation is one step of its own. */
module PublishProtocol {
  import opened Options
  import opened Sequences
  import opened PublishJobs

  datatype Source = FromRequest | FromDispatch | FromRequeue

  /** Where the worker running an entry stands between two awaits. */
  datatype Stage =
    | Waiting
    | Started
    | Ready
    | Posted(postId: string)
    | Refused(message: string)
    | Finished

  /** A queue entry; it is kept when finished. `calls` counts adapter calls, `posts` those that succeeded. */
  datatype Entry = Entry(
    job: JobId, caption: Caption, source: Source, at: int,
    attemptsMade: nat, stage: Stage, calls: nat, posts: nat)

  /** A request or cron tick in progress; kept, in its last state, when it is over. */
  datatype Proc =
    | Tick(now: int, due: seq<JobId>, pos: nat, claimed: bool, dispatched: nat)
    | Publishing(job: JobId, caption: Caption)
    | Cancelling(job: JobId)
    | Requeuing(job: JobId, written: bool)
    | AdminCancelling(job: JobId)
    | Over

  /** What was decided about a job: by a tick, by a user, or by an administrator. */
  datatype Decision = Claim(job: JobId) | Drop(job: JobId) | Withdraw(job: JobId) | Requeue(job: JobId)

  datatype State = State(
    clock: int,
    jobs: map<JobId, Row>,
    entries: seq<Entry>,
    procs: seq<Proc>,
    decisions: multiset<Decision>)

  datatype TokenOutcome = Fresh | Reconnect | TokenError
  datatype AdapterOutcome = Accept(postId: string) | Refuse(message: string)

  datatype Event =
    | Elapse(ms: nat)
    | PublishNow(job: JobId, target: Target, account: string, platform: Platform, caption: Caption)
    | Schedule(job: JobId, target: Target, account: string, platform: Platform, at: int, caption: Caption)
    | BeginTick(now: int, due: seq<JobId>)
    | BeginCancel(job: JobId)
    | BeginRequeue(job: JobId)
    | BeginAdminCancel(job: JobId)
    | Proceed(p: nat)
    | RemovePost(platform: Platform, postId: string)
    | Start(e: nat, complete: bool)
    | CheckToken(e: nat, token: TokenOutcome)
    | Call(e: nat, answer: AdapterOutcome)
    | Record(e: nat)

  // ---- One step is a set of changes made at once ----

  datatype Change = Change(
    rows: map<JobId, Row>,
    procs: Edit<Proc>,
    entries: Edit<Entry>,
    decision: Option<Decision>,
    elapsed: nat)

  const NOTHING := Change(map[], Keep, Keep, None, 0)

  function Decided(decisions: multiset<Decision>, d: Option<Decision>): multiset<Decision>
  {
    if d.Some? then decisions + multiset{d.value} else decisions
  }

  function Apply(s: State, c: Change): State
  {
    State(s.clock + c.elapsed, s.jobs + c.rows, Edited(s.entries, c.entries),
          Edited(s.procs, c.procs), Decided(s.decisions, c.decision))
  }

  // ---- The steps ----

  /** What `findMany` may return: the due jobs, each once, in any order. */
  ghost predicate IsSnapshot(jobs: map<JobId, Row>, now: int, due: seq<JobId>)
  {
    && (forall j :: j in due <==> j in jobs && IsDue(jobs[j], now))
    && (forall i, k :: 0 <= i < k < |due| ==> due[i] != due[k])
  }

  function Added(j: JobId, caption: Caption, source: Source, at: int): Edit<Entry>
  {
    Append(Entry(j, caption, source, at, 0, Waiting, 0, 0))
  }

  /** One iteration of the dispatch loop is two steps: the claim, then the queue (or the missing queue). */
  function TickStep(queues: set<Platform>, s: State, p: nat, t: Proc): Change
    requires t.Tick?
  {
    if t.pos >= |t.due| || t.due[t.pos] !in s.jobs then NOTHING
    else
      var j := t.due[t.pos];
      var row := s.jobs[j];
      var onward := t.(pos := t.pos + 1, claimed := false);
      if !t.claimed then
        if row.status == Scheduled
        then Change(map[j := Claimed(row)], Replace(p, t.(claimed := true)), Keep, Some(Claim(j)), 0)
        else Change(map[], Replace(p, onward), Keep, None, 0)
      else if row.platform !in queues
      then Change(map[j := Unqueueable(row)], Replace(p, onward), Keep, Some(Drop(j)), 0)
      else Change(map[], Replace(p, onward.(dispatched := t.dispatched + 1)),
                  Added(j, row.caption, FromDispatch, s.clock), None, 0)
  }

  function ProcStep(queues: set<Platform>, s: State, p: nat, q: Proc): Change
  {
    match q
    case Tick(_, _, _, _, _) => TickStep(queues, s, p, q)
    case Publishing(j, caption) =>
      Change(map[], Replace(p, Over), Added(j, caption, FromRequest, s.clock), None, 0)
    case Cancelling(j) =>
      // guarded by the status: a tick may have claimed the job since the read
      if j in s.jobs && s.jobs[j].status == Scheduled
      then Change(map[j := Withdrawn(s.jobs[j])], Replace(p, Over), Keep, Some(Withdraw(j)), 0)
      else Change(map[], Replace(p, Over), Keep, None, 0)
    case Requeuing(j, written) =>
      // not guarded
      if j !in s.jobs then NOTHING
      else if written
      then Change(map[], Replace(p, Over), Added(j, s.jobs[j].caption, FromRequeue, s.clock), None, 0)
      else Change(map[j := Requeued(s.jobs[j])], Replace(p, Requeuing(j, true)), Keep, None, 0)
    case AdminCancelling(j) =>
      if j !in s.jobs then NOTHING
      else Change(map[j := Withdrawn(s.jobs[j])], Replace(p, Over), Keep, None, 0)
    case Over => NOTHING
  }

  /** A thrown attempt: the queue runs the entry again until its attempts are used up. */
  function Thrown(x: Entry): Entry
  {
    x.(attemptsMade := x.attemptsMade + 1, stage := if IsFinal(x.attemptsMade, ATTEMPTS) then Finished else Waiting)
  }

  function Work(e: nat, x: Entry): Change { Change(map[], Keep, Replace(e, x), None, 0) }

  function StartStep(e: nat, x: Entry, row: Row, complete: bool): Change
  {
    if x.stage != Waiting then NOTHING
    else if complete then Work(e, x.(stage := Started)).(rows := map[x.job := Begun(row, x.attemptsMade)])
    else Work(e, x.(stage := Finished)).(rows := map[x.job := Doomed(row, DependencyGone)])
  }

  function TokenStep(e: nat, x: Entry, row: Row, token: TokenOutcome): Change
  {
    if x.stage != Started then NOTHING
    else
      match token
      case Fresh => Work(e, x.(stage := Ready))
      case Reconnect => Work(e, x.(stage := Finished)).(rows := map[x.job := Doomed(row, NeedsReconnect)])
      case TokenError => Work(e, Thrown(x))
  }

  function CallStep(e: nat, x: Entry, answer: AdapterOutcome): Change
  {
    if x.stage != Ready then NOTHING
    else
      match answer
      case Accept(id) => Work(e, x.(stage := Posted(id), calls := x.calls + 1, posts := x.posts + 1))
      case Refuse(m) => Work(e, x.(stage := Refused(m), calls := x.calls + 1))
  }

  function RecordStep(e: nat, x: Entry, row: Row): Change
  {
    match x.stage
    case Posted(id) => Work(e, x.(stage := Finished)).(rows := map[x.job := PublishedAs(row, id)])
    case Refused(m) =>
      Work(e, Thrown(x)).(rows := map[x.job := AttemptFailed(row, m, IsFinal(x.attemptsMade, ATTEMPTS))])
    case _ => NOTHING
  }

  function WorkerStep(s: State, v: Event): Change
    requires v.Start? || v.CheckToken? || v.Call? || v.Record?
  {
    if v.e >= |s.entries| || s.entries[v.e].job !in s.jobs then NOTHING
    else
      var x := s.entries[v.e];
      var row := s.jobs[x.job];
      match v
      case Start(e, complete) => StartStep(e, x, row, complete)
      case CheckToken(e, token) => TokenStep(e, x, row, token)
      case Call(e, answer) => CallStep(e, x, answer)
      case Record(e) => RecordStep(e, x, row)
  }

  function AllRemoved(jobs: map<JobId, Row>, platform: Platform, postId: string): map<JobId, Row>
  {
    map j | j in jobs && Removable(jobs[j], platform, postId) :: Removed(jobs[j])
  }

  function Begin(q: Proc): Change { Change(map[], Append(q), Keep, None, 0) }

  /** The step of an event; an event that cannot happen changes nothing. */
  ghost function StepOf(queues: set<Platform>, s: State, v: Event): Change
  {
    match v
    case Elapse(ms) => NOTHING.(elapsed := ms)
    case PublishNow(j, target, account, platform, caption) =>
      if j in s.jobs || platform !in queues then NOTHING
      else Begin(Publishing(j, caption)).(rows := map[j := Immediate(target, account, platform)])
    case Schedule(j, target, account, platform, at, caption) =>
      if j in s.jobs then NOTHING else NOTHING.(rows := map[j := Future(target, account, platform, at, caption)])
    case BeginTick(now, due) =>
      if now <= s.clock && IsSnapshot(s.jobs, now, due) then Begin(Tick(now, due, 0, false, 0)) else NOTHING
    case BeginCancel(j) =>
      if j in s.jobs && s.jobs[j].status == Scheduled then Begin(Cancelling(j)) else NOTHING
    case BeginRequeue(j) =>
      if j in s.jobs && s.jobs[j].status != Published && s.jobs[j].platform in queues
      then Begin(Requeuing(j, false)).(decision := Some(Requeue(j)))
      else NOTHING
    case BeginAdminCancel(j) =>
      if j in s.jobs && s.jobs[j].status != Published then Begin(AdminCancelling(j)) else NOTHING
    case Proceed(p) => if p < |s.procs| then ProcStep(queues, s, p, s.procs[p]) else NOTHING
    case RemovePost(platform, postId) => NOTHING.(rows := AllRemoved(s.jobs, platform, postId))
    case _ => WorkerStep(s, v)
  }

  ghost function Next(queues: set<Platform>, s: State, v: Event): State { Apply(s, StepOf(queues, s, v)) }

  ghost function Run(queues: set<Platform>, s: State, events: seq<Event>): State
  {
    if |events| == 0 then s else Next(queues, Run(queues, s, events[..|events| - 1]), events[|events| - 1])
  }

  lemma {:induction false} RunConcat(queues: set<Platform>, s: State, xs: seq<Event>, ys: seq<Event>)
    ensures Run(queues, s, xs + ys) == Run(queues, Run(queues, s, xs), ys)
  {
    if |ys| == 0 {
      assert xs + ys == xs;
    } else {
      RunConcat(queues, s, xs, ys[..|ys| - 1]);
      assert (xs + ys)[..|xs + ys| - 1] == xs + ys[..|ys| - 1];
    }
  }

  lemma TwoSteps(queues: set<Platform>, s: State, v: Event, w: Event)
    ensures Run(queues, s, [v, w]) == Next(queues, Next(queues, s, v), w)
  {
    assert [v, w][..1] == [v] && [v][..0] == [];
    assert Run(queues, s, [v]) == Next(queues, s, v);
  }

  function Initial(clock: int): State { State(clock, map[], [], [], multiset{}) }

  // ---- What a change may do ----

  /** A stored row keeps its identity and never becomes `Scheduled`; a new one is either scheduled or immediate. */
  ghost predicate LegalRow(jobs: map<JobId, Row>, j: JobId, row: Row)
  {
    if j in jobs then
      && row.scheduledAt == jobs[j].scheduledAt
      && row.platform == jobs[j].platform
      && row.caption == jobs[j].caption
      && row.target == jobs[j].target
      && row.status != Scheduled
    else row.status == Scheduled <==> row.scheduledAt.Some?
  }

  ghost predicate LegalRows(jobs: map<JobId, Row>, rows: map<JobId, Row>)
  {
    forall j :: j in rows ==> LegalRow(jobs, j, rows[j])
  }

  /** Claims and withdrawals need a scheduled row, and end its being scheduled. */
  predicate LegalDecision(jobs: map<JobId, Row>, rows: map<JobId, Row>, d: Decision)
  {
    && d.job in jobs
    && (d.Claim? || d.Withdraw? ==> d.job in rows && jobs[d.job].status == Scheduled)
  }

  /** A job created for `at` or earlier. */
  predicate DueBy(jobs: map<JobId, Row>, j: JobId, at: int)
  {
    j in jobs && jobs[j].scheduledAt.Some? && jobs[j].scheduledAt.value <= at
  }

  /** A job that is no longer scheduled. */
  predicate Left(jobs: map<JobId, Row>, j: JobId) { j in jobs && jobs[j].status != Scheduled }

  ghost predicate ProcOk(jobs: map<JobId, Row>, clock: int, q: Proc)
  {
    match q
    case Tick(now, due, pos, claimed, _) =>
      && now <= clock
      && pos <= |due|
      && (claimed ==> pos < |due| && Left(jobs, due[pos]))
      && (forall k :: 0 <= k < |due| ==> DueBy(jobs, due[k], now))
      && (forall k :: 0 <= k < pos ==> Left(jobs, due[k]))
    case Publishing(j, _) => j in jobs && jobs[j].scheduledAt.None?
    case Cancelling(j) => j in jobs
    case Requeuing(j, _) => j in jobs
    case AdminCancelling(j) => j in jobs
    case Over => true
  }

  ghost predicate EntryOk(jobs: map<JobId, Row>, clock: int, x: Entry)
  {
    && x.job in jobs
    && x.at <= clock
    && (x.source == FromDispatch ==> DueBy(jobs, x.job, x.at))
    && (x.stage != Finished ==> x.attemptsMade < ATTEMPTS)
    && x.attemptsMade + x.posts <= ATTEMPTS
    && x.posts <= x.calls <= x.attemptsMade + x.posts + (if x.stage.Refused? then 1 else 0)
    && x.posts <= 1
    && (x.posts == 1 ==> x.stage.Posted? || x.stage == Finished)
    && (x.stage.Posted? ==> x.posts == 1)
  }

  /** A scheduled job was decided upon by nobody; one decision, by claim or by withdrawal, is final. */
  predicate RowOk(jobs: map<JobId, Row>, decisions: multiset<Decision>, j: JobId)
  {
    && (j !in jobs ==>
          decisions[Claim(j)] == 0 && decisions[Withdraw(j)] == 0 && decisions[Drop(j)] == 0
              && decisions[Requeue(j)] == 0)
    && (j in jobs ==> decisions[Claim(j)] + decisions[Withdraw(j)] <= if jobs[j].scheduledAt.Some? then 1 else 0)
    && (j in jobs && jobs[j].status == Scheduled ==>
          jobs[j].scheduledAt.Some? && decisions[Claim(j)] == 0 && decisions[Withdraw(j)] == 0)
  }

  ghost predicate RowsOk(s: State) { forall j :: RowOk(s.jobs, s.decisions, j) }

  ghost predicate ProcsOk(s: State)
  {
    forall p :: 0 <= p < |s.procs| ==> ProcOk(s.jobs, s.clock, s.procs[p])
  }

  ghost predicate EntriesOk(s: State)
  {
    forall e :: 0 <= e < |s.entries| ==> EntryOk(s.jobs, s.clock, s.entries[e])
  }

  ghost predicate Ok(s: State) { RowsOk(s) && ProcsOk(s) && EntriesOk(s) }

  ghost predicate LegalProc(jobs: map<JobId, Row>, clock: int, c: Edit<Proc>)
  {
    !c.Keep? ==> ProcOk(jobs, clock, c.item)
  }

  ghost predicate LegalEntry(jobs: map<JobId, Row>, clock: int, c: Edit<Entry>)
  {
    !c.Keep? ==> EntryOk(jobs, clock, c.item)
  }

  ghost predicate Legal(s: State, c: Change)
  {
    && LegalRows(s.jobs, c.rows)
    && (c.decision.Some? ==> LegalDecision(s.jobs, c.rows, c.decision.value))
    && LegalProc(s.jobs + c.rows, s.clock + c.elapsed, c.procs)
    && LegalEntry(s.jobs + c.rows, s.clock + c.elapsed, c.entries)
  }

  // ---- Legal changes keep the invariant ----

  /** Rows are never deleted, keep their identity, and never become `Scheduled` again. */
  ghost predicate Follows(jobs: map<JobId, Row>, jobs': map<JobId, Row>)
  {
    forall j :: j in jobs ==>
      && j in jobs'
      && jobs'[j].scheduledAt == jobs[j].scheduledAt
      && jobs'[j].platform == jobs[j].platform
      && jobs'[j].caption == jobs[j].caption
      && jobs'[j].target == jobs[j].target
      && (jobs'[j].status == Scheduled ==> jobs[j].status == Scheduled)
  }

  lemma LegalRowsFollow(jobs: map<JobId, Row>, rows: map<JobId, Row>)
    requires LegalRows(jobs, rows)
    ensures Follows(jobs, jobs + rows)
  {
    forall j | j in jobs ensures j in jobs + rows && (j in rows ==> LegalRow(jobs, j, rows[j])) {
    }
  }

  lemma ProcFollows(jobs: map<JobId, Row>, jobs': map<JobId, Row>, clock: int, clock': int, q: Proc)
    requires Follows(jobs, jobs') && clock <= clock' && ProcOk(jobs, clock, q)
    ensures ProcOk(jobs', clock', q)
  {
  }

  lemma EntryFollows(jobs: map<JobId, Row>, jobs': map<JobId, Row>, clock: int, clock': int, x: Entry)
    requires Follows(jobs, jobs') && clock <= clock' && EntryOk(jobs, clock, x)
    ensures EntryOk(jobs', clock', x)
  {
  }

  lemma LegalKeepsRow(s: State, c: Change, j: JobId)
    requires RowOk(s.jobs, s.decisions, j) && LegalRows(s.jobs, c.rows)
    requires c.decision.Some? ==> LegalDecision(s.jobs, c.rows, c.decision.value)
    ensures RowOk(s.jobs + c.rows, Decided(s.decisions, c.decision), j)
  {
  }

  lemma LegalKeepsProcs(s: State, c: Change)
    requires ProcsOk(s) && LegalRows(s.jobs, c.rows) && LegalProc(s.jobs + c.rows, s.clock + c.elapsed, c.procs)
    ensures ProcsOk(Apply(s, c))
  {
    var n := Apply(s, c);
    LegalRowsFollow(s.jobs, c.rows);
    forall p | 0 <= p < |n.procs| ensures ProcOk(n.jobs, n.clock, n.procs[p]) {
      if p < |s.procs| {
        ProcFollows(s.jobs, n.jobs, s.clock, n.clock, s.procs[p]);
      }
    }
  }

  lemma LegalKeepsEntries(s: State, c: Change)
    requires EntriesOk(s) && LegalRows(s.jobs, c.rows) && LegalEntry(s.jobs + c.rows, s.clock + c.elapsed, c.entries)
    ensures EntriesOk(Apply(s, c))
  {
    var n := Apply(s, c);
    LegalRowsFollow(s.jobs, c.rows);
    forall e | 0 <= e < |n.entries| ensures EntryOk(n.jobs, n.clock, n.entries[e]) {
      if e < |s.entries| {
        EntryFollows(s.jobs, n.jobs, s.clock, n.clock, s.entries[e]);
      }
    }
  }

  lemma LegalKeepsOk(s: State, c: Change)
    requires Ok(s) && Legal(s, c)
    ensures Ok(Apply(s, c))
  {
    LegalKeepsProcs(s, c);
    LegalKeepsEntries(s, c);
    forall j ensures RowOk(s.jobs + c.rows, Decided(s.decisions, c.decision), j) {
      LegalKeepsRow(s, c, j);
    }
  }

  // ---- Every step is legal ----

  lemma TickLegal(queues: set<Platform>, s: State, p: nat)
    requires Ok(s) && p < |s.procs| && s.procs[p].Tick?
    ensures Legal(s, TickStep(queues, s, p, s.procs[p]))
  {
    var c := TickStep(queues, s, p, s.procs[p]);
    LegalRowsFollow(s.jobs, c.rows);
    ProcFollows(s.jobs, s.jobs + c.rows, s.clock, s.clock, s.procs[p]);
  }

  lemma ProcLegal(queues: set<Platform>, s: State, p: nat)
    requires Ok(s) && p < |s.procs|
    ensures Legal(s, ProcStep(queues, s, p, s.procs[p]))
  {
    if s.procs[p].Tick? {
      TickLegal(queues, s, p);
    }
  }

  lemma WorkerLegal(s: State, v: Event)
    requires Ok(s) && (v.Start? || v.CheckToken? || v.Call? || v.Record?)
    ensures Legal(s, WorkerStep(s, v))
  {
    if v.e < |s.entries| {
      var c := WorkerStep(s, v);
      LegalRowsFollow(s.jobs, c.rows);
      EntryFollows(s.jobs, s.jobs + c.rows, s.clock, s.clock, s.entries[v.e]);
    }
  }

  lemma StepLegal(queues: set<Platform>, s: State, v: Event)
    requires Ok(s)
    ensures Legal(s, StepOf(queues, s, v))
  {
    match v
    case Proceed(p) => if p < |s.procs| { ProcLegal(queues, s, p); }
    case Start(_, _) => WorkerLegal(s, v);
    case CheckToken(_, _) => WorkerLegal(s, v);
    case Call(_, _) => WorkerLegal(s, v);
    case Record(_) => WorkerLegal(s, v);
    case _ =>
  }

  /** No write but creation sets `Scheduled`, and none deletes a row or changes what it is for. */
  lemma StepFollows(queues: set<Platform>, s: State, v: Event)
    requires Ok(s)
    ensures Follows(s.jobs, Next(queues, s, v).jobs)
  {
    StepLegal(queues, s, v);
    LegalRowsFollow(s.jobs, StepOf(queues, s, v).rows);
  }

  lemma {:induction false} RunOk(queues: set<Platform>, s: State, events: seq<Event>)
    requires Ok(s)
    ensures Ok(Run(queues, s, events))
  {
    if |events| != 0 {
      RunOk(queues, s, events[..|events| - 1]);
      StepLegal(queues, Run(queues, s, events[..|events| - 1]), events[|events| - 1]);
      LegalKeepsOk(Run(queues, s, events[..|events| - 1]),
          StepOf(queues, Run(queues, s, events[..|events| - 1]), events[|events| - 1]));
    }
  }
}
