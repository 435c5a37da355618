/** One queue entry under the queue's retries, with no other actor in between. */
module PublishWorker {
  import opened Options
  import opened Sequences
  import opened PublishJobs
  import opened PublishProtocol

  /**
   * What an attempt meets: are variant (or carousel), account and adapter there, is the token fresh, does
   * the platform accept?
   */
  datatype Try = Try(complete: bool, token: TokenOutcome, answer: AdapterOutcome)

  datatype Ending = Completed | Threw

  predicate Throws(t: Try) { t.complete && (t.token == TokenError || (t.token == Fresh && t.answer.Refuse?)) }

  predicate Accepts(t: Try) { t.complete && t.token == Fresh && t.answer.Accept? }

  /** The row after one attempt. */
  function AttemptRow(row: Row, t: Try, attemptsMade: nat, maxAttempts: nat): Row
  {
    if !t.complete then Doomed(row, DependencyGone)
    else
      var begun := Begun(row, attemptsMade);
      match t.token
      case Reconnect => Doomed(begun, NeedsReconnect)
      case TokenError => begun
      case Fresh =>
        match t.answer
        case Accept(id) => PublishedAs(begun, id)
        case Refuse(m) => AttemptFailed(begun, m, IsFinal(attemptsMade, maxAttempts))
  }

  /** The updates an attempt sends, in order, for designs and carousels alike. */
  function Updates(t: Try, attemptsMade: nat, maxAttempts: nat): seq<Update>
  {
    if !t.complete then [Doom(DependencyGone)]
    else
      match t.token
      case Reconnect => [Begin(attemptsMade), Doom(NeedsReconnect)]
      case TokenError => [Begin(attemptsMade)]
      case Fresh =>
        match t.answer
        case Accept(id) => [Begin(attemptsMade), Publish(id)]
        case Refuse(m) => [Begin(attemptsMade), Fail(m, IsFinal(attemptsMade, maxAttempts))]
  }

  /** The row after an attempt is the row its updates make. */
  lemma AttemptRowIsUpdates(row: Row, t: Try, attemptsMade: nat, maxAttempts: nat)
    ensures AllApplied(row, Updates(t, attemptsMade, maxAttempts)) == AttemptRow(row, t, attemptsMade, maxAttempts)
  {
    var us := Updates(t, attemptsMade, maxAttempts);
    assert AllApplied(row, us[..0]) == row && us[..|us|] == us;
    if |us| == 2 {
      assert us[..1][..0] == us[..0] && AllApplied(row, us[..1]) == Applied(row, us[0]);
    }
  }

  function CallsAdapter(): Try -> int { (t: Try) => if t.complete && t.token == Fresh then 1 else 0 }

  /** The run of one entry: attempts made, adapter calls, and whether another attempt follows. */
  datatype Trace = Trace(row: Row, made: nat, calls: int, running: bool)

  /** The queue's retry rule over the first `k` tries on offer. */
  function After(row: Row, tries: seq<Try>, k: nat, maxAttempts: nat): Trace
    requires k <= |tries|
  {
    if k == 0 then Trace(row, 0, 0, true)
    else
      var t := After(row, tries, k - 1, maxAttempts);
      if !t.running then t
      else Trace(AttemptRow(t.row, tries[k - 1], t.made, maxAttempts), t.made + 1,
          t.calls + CallsAdapter()(tries[k - 1]),
                 Throws(tries[k - 1]) && t.made + 1 < maxAttempts)
  }

  predicate AllThrow(tries: seq<Try>, k: nat) { forall i :: 0 <= i < k && i < |tries| ==> Throws(tries[i]) }

  /** Between attempts the row reads `Processing`, and counts the attempts. */
  lemma {:induction false} BetweenAttempts(row: Row, tries: seq<Try>, k: nat, maxAttempts: nat)
    requires k <= |tries| && k < maxAttempts && AllThrow(tries, k)
    ensures var t := After(row, tries, k, maxAttempts);
            && t.running && t.made == k && t.calls == Sum(CallsAdapter(), tries[..k]) <= k
            && (k > 0 ==> t.row.status == Processing && t.row.attemptCount == k)
            && (k == 0 ==> t.row == row)
  {
    if k != 0 {
      BetweenAttempts(row, tries, k - 1, maxAttempts);
      PrefixSnoc(tries, k - 1);
      SumSnoc(CallsAdapter(), tries[..k - 1], tries[k - 1]);
    }
  }

  lemma {:induction false} StaysOver(row: Row, tries: seq<Try>, j: nat, k: nat, maxAttempts: nat)
    requires j <= k <= |tries| && !After(row, tries, j, maxAttempts).running
    ensures After(row, tries, k, maxAttempts) == After(row, tries, j, maxAttempts)
  {
    if j < k {
      StaysOver(row, tries, j, k - 1, maxAttempts);
    }
  }

  /** The last attempt is number `k`: the first that does not throw, or the last one allowed. */
  predicate Last(tries: seq<Try>, k: nat)
  {
    k < |tries| && AllThrow(tries, k) && (!Throws(tries[k]) || k == |tries| - 1)
  }

  lemma LastExists(tries: seq<Try>, k: nat)
    requires k < |tries| && AllThrow(tries, k)
    ensures exists j: nat :: Last(tries, j)
    decreases |tries| - k
  {
    if !Last(tries, k) {
      LastExists(tries, k + 1);
    }
  }

  /** What the run of an entry comes to, for any answers of platforms and token endpoints. */
  lemma EntryRun(row: Row, tries: seq<Try>, k: nat)
    requires Last(tries, k)
    ensures var t := After(row, tries, |tries|, |tries|);
            && !t.running && t.made == k + 1
            && t.calls == Sum(CallsAdapter(), tries[..k + 1]) <= |tries|
            && t.row.attemptCount == (if tries[k].complete then k + 1 else if k > 0 then k else row.attemptCount)
            && (t.row.status == Published <==> Accepts(tries[k]))
            && (Accepts(tries[k]) ==> t.row.externalPostId == Some(tries[k].answer.postId) && t.row.lastError == None)
            && (t.row.status == Processing <==> Throws(tries[k]) && tries[k].token == TokenError)
            && (t.row.status == Failed <==> !Accepts(tries[k]) && !(Throws(tries[k]) && tries[k].token == TokenError))
  {
    BetweenAttempts(row, tries, k, |tries|);
    PrefixSnoc(tries, k);
    SumSnoc(CallsAdapter(), tries[..k], tries[k]);
    StaysOver(row, tries, k + 1, |tries|, |tries|);
  }

  /**
   * The adapter is never called after a success, and the row ends `Published` exactly when a call succeeded.
   * It ends `Failed` otherwise, except when the last attempt dies of a token error that asks for no reconnect:
   * that one is thrown outside the guarded part, and the row stays `Processing` for good.
   */
  lemma EntryOutcome(row: Row, tries: seq<Try>)
    requires |tries| >= 1
    ensures var t := After(row, tries, |tries|, |tries|);
            && 1 <= t.made <= |tries| && t.calls <= t.made
            && (t.row.status == Published <==> exists i :: 0 <= i < t.made && Accepts(tries[i]))
            && (forall i :: 0 <= i < t.made && Accepts(tries[i]) ==> i == t.made - 1)
            && (t.row.status == Processing <==>
                t.made == |tries| && Throws(tries[t.made - 1]) && tries[t.made - 1].token == TokenError)
            && (t.row.status == Published || t.row.status == Processing || t.row.status == Failed)
  {
    LastExists(tries, 0);
    var k: nat :| Last(tries, k);
    EntryRun(row, tries, k);
    BetweenAttempts(row, tries, k, |tries|);
    assert After(row, tries, |tries|, |tries|).calls <= k + 1 by {
      PrefixSnoc(tries, k);
      SumSnoc(CallsAdapter(), tries[..k], tries[k]);
    }
  }

  /**
   * Where every stored token still decrypts, the row ends `Published` iff some call succeeded, and `Failed`
   * otherwise.
   */
  lemma EntryOutcomeReadable(row: Row, tries: seq<Try>)
    requires |tries| >= 1 && forall i :: 0 <= i < |tries| ==> tries[i].token != TokenError
    ensures var t := After(row, tries, |tries|, |tries|);
            var posted := exists i :: 0 <= i < t.made && i < |tries| && Accepts(tries[i]);
            t.row.status == if posted then Published else Failed
  {
    EntryOutcome(row, tries);
  }

  /** The witness: tokens that do not decrypt, on every attempt, leave the row `Processing` without one adapter call. */
  lemma UnreadableTokenSticks(row: Row, answer: AdapterOutcome)
    ensures var tries := [Try(true, TokenError, answer), Try(true, TokenError, answer), Try(true, TokenError, answer)];
            var t := After(row, tries, ATTEMPTS, ATTEMPTS);
            !t.running && t.row.status == Processing && t.calls == 0
  {
    var tries := [Try(true, TokenError, answer), Try(true, TokenError, answer), Try(true, TokenError, answer)];
    assert After(row, tries, 0, ATTEMPTS).row == row;
    assert After(row, tries, 1, ATTEMPTS).made == 1;
    assert After(row, tries, 2, ATTEMPTS).made == 2;
  }

  // ---- The same attempt in the interleaved protocol ----

  function Steps(e: nat, t: Try): seq<Event>
  {
    [Start(e, t.complete), CheckToken(e, t.token), Call(e, t.answer), Record(e)]
  }

  function EntryAfter(x: Entry, t: Try): Entry
  {
    var called := x.(calls := x.calls + CallsAdapter()(t));
    if Throws(t) then Thrown(called)
    else if Accepts(t) then called.(stage := Finished, posts := x.posts + 1)
    else called.(stage := Finished)
  }

  lemma FourSteps(queues: set<Platform>, s: State, a: Event, b: Event, c: Event, d: Event)
    ensures Run(queues, s, [a, b, c, d]) == Next(queues, Next(queues, Next(queues, Next(queues, s, a), b), c), d)
  {
    assert [a, b, c, d][..3] == [a, b, c] && [a, b, c][..2] == [a, b] && [a, b][..1] == [a] && [a][..0] == [];
    assert Run(queues, s, [a]) == Next(queues, s, a);
    assert Run(queues, s, [a, b]) == Next(queues, Run(queues, s, [a]), b);
    assert Run(queues, s, [a, b, c]) == Next(queues, Run(queues, s, [a, b]), c);
  }

  /** `n` is `s` with one row and one entry replaced. */
  ghost predicate Replaces(s: State, n: State, e: nat, x: Entry, row: Row)
  {
    e < |s.entries| && n == s.(jobs := s.jobs[s.entries[e].job := row], entries := s.entries[e := x])
  }

  lemma ReplacedTwice(s: State, n: State, m: State, e: nat, x: Entry, row: Row, x': Entry, row': Row)
    requires Replaces(s, n, e, x, row) && x.job == s.entries[e].job
    requires Replaces(n, m, e, x', row')
    ensures Replaces(s, m, e, x', row')
  {
    assert n.jobs[x.job := row'] == s.jobs[x.job := row'];
  }

  lemma Begins(queues: set<Platform>, s: State, e: nat, complete: bool) returns (n: State)
    requires e < |s.entries| && s.entries[e].stage == Waiting && s.entries[e].job in s.jobs
    ensures n == Next(queues, s, Start(e, complete))
    ensures var x, row := s.entries[e], s.jobs[s.entries[e].job];
            if complete then Replaces(s, n, e, x.(stage := Started), Begun(row, x.attemptsMade))
            else Replaces(s, n, e, x.(stage := Finished), Doomed(row, DependencyGone))
  {
    n := Next(queues, s, Start(e, complete));
  }

  lemma GetsToken(queues: set<Platform>, s: State, e: nat, token: TokenOutcome) returns (n: State)
    requires e < |s.entries| && s.entries[e].job in s.jobs
    ensures n == Next(queues, s, CheckToken(e, token))
    ensures var x, row := s.entries[e], s.jobs[s.entries[e].job];
            if x.stage != Started then n == s
            else match token
              case Fresh => Replaces(s, n, e, x.(stage := Ready), row)
              case Reconnect => Replaces(s, n, e, x.(stage := Finished), Doomed(row, NeedsReconnect))
              case TokenError => Replaces(s, n, e, Thrown(x), row)
  {
    n := Next(queues, s, CheckToken(e, token));
  }

  lemma Calls(queues: set<Platform>, s: State, e: nat, answer: AdapterOutcome) returns (n: State)
    requires e < |s.entries| && s.entries[e].job in s.jobs
    ensures n == Next(queues, s, Call(e, answer))
    ensures var x, row := s.entries[e], s.jobs[s.entries[e].job];
            if x.stage != Ready then n == s
            else match answer
              case Accept(id) => Replaces(s, n, e,
                  x.(calls := x.calls + 1, posts := x.posts + 1, stage := Posted(id)), row)
              case Refuse(m) => Replaces(s, n, e, x.(calls := x.calls + 1, stage := Refused(m)), row)
  {
    n := Next(queues, s, Call(e, answer));
  }

  lemma Records(queues: set<Platform>, s: State, e: nat) returns (n: State)
    requires e < |s.entries| && s.entries[e].job in s.jobs
    ensures n == Next(queues, s, Record(e))
    ensures var x, row := s.entries[e], s.jobs[s.entries[e].job];
            match x.stage
            case Posted(id) => Replaces(s, n, e, x.(stage := Finished), PublishedAs(row, id))
            case Refused(m) => Replaces(s, n, e, Thrown(x), AttemptFailed(row, m, IsFinal(x.attemptsMade, ATTEMPTS)))
            case _ => n == s
  {
    n := Next(queues, s, Record(e));
  }

  /** What the attempt is after its token check: ready to call, or over. */
  function Halfway(x: Entry, t: Try): Entry
  {
    if t.complete && t.token == Fresh then x.(stage := Ready) else EntryAfter(x, t)
  }

  function HalfwayRow(row: Row, t: Try, attemptsMade: nat): Row
  {
    if t.complete && t.token == Fresh then Begun(row, attemptsMade) else AttemptRow(row, t, attemptsMade, ATTEMPTS)
  }

  lemma FirstHalf(queues: set<Platform>, s: State, e: nat, t: Try) returns (a: State, b: State)
    requires e < |s.entries| && s.entries[e].stage == Waiting && s.entries[e].job in s.jobs
    ensures a == Next(queues, s, Start(e, t.complete)) && b == Next(queues, a, CheckToken(e, t.token))
    ensures var x := s.entries[e];
            Replaces(s, b, e, Halfway(x, t), HalfwayRow(s.jobs[x.job], t, x.attemptsMade))
  {
    var x, row := s.entries[e], s.jobs[s.entries[e].job];
    a := Begins(queues, s, e, t.complete);
    b := GetsToken(queues, a, e, t.token);
    if t.complete {
      ReplacedTwice(s, a, b, e, x.(stage := Started), Begun(row, x.attemptsMade), Halfway(x, t),
          HalfwayRow(row, t, x.attemptsMade));
    }
  }

  lemma SecondHalf(queues: set<Platform>, s: State, e: nat, answer: AdapterOutcome) returns (c: State, d: State)
    requires e < |s.entries| && s.entries[e].job in s.jobs && !s.entries[e].stage.Posted?
        && !s.entries[e].stage.Refused?
    ensures c == Next(queues, s, Call(e, answer)) && d == Next(queues, c, Record(e))
    ensures var x, row := s.entries[e], s.jobs[s.entries[e].job];
            if x.stage != Ready then d == s
            else var called := x.(calls := x.calls + 1);
              match answer
              case Accept(id) => Replaces(s, d, e, called.(stage := Finished, posts := x.posts + 1),
                  PublishedAs(row, id))
              case Refuse(m) => Replaces(s, d, e, Thrown(called),
                  AttemptFailed(row, m, IsFinal(x.attemptsMade, ATTEMPTS)))
  {
    var x, row := s.entries[e], s.jobs[s.entries[e].job];
    c := Calls(queues, s, e, answer);
    d := Records(queues, c, e);
    if x.stage == Ready {
      ReplacedTwice(s, c, d, e, c.entries[e], row, d.entries[e], d.jobs[x.job]);
    }
  }

  /** What the answer makes of an entry whose adapter call is next. */
  lemma Answered(x: Entry, row: Row, t: Try)
    requires t.complete && t.token == Fresh
    ensures var called, begun := x.(stage := Ready, calls := x.calls + 1), Begun(row, x.attemptsMade);
            match t.answer
            case Accept(id) =>
              && EntryAfter(x, t) == called.(stage := Finished, posts := x.posts + 1)
              && AttemptRow(row, t, x.attemptsMade, ATTEMPTS) == PublishedAs(begun, id)
            case Refuse(m) =>
              && EntryAfter(x, t) == Thrown(called)
              && AttemptRow(row, t, x.attemptsMade, ATTEMPTS)
                 == AttemptFailed(begun, m, IsFinal(x.attemptsMade, ATTEMPTS))
  {
  }

  lemma ReadyCompletes(queues: set<Platform>, s: State, b: State, e: nat, t: Try) returns (d: State)
    requires e < |s.entries| && s.entries[e].stage == Waiting && s.entries[e].job in s.jobs
    requires t.complete && t.token == Fresh
    requires var x := s.entries[e];
             Replaces(s, b, e, x.(stage := Ready), Begun(s.jobs[x.job], x.attemptsMade))
    ensures d == Next(queues, Next(queues, b, Call(e, t.answer)), Record(e))
    ensures var x := s.entries[e];
            Replaces(s, d, e, EntryAfter(x, t), AttemptRow(s.jobs[x.job], t, x.attemptsMade, ATTEMPTS))
  {
    var x, row := s.entries[e], s.jobs[s.entries[e].job];
    var _, last := SecondHalf(queues, b, e, t.answer);
    d := last;
    Answered(x, row, t);
    ReplacedTwice(s, b, d, e, x.(stage := Ready), Begun(row, x.attemptsMade), EntryAfter(x, t),
                  AttemptRow(row, t, x.attemptsMade, ATTEMPTS));
  }

  lemma Completes(queues: set<Platform>, s: State, b: State, e: nat, t: Try) returns (d: State)
    requires e < |s.entries| && s.entries[e].stage == Waiting && s.entries[e].job in s.jobs
    requires var x := s.entries[e];
             Replaces(s, b, e, Halfway(x, t), HalfwayRow(s.jobs[x.job], t, x.attemptsMade))
    ensures d == Next(queues, Next(queues, b, Call(e, t.answer)), Record(e))
    ensures var x := s.entries[e];
            Replaces(s, d, e, EntryAfter(x, t), AttemptRow(s.jobs[x.job], t, x.attemptsMade, ATTEMPTS))
  {
    if t.complete && t.token == Fresh {
      d := ReadyCompletes(queues, s, b, e, t);
    } else {
      var _, last := SecondHalf(queues, b, e, t.answer);
      d := last;
    }
  }

  /** Undisturbed, the protocol's four worker steps are one attempt. */
  lemma AttemptIsFourSteps(queues: set<Platform>, s: State, e: nat, t: Try)
    requires e < |s.entries| && s.entries[e].stage == Waiting && s.entries[e].job in s.jobs
    ensures var x := s.entries[e];
            Replaces(s, Run(queues, s, Steps(e, t)), e, EntryAfter(x, t),
                     AttemptRow(s.jobs[x.job], t, x.attemptsMade, ATTEMPTS))
  {
    FourSteps(queues, s, Start(e, t.complete), CheckToken(e, t.token), Call(e, t.answer), Record(e));
    var _, b := FirstHalf(queues, s, e, t);
    var _ := Completes(queues, s, b, e, t);
  }

  function Attempts(e: nat, tries: seq<Try>): seq<Event>
  {
    if |tries| == 0 then [] else Attempts(e, tries[..|tries| - 1]) + Steps(e, tries[|tries| - 1])
  }

  /** The entry and the row agree with the trace. */
  ghost predicate Traced(s: State, n: State, e: nat, t: Trace)
  {
    && e < |n.entries| && Replaces(s, n, e, n.entries[e], t.row)
    && n.entries[e].job == s.entries[e].job
    && n.entries[e].calls == t.calls
    && n.entries[e].stage == (if t.running then Waiting else Finished)
    && (t.running ==> n.entries[e].attemptsMade == t.made)
  }

  lemma IdleEntry(queues: set<Platform>, s: State, e: nat, t: Try)
    requires e < |s.entries| && s.entries[e].stage == Finished
    ensures Run(queues, s, Steps(e, t)) == s
  {
    FourSteps(queues, s, Start(e, t.complete), CheckToken(e, t.token), Call(e, t.answer), Record(e));
    Still(queues, s, Start(e, t.complete));
    Still(queues, s, CheckToken(e, t.token));
    Still(queues, s, Call(e, t.answer));
    Still(queues, s, Record(e));
  }

  lemma Still(queues: set<Platform>, s: State, v: Event)
    requires v.Start? || v.CheckToken? || v.Call? || v.Record?
    requires v.e < |s.entries| && s.entries[v.e].stage == Finished
    ensures Next(queues, s, v) == s
  {
  }

  lemma NextAttempt(queues: set<Platform>, s: State, n: State, e: nat, t: Trace, next: Try)
    requires e < |s.entries| && s.entries[e].job in s.jobs && Traced(s, n, e, t)
    ensures Traced(s, Run(queues, n, Steps(e, next)), e,
                   if !t.running then t
                   else Trace(AttemptRow(t.row, next, t.made, ATTEMPTS), t.made + 1, t.calls + CallsAdapter()(next),
                              Throws(next) && t.made + 1 < ATTEMPTS))
  {
    if t.running {
      AttemptIsFourSteps(queues, n, e, next);
      ReplacedTwice(s, n, Run(queues, n, Steps(e, next)), e, n.entries[e], t.row,
                    EntryAfter(n.entries[e], next), AttemptRow(t.row, next, t.made, ATTEMPTS));
    } else {
      IdleEntry(queues, n, e, next);
    }
  }

  /** Undisturbed, an entry of the protocol runs by the retry rule: `EntryOutcome` speaks about protocol runs. */
  lemma {:induction false} EntryInProtocol(queues: set<Platform>, s: State, e: nat, tries: seq<Try>, k: nat)
    requires e < |s.entries| && s.entries[e].job in s.jobs && k <= |tries|
    requires s.entries[e].stage == Waiting && s.entries[e].attemptsMade == 0 && s.entries[e].calls == 0
    ensures Traced(s, Run(queues, s, Attempts(e, tries[..k])), e, After(s.jobs[s.entries[e].job], tries, k, ATTEMPTS))
  {
    if k == 0 {
      assert s.jobs[s.entries[e].job := s.jobs[s.entries[e].job]] == s.jobs;
    } else {
      EntryInProtocol(queues, s, e, tries, k - 1);
      assert tries[..k][..k - 1] == tries[..k - 1];
      RunConcat(queues, s, Attempts(e, tries[..k - 1]), Steps(e, tries[k - 1]));
      NextAttempt(queues, s, Run(queues, s, Attempts(e, tries[..k - 1])), e,
                  After(s.jobs[s.entries[e].job], tries, k - 1, ATTEMPTS), tries[k - 1]);
    }
  }
}
