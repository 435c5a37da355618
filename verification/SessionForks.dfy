/** When concurrent refreshes fork a session, and how many live tokens that leaves. */
module SessionForks {
  import opened Options
  import opened Sequences
  import opened Sessions

  /** A refresh under way that read token `i` while it was live. */
  predicate OnToken(f: Flight, i: nat) { f == Read(i) || f == Rotating(i) }

  function Carries(i: nat): Flight -> int { (f: Flight) => if OnToken(f, i) then 1 else 0 }

  function Children(tokens: Tokens, i: nat): nat { if i < |tokens| then tokens[i].children else 0 }

  /** Replacements of token `i`, stored and still to be stored. */
  function Potential(s: State, i: nat): int { Children(s.tokens, i) + Sum(Carries(i), s.flights) }

  predicate Presents(v: Event, i: nat) { v.Present? && v.token == i }

  /** Only presenting a token adds to its replacements. */
  lemma StepGains(s: State, v: Event, i: nat)
    requires Ok(s)
    ensures Potential(Next(s, v), i) <= Potential(s, i) + if Presents(v, i) then 1 else 0
  {
    match v
    case Present(k, now) =>
      if Looked(s.tokens, k, now).Some? {
        SumSnoc(Carries(i), s.flights, Looked(s.tokens, k, now).value);
      }
    case Proceed(p, expiresAt) =>
      if p < |s.flights| {
        assert FlightOk(s.tokens, s.flights[p]);
        SumUpdate(Carries(i), s.flights, p, Next(s, v).flights[p]);
      }
    case _ =>
  }

  ghost predicate NotPresented(events: seq<Event>, i: nat)
  {
    forall k :: 0 <= k < |events| ==> !Presents(events[k], i)
  }

  lemma {:induction false} RunGains(s: State, events: seq<Event>, i: nat)
    requires Ok(s) && NotPresented(events, i)
    ensures Potential(Run(s, events), i) <= Potential(s, i)
  {
    if |events| != 0 {
      RunGains(s, events[..|events| - 1], i);
      RunOk(s, events[..|events| - 1]);
      StepGains(Run(s, events[..|events| - 1]), events[|events| - 1], i);
    }
  }

  lemma CarriedNotNegative(s: State, i: nat)
    ensures Potential(s, i) >= Children(s.tokens, i)
    ensures forall p :: 0 <= p < |s.flights| && OnToken(s.flights[p], i) ==>
        Potential(s, i) >= Children(s.tokens, i) + 1
  {
    SumAtLeast(Carries(i), s.flights);
    forall p | 0 <= p < |s.flights| && OnToken(s.flights[p], i) ensures Sum(Carries(i), s.flights) >= 1 {
      assert Carries(i)(s.flights[p]) == 1;
    }
  }

  lemma {:induction false} NoneCarried(flights: seq<Flight>, i: nat)
    requires forall p :: 0 <= p < |flights| ==> !OnToken(flights[p], i)
    ensures Sum(Carries(i), flights) == 0
  {
    if |flights| != 0 {
      NoneCarried(flights[..|flights| - 1], i);
    }
  }

  // ---- Expiry ----

  /** Token `i` is presented only after it expired. */
  ghost predicate PresentedLate(events: seq<Event>, i: nat, expiresAt: int)
  {
    forall k :: 0 <= k < |events| && Presents(events[k], i) ==> expiresAt < events[k].now
  }

  lemma LateStarts(s: State, i: nat, now: int)
    requires i < |s.tokens| && s.tokens[i].expiresAt < now
    ensures !s.tokens[i].revoked ==> Next(s, Present(i, now)) == s
    ensures Potential(Next(s, Present(i, now)), i) <= Potential(s, i)
  {
    if s.tokens[i].revoked {
      SumSnoc(Carries(i), s.flights, Reused(s.tokens[i].user));
    }
  }

  /**
   * A live token presented after its expiry starts nothing: over every run that presents it only then, it is
   * not replaced more often than refreshes of it were under way, so without any it is never replaced.
   */
  lemma {:induction false} ExpiredNeverReplaced(s: State, events: seq<Event>, i: nat)
    requires Ok(s) && i < |s.tokens| && PresentedLate(events, i, s.tokens[i].expiresAt)
    ensures Potential(Run(s, events), i) <= Potential(s, i)
    ensures (forall p :: 0 <= p < |s.flights| ==> !OnToken(s.flights[p], i)) ==>
              Children(Run(s, events).tokens, i) == Children(s.tokens, i)
  {
    RunOk(s, events);
    if |events| != 0 {
      var front, v := events[..|events| - 1], events[|events| - 1];
      var m := Run(s, front);
      ExpiredNeverReplaced(s, front, i);
      RunOk(s, front);
      assert Succeeds(s.tokens[i], m.tokens[i]);
      if Presents(v, i) {
        LateStarts(m, i, v.now);
      } else {
        StepGains(m, v, i);
      }
    }
    if forall p :: 0 <= p < |s.flights| ==> !OnToken(s.flights[p], i) {
      NoneCarried(s.flights, i);
      CarriedNotNegative(Run(s, events), i);
      assert Succeeds(s.tokens[i], Run(s, events).tokens[i]);
    }
  }

  // ---- Overlap ----

  /** A refresh under way can go through, with the others standing still. */
  lemma {:induction false} Finish(s: State, p: nat, i: nat) returns (events: seq<Event>)
    requires Ok(s) && p < |s.flights| && OnToken(s.flights[p], i)
    ensures NotPresented(events, i)
    ensures var n := Run(s, events);
            && Ok(n) && n.flights == s.flights[p := Over]
            && i < |n.tokens| && Children(n.tokens, i) == Children(s.tokens, i) + 1
    decreases s.flights[p].Read?
  {
    var v := Proceed(p, 0);
    var n := Next(s, v);
    assert FlightOk(s.tokens, s.flights[p]);
    StepOk(s, v);
    OneStep(s, v);
    events := [v];
    if s.flights[p].Read? {
      var rest := Finish(n, p, i);
      RunConcat(s, [v], rest);
      events := [v] + rest;
    }
  }

  lemma OneStep(s: State, v: Event)
    ensures Run(s, [v]) == Next(s, v)
  {
    assert [v][..0] == [];
  }

  /**
   * A live token that is presented is replaced at most once, in every continuation in which it is not
   * presented again, exactly if no other refresh of it is under way. The service does not check that.
   */
  lemma RefreshSafeIffAlone(s: State, i: nat, now: int)
    requires Reachable(s) && Looked(s.tokens, i, now) == Some(Read(i))
    ensures (forall p :: 0 <= p < |s.flights| ==> !OnToken(s.flights[p], i)) <==>
            forall events :: NotPresented(events, i) ==>
              Children(Run(Next(s, Present(i, now)), events).tokens, i) <= 1
  {
    var past :| s == Run(INITIAL, past);
    RunInvariant(past);
    var n := Next(s, Present(i, now));
    StepOk(s, Present(i, now));
    assert TokenOk(s.tokens, i) && Children(s.tokens, i) == 0;
    if p :| 0 <= p < |s.flights| && OnToken(s.flights[p], i) {
      var events := BothFinish(n, p, |s.flights|, i);
      assert NotPresented(events, i) && Children(Run(n, events).tokens, i) > 1;
    } else {
      NoneCarried(s.flights, i);
      StepGains(s, Present(i, now), i);
      forall events | NotPresented(events, i) ensures Children(Run(n, events).tokens, i) <= 1 {
        RunGains(n, events, i);
        CarriedNotNegative(Run(n, events), i);
      }
    }
  }

  lemma BothFinish(s: State, p: nat, q: nat, i: nat) returns (events: seq<Event>)
    requires Ok(s) && p < |s.flights| && q < |s.flights| && p != q && OnToken(s.flights[p], i)
        && OnToken(s.flights[q], i)
    ensures NotPresented(events, i) && Children(Run(s, events).tokens, i) == Children(s.tokens, i) + 2
  {
    var first := Finish(s, p, i);
    var second := Finish(Run(s, first), q, i);
    RunConcat(s, first, second);
    events := first + second;
  }

  // ---- Runs without overlap ----

  /** No token is read for a refresh while another refresh of it is under way. */
  ghost predicate Sequential(events: seq<Event>)
  {
    |events| != 0 ==>
      var front, v := events[..|events| - 1], events[|events| - 1];
      var s := Run(INITIAL, front);
      Sequential(front) &&
      (v.Present? && Looked(s.tokens, v.token, v.now) == Some(Read(v.token)) ==>
         forall p :: 0 <= p < |s.flights| ==> !OnToken(s.flights[p], v.token))
  }

  lemma {:induction false} SequentialPotential(events: seq<Event>, i: nat)
    requires Sequential(events)
    ensures Potential(Run(INITIAL, events), i) <= 1
  {
    if |events| != 0 {
      var front, v := events[..|events| - 1], events[|events| - 1];
      var s := Run(INITIAL, front);
      SequentialPotential(front, i);
      RunInvariant(front);
      if Presents(v, i) {
        PresentingAlone(s, i, v.now);
      } else {
        StepGains(s, v, i);
      }
    }
  }

  lemma PresentingAlone(s: State, i: nat, now: int)
    requires Ok(s) && Potential(s, i) <= 1
    requires Looked(s.tokens, i, now) == Some(Read(i)) ==> forall p :: 0 <= p < |s.flights| ==>
        !OnToken(s.flights[p], i)
    ensures Potential(Next(s, Present(i, now)), i) <= 1
  {
    if Looked(s.tokens, i, now).Some? {
      SumSnoc(Carries(i), s.flights, Looked(s.tokens, i, now).value);
      if Looked(s.tokens, i, now) == Some(Read(i)) {
        NoneCarried(s.flights, i);
        assert TokenOk(s.tokens, i);
      }
    }
  }

  /** Where refreshes of one token do not overlap, the tokens of every session form a path, live at most at its end. */
  lemma SequentialKeepsPaths(events: seq<Event>)
    requires Sequential(events)
    ensures Paths(Run(INITIAL, events).tokens) && Unforked(Run(INITIAL, events).tokens)
  {
    var s := Run(INITIAL, events);
    forall i | 0 <= i < |s.tokens| ensures s.tokens[i].children <= 1 {
      SequentialPotential(events, i);
      CarriedNotNegative(s, i);
    }
    RunInvariant(events);
  }

  // ---- Live tokens ----

  function Live(user: User): Token -> int { (t: Token) => if t.user == user && !t.revoked then 1 else 0 }

  function OpenedBy(user: User): Token -> int { (t: Token) => if t.user == user && t.parent.None? then 1 else 0 }

  /** Tokens nothing replaced. */
  function Ends(user: User): Token -> int { (t: Token) => if t.user == user && t.children == 0 then 1 else 0 }

  /** Replacements beyond a token's first. */
  function Forks(user: User): Token -> int
  {
    (t: Token) => if t.user == user && t.children > 1 then t.children - 1 else 0
  }

  ghost predicate EndsCounted(tokens: Tokens, user: User)
  {
    Sum(Ends(user), tokens) == Sum(OpenedBy(user), tokens) + Sum(Forks(user), tokens)
  }

  lemma {:induction false} SameHistory(tokens: Tokens, tokens': Tokens, user: User)
    requires |tokens| == |tokens'|
    requires forall k :: 0 <= k < |tokens| ==> tokens'[k] == tokens[k] || tokens'[k] == Revoke(tokens[k])
    ensures Sum(Ends(user), tokens') == Sum(Ends(user), tokens)
    ensures Sum(OpenedBy(user), tokens') == Sum(OpenedBy(user), tokens)
    ensures Sum(Forks(user), tokens') == Sum(Forks(user), tokens)
  {
    if |tokens| != 0 {
      SameHistory(tokens[..|tokens| - 1], tokens'[..|tokens| - 1], user);
    }
  }

  lemma ReplacingCounted(tokens: Tokens, i: nat, expiresAt: int, user: User)
    requires i < |tokens| && EndsCounted(tokens, user)
    ensures EndsCounted(Replaced(tokens, i, expiresAt), user)
  {
    var t := tokens[i].(children := tokens[i].children + 1);
    var heir := Heir(tokens, i, expiresAt);
    SumUpdate(Ends(user), tokens, i, t);
    SumUpdate(OpenedBy(user), tokens, i, t);
    SumUpdate(Forks(user), tokens, i, t);
    SumSnoc(Ends(user), tokens[i := t], heir);
    SumSnoc(OpenedBy(user), tokens[i := t], heir);
    SumSnoc(Forks(user), tokens[i := t], heir);
  }

  lemma OpeningCounted(tokens: Tokens, opener: User, expiresAt: int, user: User)
    requires EndsCounted(tokens, user)
    ensures EndsCounted(Opened(tokens, opener, expiresAt), user)
  {
    var t := Token(opener, |tokens|, None, false, expiresAt, 0);
    SumSnoc(Ends(user), tokens, t);
    SumSnoc(OpenedBy(user), tokens, t);
    SumSnoc(Forks(user), tokens, t);
  }

  lemma StepCountsEnds(s: State, v: Event, user: User)
    requires EndsCounted(s.tokens, user)
    ensures EndsCounted(Next(s, v).tokens, user)
  {
    if v.LogIn? {
      OpeningCounted(s.tokens, v.user, v.expiresAt, user);
    } else if v.Proceed? && v.p < |s.flights| && s.flights[v.p].Rotating? {
      if s.flights[v.p].token < |s.tokens| {
        ReplacingCounted(s.tokens, s.flights[v.p].token, v.expiresAt, user);
      }
    } else {
      SameHistory(s.tokens, Next(s, v).tokens, user);
    }
  }

  lemma {:induction false} RunCountsEnds(events: seq<Event>, user: User)
    ensures EndsCounted(Run(INITIAL, events).tokens, user)
  {
    if |events| != 0 {
      RunCountsEnds(events[..|events| - 1], user);
      StepCountsEnds(Run(INITIAL, events[..|events| - 1]), events[|events| - 1], user);
    }
  }

  lemma {:induction false} LiveAreEnds(tokens: Tokens, user: User)
    requires forall k :: 0 <= k < |tokens| ==> tokens[k].children > 0 ==> tokens[k].revoked
    ensures Sum(Live(user), tokens) <= Sum(Ends(user), tokens)
  {
    if |tokens| != 0 {
      LiveAreEnds(tokens[..|tokens| - 1], user);
    }
  }

  lemma {:induction false} UnforkedSum(tokens: Tokens, user: User)
    requires Unforked(tokens)
    ensures Sum(Forks(user), tokens) == 0
  {
    if |tokens| != 0 {
      UnforkedSum(tokens[..|tokens| - 1], user);
    }
  }

  /**
   * In every interleaving a user's live tokens are at most the sessions opened and the forks; without
   * overlapping refreshes of one token, at most the sessions opened.
   */
  lemma LiveAtMostSessions(events: seq<Event>, user: User)
    ensures var tokens := Run(INITIAL, events).tokens;
            && Sum(Live(user), tokens) <= Sum(OpenedBy(user), tokens) + Sum(Forks(user), tokens)
            && (Sequential(events) ==> Sum(Live(user), tokens) <= Sum(OpenedBy(user), tokens))
  {
    var s := Run(INITIAL, events);
    RunInvariant(events);
    RunCountsEnds(events, user);
    forall k | 0 <= k < |s.tokens| ensures s.tokens[k].children > 0 ==> s.tokens[k].revoked {
      assert TokenOk(s.tokens, k);
    }
    LiveAreEnds(s.tokens, user);
    if Sequential(events) {
      SequentialKeepsPaths(events);
      UnforkedSum(s.tokens, user);
    }
  }

  // ---- Reuse ----

  lemma {:induction false} NoneLive(tokens: Tokens, user: User)
    requires forall k :: 0 <= k < |tokens| && tokens[k].user == user ==> tokens[k].revoked
    ensures Sum(Live(user), tokens) == 0
  {
    if |tokens| != 0 {
      NoneLive(tokens[..|tokens| - 1], user);
    }
  }

  /** Presenting a revoked token, whatever revoked it, ends in a write that leaves its user without a live one. */
  lemma ReuseRevokesAll(s: State, i: nat, now: int, expiresAt: int)
    requires i < |s.tokens| && s.tokens[i].revoked
    ensures Next(s, Present(i, now)).flights == s.flights + [Reused(s.tokens[i].user)]
    ensures forall t: State, p: nat :: p < |t.flights| && t.flights[p] == Reused(s.tokens[i].user) ==>
              Sum(Live(s.tokens[i].user), Next(t, Proceed(p, expiresAt)).tokens) == 0
  {
    var user := s.tokens[i].user;
    forall t: State, p: nat | p < |t.flights| && t.flights[p] == Reused(user)
      ensures Sum(Live(user), Next(t, Proceed(p, expiresAt)).tokens) == 0
    {
      NoneLive(RevokeAll(t.tokens, user), user);
    }
  }
}
