/**
 * What revoking all tokens of a user ends, after a password reset or the reuse of a revoked token, and the one
 * thing that outlives it: a refresh that read its token before.
 */
module SessionResets {
  import opened Options
  import opened Sessions

  /** A refresh under way with a token of this user. */
  predicate OfUser(tokens: Tokens, f: Flight, user: User)
  {
    (f.Read? || f.Rotating?) && f.token < |tokens| && tokens[f.token].user == user
  }

  /** The write that revokes all tokens of `user`: a reset's, or that of a refresh which read a revoked token. */
  predicate Revokes(s: State, v: Event, user: User)
  {
    v == ResetPassword(user) || (v.Proceed? && v.p < |s.flights| && s.flights[v.p] == Reused(user))
  }

  /** The event stores the replacement of a token of `user`, by one of the first `m` refreshes. */
  predicate StoresFor(s: State, v: Event, user: User, m: nat)
  {
    && v.Proceed? && v.p < m && v.p < |s.flights|
    && s.flights[v.p].Rotating? && OfUser(s.tokens, s.flights[v.p], user)
  }

  /** Some event of the run does. */
  predicate StoresLate(s: State, events: seq<Event>, user: User, m: nat)
  {
    |events| != 0 &&
      (StoresLate(s, events[..|events| - 1], user, m)
       || StoresFor(Run(s, events[..|events| - 1]), events[|events| - 1], user, m))
  }

  /** A token of `user` that descends from a session opened before `cut`, but was issued later. */
  ghost predicate Descendant(tokens: Tokens, user: User, cut: nat)
  {
    exists k :: cut <= k < |tokens| && tokens[k].user == user && tokens[k].session < cut
  }

  /** A live token of `user` from a session opened before `cut`. */
  ghost predicate LiveEarlier(tokens: Tokens, user: User, cut: nat)
  {
    exists k :: 0 <= k < |tokens| && tokens[k].user == user && tokens[k].session < cut && !tokens[k].revoked
  }

  /**
   * The user's old sessions are over: their tokens are revoked and older than the cut, and the only
   * refreshes under way with them are among the first `m`.
   */
  ghost predicate Sealed(s: State, user: User, cut: nat, m: nat)
  {
    && cut <= |s.tokens| && m <= |s.flights|
    && (forall k :: 0 <= k < |s.tokens| && s.tokens[k].user == user && s.tokens[k].session < cut ==>
        k < cut && s.tokens[k].revoked)
    && (forall p :: m <= p < |s.flights| && OfUser(s.tokens, s.flights[p], user) ==>
        s.tokens[s.flights[p].token].session >= cut)
    && (forall p :: 0 <= p < m && OfUser(s.tokens, s.flights[p], user) ==> s.flights[p].token < cut)
  }

  lemma StepSealed(s: State, v: Event, user: User, cut: nat, m: nat)
    requires Ok(s) && Sealed(s, user, cut, m) && !StoresFor(s, v, user, m)
    ensures Sealed(Next(s, v), user, cut, m)
  {
    var n := Next(s, v);
    if v.Proceed? && v.p < |s.flights| {
      assert FlightOk(s.tokens, s.flights[v.p]);
    }
    forall k | 0 <= k < |n.tokens| && n.tokens[k].user == user && n.tokens[k].session < cut
      ensures k < cut && n.tokens[k].revoked
    {
    }
    forall p | 0 <= p < |n.flights| && OfUser(n.tokens, n.flights[p], user)
      ensures if p < m then n.flights[p].token < cut else n.tokens[n.flights[p].token].session >= cut
    {
      assert p < |s.flights| ==> OfUser(s.tokens, s.flights[p], user);
    }
  }

  lemma SealedNoDescendant(s: State, user: User, cut: nat, m: nat)
    requires Sealed(s, user, cut, m)
    ensures !Descendant(s.tokens, user, cut) && !LiveEarlier(s.tokens, user, cut)
  {
  }

  lemma {:induction false} RunSealed(s: State, events: seq<Event>, user: User, cut: nat, m: nat)
    requires Ok(s) && Sealed(s, user, cut, m) && !StoresLate(s, events, user, m)
    ensures Sealed(Run(s, events), user, cut, m)
  {
    if |events| != 0 {
      RunSealed(s, events[..|events| - 1], user, cut, m);
      RunOk(s, events[..|events| - 1]);
      StepSealed(Run(s, events[..|events| - 1]), events[|events| - 1], user, cut, m);
    }
  }

  /** Of the first `m` refreshes, those that are not over carry the tokens they read. */
  ghost predicate SameFlights(flights: seq<Flight>, flights': seq<Flight>, m: nat)
  {
    && m <= |flights| && m <= |flights'|
    && forall p :: 0 <= p < m ==>
         (flights'[p].Read? || flights'[p].Rotating?) ==>
           (flights[p].Read? || flights[p].Rotating?) && flights'[p].token == flights[p].token
  }

  lemma {:induction false} RunSameFlights(s: State, events: seq<Event>, m: nat)
    requires m <= |s.flights|
    ensures SameFlights(s.flights, Run(s, events).flights, m)
  {
    if |events| != 0 {
      RunSameFlights(s, events[..|events| - 1], m);
    }
  }

  lemma DescendantStays(s: State, v: Event, user: User, cut: nat)
    requires Descendant(s.tokens, user, cut)
    ensures Descendant(Next(s, v).tokens, user, cut)
  {
    StepAdvances(s, v);
    var k :| cut <= k < |s.tokens| && s.tokens[k].user == user && s.tokens[k].session < cut;
    assert Succeeds(s.tokens[k], Next(s, v).tokens[k]);
  }

  lemma StoringDescends(s: State, v: Event, user: User, cut: nat, m: nat)
    requires Ok(s) && cut <= |s.tokens| && StoresFor(s, v, user, m) && s.flights[v.p].token < cut
    ensures Descendant(Next(s, v).tokens, user, cut) && LiveEarlier(Next(s, v).tokens, user, cut)
  {
    assert TokenOk(s.tokens, s.flights[v.p].token);
    assert Next(s, v).tokens[|s.tokens|].session < cut;
  }

  lemma {:induction false} LateDescends(s: State, events: seq<Event>, user: User, cut: nat, m: nat)
    requires Ok(s) && cut <= |s.tokens| && m <= |s.flights| && StoresLate(s, events, user, m)
    requires forall p :: 0 <= p < m && (s.flights[p].Read? || s.flights[p].Rotating?) ==> s.flights[p].token < cut
    ensures Descendant(Run(s, events).tokens, user, cut)
  {
    var front, v := events[..|events| - 1], events[|events| - 1];
    var n := Run(s, front);
    RunOk(s, front);
    if StoresLate(s, front, user, m) {
      LateDescends(s, front, user, cut, m);
      DescendantStays(n, v, user, cut);
    } else {
      RunSameFlights(s, front, m);
      StoringDescends(n, v, user, cut, m);
    }
  }

  lemma RevokingSeals(s: State, v: Event, user: User)
    requires Ok(s) && Revokes(s, v, user)
    ensures var n := Next(s, v);
            && Ok(n) && Sealed(n, user, |s.tokens|, |s.flights|)
            && |n.tokens| == |s.tokens| && Advances(s.tokens, n.tokens) && |n.flights| == |s.flights|
            && (forall k :: 0 <= k < |n.tokens| && n.tokens[k].user == user ==> n.tokens[k].revoked)
            && (forall p :: 0 <= p < |s.flights| && (s.flights[p].Read? || s.flights[p].Rotating?) ==>
                n.flights[p] == s.flights[p] && s.flights[p].token < |s.tokens|)
            && (forall p :: 0 <= p < |s.flights| && (n.flights[p].Read? || n.flights[p].Rotating?) ==>
                n.flights[p] == s.flights[p])
  {
    StepOk(s, v);
    StepAdvances(s, v);
    forall p | 0 <= p < |s.flights| ensures FlightOk(s.tokens, s.flights[p]) {
    }
    forall k | 0 <= k < |s.tokens| ensures TokenOk(s.tokens, k) {
    }
  }

  /**
   * After the revocation a token that descends from one of the user's earlier sessions is issued exactly if
   * a refresh that read its token before stores the replacement after it.
   */
  lemma DescendantIffStoredLate(s: State, v: Event, user: User, events: seq<Event>)
    requires Reachable(s) && Revokes(s, v, user)
    ensures Descendant(Run(Next(s, v), events).tokens, user, |s.tokens|)
            <==> StoresLate(Next(s, v), events, user, |s.flights|)
  {
    var past :| s == Run(INITIAL, past);
    RunInvariant(past);
    RevokingSeals(s, v, user);
    var n := Next(s, v);
    if StoresLate(n, events, user, |s.flights|) {
      LateDescends(n, events, user, |s.tokens|, |s.flights|);
    } else {
      RunSealed(n, events, user, |s.tokens|, |s.flights|);
      SealedNoDescendant(Run(n, events), user, |s.tokens|, |s.flights|);
    }
  }

  /**
   * Unless such a refresh does, every token the user had at the revocation, and every token of a session
   * opened before it, stays revoked, and presenting one starts no refresh.
   */
  lemma RevocationEndsSessions(s: State, v: Event, user: User, events: seq<Event>, i: nat, now: int)
    requires Reachable(s) && Revokes(s, v, user) && !StoresLate(Next(s, v), events, user, |s.flights|)
    requires var later := Run(Next(s, v), events).tokens;
             i < |later| && later[i].user == user && (i < |s.tokens| || later[i].session < |s.tokens|)
    ensures var later := Run(Next(s, v), events).tokens;
            later[i].revoked && Looked(later, i, now) == Some(Reused(user))
  {
    var past :| s == Run(INITIAL, past);
    RunInvariant(past);
    RevokingSeals(s, v, user);
    var n := Next(s, v);
    RunSealed(n, events, user, |s.tokens|, |s.flights|);
    RunOk(n, events);
    if i < |s.tokens| {
      assert TokenOk(s.tokens, i) && Succeeds(n.tokens[i], Run(n, events).tokens[i]);
    }
  }

  /** The run after the revocation leaves the user no live token of an earlier session. */
  ghost predicate EndsThem(s: State, v: Event, user: User, events: seq<Event>)
  {
    !LiveEarlier(Run(Next(s, v), events).tokens, user, |s.tokens|)
  }

  ghost predicate Quiet(s: State, user: User)
  {
    forall p :: 0 <= p < |s.flights| ==> !OfUser(s.tokens, s.flights[p], user)
  }

  lemma CompleteIffQuiet(s: State, v: Event, user: User)
    requires Reachable(s) && Revokes(s, v, user)
    ensures Quiet(s, user) <==> forall events :: EndsThem(s, v, user, events)
  {
    var past :| s == Run(INITIAL, past);
    RunInvariant(past);
    if p :| 0 <= p < |s.flights| && OfUser(s.tokens, s.flights[p], user) {
      var events := Overtaken(s, v, p, user);
      assert !EndsThem(s, v, user, events);
    } else {
      forall events ensures EndsThem(s, v, user, events) {
        QuietRevocation(s, v, user, events);
      }
    }
  }

  /** Whether a reset is complete in every continuation is decided when it runs: by the refreshes under way. */
  lemma ResetCompleteIffQuiet(s: State, user: User)
    requires Reachable(s)
    ensures Quiet(s, user) <==> forall events :: EndsThem(s, ResetPassword(user), user, events)
  {
    CompleteIffQuiet(s, ResetPassword(user), user);
  }

  /**
   * The same of the revocation that answers the reuse of token `i`: it ends every session of the user for good
   * exactly if no refresh of that user has read a live token and not finished when it is written.
   */
  lemma ReuseCompleteIffQuiet(s: State, i: nat, now: int, between: seq<Event>, expiresAt: int)
    requires Reachable(s) && i < |s.tokens| && s.tokens[i].revoked
    requires var t := Run(Next(s, Present(i, now)), between);
             |s.flights| < |t.flights| && t.flights[|s.flights|] == Reused(s.tokens[i].user)
    ensures var t := Run(Next(s, Present(i, now)), between);
            Quiet(t, s.tokens[i].user)
            <==> forall events :: EndsThem(t, Proceed(|s.flights|, expiresAt), s.tokens[i].user, events)
  {
    StillReachable(s, [Present(i, now)] + between);
    RunConcat(s, [Present(i, now)], between);
    assert [Present(i, now)][..0] == [];
    assert Run(s, [Present(i, now)]) == Next(s, Present(i, now));
    CompleteIffQuiet(Run(Next(s, Present(i, now)), between), Proceed(|s.flights|, expiresAt), s.tokens[i].user);
  }

  lemma StillReachable(s: State, events: seq<Event>)
    requires Reachable(s)
    ensures Reachable(Run(s, events))
  {
    var past :| s == Run(INITIAL, past);
    RunConcat(INITIAL, past, events);
  }

  lemma QuietRevocation(s: State, v: Event, user: User, events: seq<Event>)
    requires Ok(s) && Revokes(s, v, user) && Quiet(s, user)
    ensures EndsThem(s, v, user, events)
  {
    var n := Next(s, v);
    RevokingSeals(s, v, user);
    forall p | 0 <= p < |n.flights| ensures !OfUser(n.tokens, n.flights[p], user) {
      assert !OfUser(s.tokens, s.flights[p], user);
    }
    QuietNeverStores(n, events, user, |s.flights|);
    RunSealed(n, events, user, |s.tokens|, |s.flights|);
    SealedNoDescendant(Run(n, events), user, |s.tokens|, |s.flights|);
  }

  lemma Overtaken(s: State, v: Event, p: nat, user: User) returns (events: seq<Event>)
    requires Ok(s) && Revokes(s, v, user) && p < |s.flights| && OfUser(s.tokens, s.flights[p], user)
    ensures !EndsThem(s, v, user, events)
  {
    RevokingSeals(s, v, user);
    events := Outlive(Next(s, v), p, user, |s.tokens|);
  }

  lemma StaysForeign(s: State, n: State, p: nat, m: nat, user: User)
    requires Ok(s) && p < m && SameFlights(s.flights, n.flights, m) && Advances(s.tokens, n.tokens)
    requires !OfUser(s.tokens, s.flights[p], user)
    ensures !OfUser(n.tokens, n.flights[p], user)
  {
    assert FlightOk(s.tokens, s.flights[p]);
  }

  lemma {:induction false} QuietNeverStores(s: State, events: seq<Event>, user: User, m: nat)
    requires Ok(s) && m <= |s.flights| && forall p :: 0 <= p < m ==> !OfUser(s.tokens, s.flights[p], user)
    ensures !StoresLate(s, events, user, m)
  {
    if |events| != 0 {
      var front := events[..|events| - 1];
      QuietNeverStores(s, front, user, m);
      RunSameFlights(s, front, m);
      RunOk(s, front);
      forall p | 0 <= p < m ensures !OfUser(Run(s, front).tokens, Run(s, front).flights[p], user) {
        StaysForeign(s, Run(s, front), p, m, user);
      }
    }
  }

  /** A refresh that read before the reset goes through after it. */
  lemma Outlive(s: State, p: nat, user: User, cut: nat) returns (events: seq<Event>)
    requires Ok(s) && cut <= |s.tokens| && p < |s.flights| && OfUser(s.tokens, s.flights[p], user)
        && s.flights[p].token < cut
    ensures LiveEarlier(Run(s, events).tokens, user, cut)
  {
    var v := Proceed(p, 0);
    var n := Next(s, v);
    assert [v][..0] == [] && [v, v][..1] == [v];
    assert Run(s, [v]) == n;
    if s.flights[p].Read? {
      StepOk(s, v);
      StoringDescends(n, v, user, cut, |n.flights|);
      assert Run(s, [v, v]) == Next(n, v);
      events := [v, v];
    } else {
      StoringDescends(s, v, user, cut, |s.flights|);
      events := [v];
    }
  }
}
