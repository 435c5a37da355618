/** Refresh tokens: rotation, reuse, logout and password reset, with every read and write a step of its own. */
module Sessions {
  import opened Options
  import opened Sequences

  type User = string

  /**
   * A stored token. `parent` is the token it replaced, `session` the login it descends from; both, and
   * `children`, the number of tokens that replaced it, are history.
   */
  datatype Token = Token(user: User, session: nat, parent: Option<nat>, revoked: bool, expiresAt: int, children: nat)

  /** A token is known by its position: hashes of the random values handed out are taken to be distinct. */
  type Tokens = seq<Token>

  // ---- The writes ----

  function Revoke(t: Token): Token { t.(revoked := true) }

  function RevokeOne(tokens: Tokens, i: nat): Tokens
    requires i < |tokens|
  {
    tokens[i := Revoke(tokens[i])]
  }

  /** `updateMany({ userId, revoked: false })` */
  function RevokeAll(tokens: Tokens, user: User): (r: Tokens)
    ensures |r| == |tokens|
    ensures forall i :: 0 <= i < |tokens| ==> r[i] == if tokens[i].user == user then Revoke(tokens[i]) else tokens[i]
  {
    seq(|tokens|, i requires 0 <= i < |tokens| => if tokens[i].user == user then Revoke(tokens[i]) else tokens[i])
  }

  /** Login, registration and single sign-on all end here. */
  function Opened(tokens: Tokens, user: User, expiresAt: int): Tokens
  {
    tokens + [Token(user, |tokens|, None, false, expiresAt, 0)]
  }

  function Heir(tokens: Tokens, i: nat, expiresAt: int): Token
    requires i < |tokens|
  {
    Token(tokens[i].user, tokens[i].session, Some(i), false, expiresAt, 0)
  }

  /** The token that replaces token `i` is stored. */
  function Replaced(tokens: Tokens, i: nat, expiresAt: int): Tokens
    requires i < |tokens|
  {
    tokens[i := tokens[i].(children := tokens[i].children + 1)] + [Heir(tokens, i, expiresAt)]
  }

  /** Both writes of a rotation. */
  function Rotated(tokens: Tokens, i: nat, expiresAt: int): Tokens
    requires i < |tokens|
  {
    Replaced(RevokeOne(tokens, i), i, expiresAt)
  }

  // ---- Requests interleaved ----

  /** A refresh under way: it read a live token, or has also revoked it; or it read a revoked one of this user. */
  datatype Flight = Read(token: nat) | Rotating(token: nat) | Reused(user: User) | Over

  datatype State = State(tokens: Tokens, flights: seq<Flight>)

  datatype Event =
    | LogIn(user: User, expiresAt: int)
    | Present(token: nat, now: int)
    | Proceed(p: nat, expiresAt: int)
    | LogOut(token: nat)
    | ResetPassword(user: User)

  /** `findUnique` and the checks behind it. */
  function Looked(tokens: Tokens, i: nat, now: int): Option<Flight>
  {
    if i >= |tokens| then None
    else if tokens[i].revoked then Some(Reused(tokens[i].user))
    else if tokens[i].expiresAt < now then None
    else Some(Read(i))
  }

  /** The next write of a refresh; none is guarded. */
  function Step(s: State, p: nat, expiresAt: int): State
    requires p < |s.flights|
  {
    match s.flights[p]
    case Read(i) =>
      if i < |s.tokens| then State(RevokeOne(s.tokens, i), s.flights[p := Rotating(i)]) else s
    case Rotating(i) =>
      if i < |s.tokens| then State(Replaced(s.tokens, i, expiresAt), s.flights[p := Over]) else s
    case Reused(user) => State(RevokeAll(s.tokens, user), s.flights[p := Over])
    case Over => s
  }

  function Next(s: State, v: Event): State
  {
    match v
    case LogIn(user, expiresAt) => s.(tokens := Opened(s.tokens, user, expiresAt))
    case Present(i, now) =>
      if Looked(s.tokens, i, now).Some? then s.(flights := s.flights + [Looked(s.tokens, i, now).value]) else s
    case Proceed(p, expiresAt) => if p < |s.flights| then Step(s, p, expiresAt) else s
    case LogOut(i) => if i < |s.tokens| then s.(tokens := RevokeOne(s.tokens, i)) else s
    case ResetPassword(user) => s.(tokens := RevokeAll(s.tokens, user))
  }

  function Run(s: State, events: seq<Event>): State
  {
    if |events| == 0 then s else Next(Run(s, events[..|events| - 1]), events[|events| - 1])
  }

  /** The interleaved requests write what the service's methods write. */
  lemma RequestSteps(s: State, user: User, i: nat, p: nat, at: int)
    ensures Next(s, LogIn(user, at)) == s.(tokens := s.tokens + [Token(user, |s.tokens|, None, false, at, 0)])
    ensures i < |s.tokens| ==> Next(s, LogOut(i)) == s.(tokens := s.tokens[i := s.tokens[i].(revoked := true)])
    ensures i < |s.tokens| && !s.tokens[i].revoked ==>
              Next(s, Present(i, at)) == if s.tokens[i].expiresAt < at then s else s.(flights := s.flights + [Read(i)])
    ensures i < |s.tokens| && s.tokens[i].revoked ==>
              Next(s, Present(i, at)) == s.(flights := s.flights + [Reused(s.tokens[i].user)])
    ensures p < |s.flights| && s.flights[p] == Read(i) && i < |s.tokens| ==>
              Next(s, Proceed(p, at))
              == State(s.tokens[i := s.tokens[i].(revoked := true)], s.flights[p := Rotating(i)])
    ensures p < |s.flights| && s.flights[p] == Rotating(i) && i < |s.tokens| ==>
              var n, t := Next(s, Proceed(p, at)), s.tokens[i];
              && n.tokens == s.tokens[i := t.(children := t.children + 1)]
                             + [Token(t.user, t.session, Some(i), false, at, 0)]
              && n.flights == s.flights[p := Over]
  {
  }

  const INITIAL := State([], [])

  lemma {:induction false} RunConcat(s: State, xs: seq<Event>, ys: seq<Event>)
    ensures Run(s, xs + ys) == Run(Run(s, xs), ys)
  {
    if |ys| == 0 {
      assert xs + ys == xs;
    } else {
      RunConcat(s, xs, ys[..|ys| - 1]);
      assert (xs + ys)[..|xs + ys| - 1] == xs + ys[..|ys| - 1];
    }
  }

  ghost predicate Reachable(s: State) { exists events :: s == Run(INITIAL, events) }

  // ---- What every step keeps ----

  predicate TokenOk(tokens: Tokens, j: nat)
    requires j < |tokens|
  {
    && tokens[j].session <= j
    && (tokens[j].children > 0 ==> tokens[j].revoked)
    && match tokens[j].parent
       case None => tokens[j].session == j
       case Some(p) => p < j && tokens[p].session == tokens[j].session && tokens[p].user == tokens[j].user
                       && tokens[p].children > 0
  }

  predicate FlightOk(tokens: Tokens, f: Flight)
  {
    match f
    case Read(i) => i < |tokens|
    case Rotating(i) => i < |tokens| && tokens[i].revoked
    case _ => true
  }

  ghost predicate Ok(s: State)
  {
    && (forall j :: 0 <= j < |s.tokens| ==> TokenOk(s.tokens, j))
    && (forall p :: 0 <= p < |s.flights| ==> FlightOk(s.tokens, s.flights[p]))
  }

  /** Tokens are added and revoked, never changed otherwise or removed. */
  ghost predicate Advances(tokens: Tokens, tokens': Tokens)
  {
    && |tokens| <= |tokens'|
    && forall i :: 0 <= i < |tokens| ==> Succeeds(tokens[i], tokens'[i])
  }

  predicate Succeeds(t: Token, t': Token)
  {
    && t'.user == t.user && t'.session == t.session && t'.parent == t.parent && t'.expiresAt == t.expiresAt
    && (t.revoked ==> t'.revoked)
    && t.children <= t'.children
  }

  lemma StepAdvances(s: State, v: Event)
    ensures Advances(s.tokens, Next(s, v).tokens)
    ensures |s.flights| <= |Next(s, v).flights|
  {
  }

  lemma StepTokenOk(s: State, v: Event, j: nat)
    requires Ok(s) && j < |Next(s, v).tokens|
    ensures TokenOk(Next(s, v).tokens, j)
  {
    assert j < |s.tokens| ==> TokenOk(s.tokens, j);
    if v.Proceed? && v.p < |s.flights| && s.flights[v.p].Rotating? {
      assert FlightOk(s.tokens, s.flights[v.p]);
      assert TokenOk(s.tokens, s.flights[v.p].token);
    }
  }

  lemma StepOk(s: State, v: Event)
    requires Ok(s)
    ensures Ok(Next(s, v))
  {
    var n := Next(s, v);
    StepAdvances(s, v);
    forall j | 0 <= j < |n.tokens| ensures TokenOk(n.tokens, j) {
      StepTokenOk(s, v, j);
    }
    forall p | 0 <= p < |n.flights| ensures FlightOk(n.tokens, n.flights[p]) {
      assert p < |s.flights| ==> FlightOk(s.tokens, s.flights[p]);
    }
  }

  lemma {:induction false} RunOk(s: State, events: seq<Event>)
    requires Ok(s)
    ensures Ok(Run(s, events)) && Advances(s.tokens, Run(s, events).tokens)
    ensures |s.flights| <= |Run(s, events).flights|
  {
    if |events| != 0 {
      RunOk(s, events[..|events| - 1]);
      StepOk(Run(s, events[..|events| - 1]), events[|events| - 1]);
      StepAdvances(Run(s, events[..|events| - 1]), events[|events| - 1]);
    }
  }

  // ---- Paths, and what breaks them ----

  /** An earlier token of the same session is revoked, and the later one descends from it or from a later one. */
  predicate Behind(tokens: Tokens, i: nat, j: nat)
    requires i < j < |tokens|
  {
    tokens[i].session == tokens[j].session ==>
      tokens[i].revoked && tokens[j].parent.Some? && i <= tokens[j].parent.value
  }

  /** Each session is one path: every token but the first replaced the one before it, and only the last may be live. */
  ghost predicate Paths(tokens: Tokens) { forall i, j :: 0 <= i < j < |tokens| ==> Behind(tokens, i, j) }

  ghost predicate Unforked(tokens: Tokens) { forall i :: 0 <= i < |tokens| ==> tokens[i].children <= 1 }

  /**
   * A rotation keeps the paths exactly if the token is the last of its session. Nothing in the two writes
   * checks that.
   */
  lemma RotationKeepsPathsIff(tokens: Tokens, i: nat, expiresAt: int)
    requires Paths(tokens) && i < |tokens|
    ensures Paths(Rotated(tokens, i, expiresAt)) <==>
            forall j :: i < j < |tokens| ==> tokens[j].session != tokens[i].session
  {
    var n := Rotated(tokens, i, expiresAt);
    if forall j :: i < j < |tokens| ==> tokens[j].session != tokens[i].session {
      forall a, b | 0 <= a < b < |n| ensures Behind(n, a, b) {
        if b < |tokens| {
          assert Behind(tokens, a, b);
        } else if a < i {
          assert Behind(tokens, a, i);
        }
      }
    } else {
      var j :| i < j < |tokens| && tokens[j].session == tokens[i].session;
      assert !Behind(n, j, |tokens|);
    }
  }

  /** In a path a token that is not the last of its session was replaced. */
  lemma {:induction false} NextInSession(tokens: Tokens, i: nat, j: nat)
    requires Paths(tokens) && i < j < |tokens| && tokens[i].session == tokens[j].session
    requires forall k :: 0 <= k < |tokens| ==> TokenOk(tokens, k)
    ensures tokens[i].children > 0
    decreases j
  {
    assert Behind(tokens, i, j) && TokenOk(tokens, j);
    var p := tokens[j].parent.value;
    if p > i {
      NextInSession(tokens, i, p);
    }
  }

  /** The step that stores a replacement keeps the paths exactly if the token was not replaced before. */
  lemma ReplacementKeepsPathsIff(tokens: Tokens, i: nat, expiresAt: int)
    requires Paths(tokens) && i < |tokens| && tokens[i].revoked
    requires forall k :: 0 <= k < |tokens| ==> TokenOk(tokens, k)
    requires tokens[i].children > 0 ==> exists k :: 0 <= k < |tokens| && tokens[k].parent == Some(i)
    ensures Paths(Replaced(tokens, i, expiresAt)) <==> tokens[i].children == 0
  {
    var n := Replaced(tokens, i, expiresAt);
    if tokens[i].children == 0 {
      forall a, b | 0 <= a < b < |n| ensures Behind(n, a, b) {
        if b < |tokens| {
          assert Behind(tokens, a, b);
        } else if a < i {
          assert Behind(tokens, a, i);
        } else if i < a && tokens[a].session == tokens[i].session {
          NextInSession(tokens, i, a);
        }
      }
    } else {
      var k :| 0 <= k < |tokens| && tokens[k].parent == Some(i);
      assert TokenOk(tokens, k);
      assert !Behind(n, k, |tokens|);
    }
  }

  // ---- The number of replacements is the number of tokens that name the parent ----

  function ChildOf(i: nat): Token -> int { (t: Token) => if t.parent == Some(i) then 1 else 0 }

  predicate CountedAt(tokens: Tokens, i: nat)
  {
    Sum(ChildOf(i), tokens) == if i < |tokens| then tokens[i].children else 0
  }

  ghost predicate Counted(tokens: Tokens) { forall i: nat :: CountedAt(tokens, i) }

  lemma {:induction false} SameParents(tokens: Tokens, tokens': Tokens, i: nat)
    requires |tokens| == |tokens'| && forall k :: 0 <= k < |tokens| ==> tokens[k].parent == tokens'[k].parent
    ensures Sum(ChildOf(i), tokens) == Sum(ChildOf(i), tokens')
  {
    if |tokens| != 0 {
      SameParents(tokens[..|tokens| - 1], tokens'[..|tokens| - 1], i);
    }
  }

  /** All parents stay as they are; a token that is added counts as one replacement of its parent. */
  ghost predicate Grows(tokens: Tokens, tokens': Tokens)
  {
    var n := |tokens|;
    && n <= |tokens'| <= n + 1
    && (forall k :: 0 <= k < n ==> tokens'[k].parent == tokens[k].parent)
    && (|tokens'| == n ==> forall k :: 0 <= k < n ==> tokens'[k].children == tokens[k].children)
    && (|tokens'| > n ==>
          var t := tokens'[n];
          && t.children == 0 && (t.parent.Some? ==> t.parent.value < n)
          && forall k :: 0 <= k < n ==>
               tokens'[k].children == tokens[k].children + if t.parent == Some(k) then 1 else 0)
  }

  lemma StepGrows(s: State, v: Event)
    requires Ok(s)
    ensures Grows(s.tokens, Next(s, v).tokens)
  {
  }

  lemma GrownCounted(tokens: Tokens, tokens': Tokens, i: nat)
    requires Grows(tokens, tokens') && CountedAt(tokens, i)
    ensures CountedAt(tokens', i)
  {
    if |tokens'| == |tokens| {
      SameParents(tokens, tokens', i);
    } else {
      var front, t := tokens'[..|tokens|], tokens'[|tokens|];
      assert tokens' == front + [t];
      SameParents(tokens, front, i);
      SumSnoc(ChildOf(i), front, t);
    }
  }

  lemma StepCounted(s: State, v: Event, i: nat)
    requires Ok(s) && Counted(s.tokens)
    ensures CountedAt(Next(s, v).tokens, i)
  {
    StepGrows(s, v);
    assert CountedAt(s.tokens, i);
    GrownCounted(s.tokens, Next(s, v).tokens, i);
  }

  lemma {:induction false} ChildExists(tokens: Tokens, i: nat)
    requires Sum(ChildOf(i), tokens) > 0
    ensures exists k :: 0 <= k < |tokens| && tokens[k].parent == Some(i)
  {
    var n := |tokens| - 1;
    if tokens[n].parent != Some(i) {
      ChildExists(tokens[..n], i);
      var k :| 0 <= k < n && tokens[..n][k].parent == Some(i);
      assert tokens[k].parent == Some(i);
    }
  }

  lemma {:induction false} TwoChildren(tokens: Tokens, i: nat)
    requires Sum(ChildOf(i), tokens) > 1
    ensures exists a, b :: 0 <= a < b < |tokens| && tokens[a].parent == tokens[b].parent == Some(i)
  {
    var n := |tokens| - 1;
    if tokens[n].parent == Some(i) {
      ChildExists(tokens[..n], i);
      var a :| 0 <= a < n && tokens[..n][a].parent == Some(i);
      assert tokens[a].parent == tokens[n].parent == Some(i);
    } else {
      TwoChildren(tokens[..n], i);
      var a, b :| 0 <= a < b < n && tokens[..n][a].parent == tokens[..n][b].parent == Some(i);
      assert tokens[a].parent == tokens[b].parent == Some(i);
    }
  }

  // ---- In reachable states, sessions are paths exactly if no token was replaced twice ----

  lemma StepPaths(s: State, v: Event)
    requires Ok(s) && Counted(s.tokens) && Paths(s.tokens) && Unforked(Next(s, v).tokens)
    ensures Paths(Next(s, v).tokens)
  {
    var n := Next(s, v);
    if v.Proceed? && v.p < |s.flights| && s.flights[v.p].Rotating? {
      var i := s.flights[v.p].token;
      assert FlightOk(s.tokens, s.flights[v.p]) && CountedAt(s.tokens, i);
      assert n.tokens[i].children == s.tokens[i].children + 1;
      ReplacementKeepsPathsIff(s.tokens, i, v.expiresAt);
    } else {
      forall a, b | 0 <= a < b < |n.tokens| ensures Behind(n.tokens, a, b) {
        assert b < |s.tokens| ==> Behind(s.tokens, a, b);
        assert a < |s.tokens| ==> TokenOk(s.tokens, a);
      }
    }
  }

  lemma UnforkedBefore(s: State, v: Event)
    requires Unforked(Next(s, v).tokens)
    ensures Unforked(s.tokens)
  {
    StepAdvances(s, v);
    forall i | 0 <= i < |s.tokens| ensures s.tokens[i].children <= 1 {
      assert Succeeds(s.tokens[i], Next(s, v).tokens[i]);
    }
  }

  lemma {:induction false} RunInvariant(events: seq<Event>)
    ensures var s := Run(INITIAL, events);
            Ok(s) && Counted(s.tokens) && (Unforked(s.tokens) ==> Paths(s.tokens))
  {
    if |events| == 0 {
      forall i: nat ensures CountedAt(INITIAL.tokens, i) {
      }
    } else {
      var s, v := Run(INITIAL, events[..|events| - 1]), events[|events| - 1];
      RunInvariant(events[..|events| - 1]);
      StepOk(s, v);
      forall i: nat ensures CountedAt(Next(s, v).tokens, i) {
        StepCounted(s, v, i);
      }
      if Unforked(Next(s, v).tokens) {
        UnforkedBefore(s, v);
        StepPaths(s, v);
      }
    }
  }

  /** In every interleaving the sessions are paths exactly if no token was replaced twice. */
  lemma PathsIffUnforked(events: seq<Event>)
    ensures Paths(Run(INITIAL, events).tokens) <==> Unforked(Run(INITIAL, events).tokens)
  {
    var tokens := Run(INITIAL, events).tokens;
    RunInvariant(events);
    if i :| 0 <= i < |tokens| && tokens[i].children > 1 {
      assert CountedAt(tokens, i);
      TwoChildren(tokens, i);
      var a, b :| 0 <= a < b < |tokens| && tokens[a].parent == tokens[b].parent == Some(i);
      assert TokenOk(tokens, a) && TokenOk(tokens, b);
      assert !Behind(tokens, a, b);
    }
  }
}
