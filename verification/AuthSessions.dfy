/** The session requests of the authentication service, each as the steps of the interleaved model. */
module AuthSessions {
  import opened Options
  import opened Sequences
  import opened Sessions
  import opened SessionForks

  datatype Reply = Pair(token: nat) | Unauthorized

  class AuthService {
    var tokens: Tokens
    const ttl: nat

    constructor (ttl: nat)
      ensures this.ttl == ttl && tokens == []
    {
      this.ttl := ttl;
      tokens := [];
    }

    /** Other requests run while this one awaits; every method below keeps what is assumed of them here. */
    method Await(ghost quiet: bool)
      modifies this`tokens
      ensures Advances(old(tokens), tokens) && (quiet ==> tokens == old(tokens))
    {
    }

    method LogIn(user: User, now: int) returns (reply: Reply)
      modifies this`tokens
      ensures tokens == old(tokens) + [Token(user, |old(tokens)|, None, false, now + ttl, 0)]
      ensures reply == Pair(|old(tokens)|)
      ensures Advances(old(tokens), tokens)
    {
      reply := Pair(|tokens|);
      tokens := Opened(tokens, user, now + ttl);
    }

    /**
     * A live token is revoked and, later, replaced; a revoked one has everything its user holds revoked.
     * `first` and `second` are the tokens as the two writes find them: neither write checks them.
     */
    method Refresh(presented: nat, now: int, ghost quiet: bool)
      returns (reply: Reply, ghost first: Tokens, ghost second: Tokens)
      modifies this`tokens
      ensures Advances(old(tokens), tokens)
      ensures match Looked(old(tokens), presented, now)
              case None => reply == Unauthorized && tokens == old(tokens)
              case Some(Read(_)) =>
                && Advances(old(tokens), first) && Advances(RevokeOne(first, presented), second)
                && tokens == Replaced(second, presented, now + ttl) && reply == Pair(|second|)
              case Some(Reused(user)) =>
                && Advances(old(tokens), first) && tokens == RevokeAll(first, user) && reply == Unauthorized
                && Sum(Live(user), tokens) == 0
              case _ => false
      // who gets a pair, and what is stored then
      ensures presented >= |old(tokens)| ==> reply == Unauthorized && tokens == old(tokens)
      ensures presented < |old(tokens)| && !old(tokens)[presented].revoked ==>
                && (reply == Unauthorized <==> old(tokens)[presented].expiresAt < now)
                && (reply == Unauthorized ==> tokens == old(tokens))
      ensures reply.Pair? ==>
                && presented < |second| && |tokens| == |second| + 1
                && var t := second[presented];
                && t.revoked
                && tokens[|second|] == Token(t.user, t.session, Some(presented), false, now + ttl, 0)
                && forall k :: 0 <= k < |second| && k != presented ==> tokens[k] == second[k]
      ensures presented < |old(tokens)| && old(tokens)[presented].revoked ==>
                && reply == Unauthorized && |tokens| == |first|
                && forall k :: 0 <= k < |first| ==>
                     tokens[k] == if first[k].user == old(tokens)[presented].user then first[k].(revoked := true)
                                  else first[k]
      ensures quiet ==> first == old(tokens)
      ensures quiet && reply.Pair? ==> second == RevokeOne(first, presented)
    {
      first, second := tokens, tokens;
      if presented >= |tokens| {
        reply := Unauthorized;
        return;
      }
      var existing := tokens[presented];
      if existing.revoked {
        Await(quiet);
        first := tokens;
        tokens := RevokeAll(tokens, existing.user);
        NoneLive(tokens, existing.user);
        reply := Unauthorized;
        return;
      }
      if existing.expiresAt < now {
        reply := Unauthorized;
        return;
      }
      Await(quiet);
      first := tokens;
      tokens := RevokeOne(tokens, presented);
      Await(quiet);
      second := tokens;
      reply := Pair(|tokens|);
      tokens := Replaced(tokens, presented, now + ttl);
    }

    /** One guarded update: an unknown or revoked token changes nothing. */
    method LogOut(presented: nat)
      modifies this`tokens
      ensures tokens == if presented < |old(tokens)|
                        then old(tokens)[presented := old(tokens)[presented].(revoked := true)] else old(tokens)
      ensures Advances(old(tokens), tokens)
    {
      if presented < |tokens| && !tokens[presented].revoked {
        tokens := RevokeOne(tokens, presented);
      }
    }

    /** The second write of the reset transaction; the first sets the password. */
    method RevokeSessions(user: User)
      modifies this`tokens
      ensures tokens == RevokeAll(old(tokens), user) && Sum(Live(user), tokens) == 0
      ensures |tokens| == |old(tokens)| && forall k :: 0 <= k < |tokens| ==>
                tokens[k] == if old(tokens)[k].user == user then old(tokens)[k].(revoked := true) else old(tokens)[k]
      ensures Advances(old(tokens), tokens)
    {
      tokens := RevokeAll(tokens, user);
      NoneLive(tokens, user);
    }
  }
}
