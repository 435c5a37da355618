/** A counter's lifetime ends: one window after the `EXPIRE` of its first hit, the client starts over. */
module CounterLifetimes {
  import opened Options
  import opened RateLimit

  /** The `EXPIRE`s still to be sent are those of the counters that have no time to live yet. */
  ghost predicate Tracked(s: State)
  {
    forall k :: TrackedAt(s, k)
  }

  predicate TrackedAt(s: State, k: Key)
  {
    && s.pending[k] == (if k in s.store && s.store[k].expires.None? then 1 else 0)
    && (k in s.store ==> s.store[k].count >= 1 && s.store[k].since <= s.clock)
  }

  lemma StepTracked(l: Limiter, s: State, v: Event)
    requires Tracked(s)
    ensures Tracked(Next(l, s, v))
  {
    var n := Next(l, s, v);
    forall k ensures TrackedAt(n, k) {
      assert TrackedAt(s, k);
      if v.Request? {
        assert TrackedAt(s, KeyFor(l, v.subject, s.clock));
      }
    }
  }

  lemma {:induction false} RunTracked(l: Limiter, clock: int, events: seq<Event>)
    ensures Tracked(Run(l, Initial(clock), events))
  {
    if |events| != 0 {
      RunTracked(l, clock, events[..|events| - 1]);
      StepTracked(l, Run(l, Initial(clock), events[..|events| - 1]), events[|events| - 1]);
    }
  }

  /** No hit of `k` at `end` or after. */
  ghost predicate Rested(t: State, k: Key, end: int)
  {
    forall i :: 0 <= i < |t.log| && t.log[i].key == k ==> t.log[i].at < end
  }

  /** The lifetime of `k` that began at `since` is over at `end`; hits from position `from` on keep to that. */
  ghost predicate Ending(s: State, k: Key, since: int, end: int, from: nat)
  {
    && since < end && from <= |s.log| && k in s.store
    && (if s.store[k].since == since then s.store[k].expires == Some(end)
        else s.store[k].since >= end && !Rested(s, k, end))
    && forall i :: from <= i < |s.log| && s.log[i].key == k ==>
         if s.log[i].since == since then s.log[i].at < end else s.log[i].since >= end
  }

  lemma StepEnding(l: Limiter, s: State, v: Event, k: Key, since: int, end: int, from: nat)
    requires Tracked(s) && Ending(s, k, since, end, from)
    ensures Ending(Next(l, s, v), k, since, end, from)
  {
    assert TrackedAt(s, k);
    match v
    case Request(subject) =>
      var n := Next(l, s, v);
      assert forall i :: 0 <= i < |s.log| ==> n.log[i] == s.log[i];
      if KeyFor(l, subject, s.clock) == k {
        assert n.store[k] == Incr(s.store, k, s.clock)[k] && n.log[|s.log|].key == k;
      }
    case SendExpire(q) =>
      if q == k && k in s.pending {
        assert s.pending[k] > 0;
      }
    case Elapse(_) =>
  }

  lemma {:induction false} RunEnding(l: Limiter, s: State, events: seq<Event>, k: Key, since: int, end: int, from: nat)
    requires Tracked(s) && Ending(s, k, since, end, from)
    ensures Tracked(Run(l, s, events)) && Ending(Run(l, s, events), k, since, end, from)
  {
    if |events| != 0 {
      RunEnding(l, s, events[..|events| - 1], k, since, end, from);
      StepTracked(l, Run(l, s, events[..|events| - 1]), events[|events| - 1]);
      StepEnding(l, Run(l, s, events[..|events| - 1]), events[|events| - 1], k, since, end, from);
    }
  }

  lemma ExpireEnds(l: Limiter, s: State, k: Key)
    requires l.window >= 1 && Tracked(s) && k in s.pending
    ensures k in s.store && Tracked(Next(l, s, SendExpire(k)))
    ensures Ending(Next(l, s, SendExpire(k)), k, s.store[k].since, s.clock + l.window, |s.log|)
  {
    StepTracked(l, s, SendExpire(k));
    assert TrackedAt(s, k);
  }

  lemma Ends(l: Limiter, s: State, k: Key, events: seq<Event>)
    requires l.window >= 1 && Tracked(s) && k in s.pending
    ensures var t := Run(l, Next(l, s, SendExpire(k)), events);
            k in s.store && Tracked(t) && Ending(t, k, s.store[k].since, s.clock + l.window, |s.log|)
  {
    ExpireEnds(l, s, k);
    RunEnding(l, Next(l, s, SendExpire(k)), events, k, s.store[k].since, s.clock + l.window, |s.log|);
  }

  /**
   * In every run: once the `EXPIRE` of a counter's first hit is sent, at `s.clock`, no hit of that lifetime
   * comes a window later or after.
   */
  lemma LifetimeEnds(l: Limiter, clock: int, past: seq<Event>, k: Key, events: seq<Event>, s: State, t: State)
    requires l.window >= 1 && s == Run(l, Initial(clock), past) && k in s.pending
    requires t == Run(l, Next(l, s, SendExpire(k)), events)
    ensures k in s.store && |s.log| <= |t.log|
    ensures forall i :: |s.log| <= i < |t.log| && t.log[i].key == k && t.log[i].since == s.store[k].since ==>
              t.log[i].at < s.clock + l.window
  {
    RunTracked(l, clock, past);
    Ends(l, s, k, events);
  }

  /** So the subject's next request from then on is the first of a new counter, and passes. */
  lemma StartsOver(l: Limiter, clock: int, past: seq<Event>, k: Key, events: seq<Event>, s: State, t: State)
    requires l.window >= 1 && s == Run(l, Initial(clock), past) && k in s.pending
    requires t == Run(l, Next(l, s, SendExpire(k)), events)
    requires t.clock >= s.clock + l.window && KeyFor(l, k.subject, t.clock) == k && Rested(t, k, s.clock + l.window)
    ensures Next(l, t, Request(k.subject)).log == t.log + [Hit(k, t.clock, t.clock, 1)]
    ensures l.limit >= 1 ==> Passes(l, Hit(k, t.clock, t.clock, 1))
  {
    RunTracked(l, clock, past);
    Ends(l, s, k, events);
    EndedStartsOver(l, t, k, s.store[k].since, s.clock + l.window, |s.log|);
  }

  lemma EndedStartsOver(l: Limiter, t: State, k: Key, since: int, end: int, from: nat)
    requires Tracked(t) && Ending(t, k, since, end, from) && t.clock >= end
    requires KeyFor(l, k.subject, t.clock) == k && Rested(t, k, end)
    ensures Next(l, t, Request(k.subject)).log == t.log + [Hit(k, t.clock, t.clock, 1)]
  {
    assert TrackedAt(t, k);
  }

  /**
   * The flood check's client, whose key never changes: a window after the `EXPIRE` of its first request it
   * has its whole allowance again.
   */
  lemma FloodStartsOver(limit: nat, window: nat, clock: int, past: seq<Event>, client: string, events: seq<Event>,
                        s: State, t: State)
    requires window >= 1 && limit >= 1 && s == Run(FloodLimiter(limit, window), Initial(clock), past)
    requires Key(client, 0) in s.pending
    requires var l := FloodLimiter(limit, window); t == Run(l, Next(l, s, SendExpire(Key(client, 0))), events)
    requires t.clock >= s.clock + window
    requires forall i :: 0 <= i < |t.log| && t.log[i].key.subject == client ==> t.log[i].at < s.clock + window
    ensures var log := Next(FloodLimiter(limit, window), t, Request(client)).log;
            log == t.log + [Hit(Key(client, 0), t.clock, t.clock, 1)] && log[|t.log|].count <= limit
  {
    StartsOver(FloodLimiter(limit, window), clock, past, Key(client, 0), events, s, t);
  }
}
