/** Counters with a time to live, as request limits: per organization and window, and per client without windows. */
module RateLimit {
  import opened Options
  import opened Sequences
  import opened Division

  // ---- Redis ----

  datatype Key = Key(subject: string, bucket: int)

  /** A counter, when it was created, and when it expires. */
  datatype Counter = Counter(count: nat, since: int, expires: Option<int>)

  type Store = map<Key, Counter>

  predicate Alive(store: Store, k: Key, now: int)
  {
    k in store && (store[k].expires.None? || now < store[k].expires.value)
  }

  /** `INCR`: an expired counter starts over, without a time to live. */
  function Incr(store: Store, k: Key, now: int): Store
  {
    store[k := if Alive(store, k, now) then store[k].(count := store[k].count + 1) else Counter(1, now, None)]
  }

  /** `EXPIRE` */
  function Expire(store: Store, k: Key, now: int, window: nat): Store
  {
    if Alive(store, k, now) then store[k := store[k].(expires := Some(now + window))] else store
  }

  // ---- Limiters ----

  /** `window` in milliseconds, and the bucket a time puts into the key. */
  datatype Limiter = Limiter(limit: nat, window: nat, bucketOf: int -> int)

  function KeyFor(l: Limiter, subject: string, now: int): Key { Key(subject, l.bucketOf(now)) }

  /** A counted request. `since` is when its counter was created. */
  datatype Hit = Hit(key: Key, since: int, at: int, count: nat)

  predicate Passes(l: Limiter, h: Hit) { h.count <= l.limit }

  /** `pending`: first hits whose `EXPIRE` is still to be sent. */
  datatype State = State(clock: int, store: Store, pending: multiset<Key>, log: seq<Hit>)

  datatype Event = Elapse(ms: nat) | Request(subject: string) | SendExpire(key: Key)

  function Next(l: Limiter, s: State, v: Event): State
  {
    match v
    case Elapse(ms) => s.(clock := s.clock + ms)
    case Request(subject) =>
      var k := KeyFor(l, subject, s.clock);
      var store := Incr(s.store, k, s.clock);
      s.(store := store,
         pending := s.pending + if store[k].count == 1 then multiset{k} else multiset{},
         log := s.log + [Hit(k, store[k].since, s.clock, store[k].count)])
    case SendExpire(k) =>
      if k in s.pending
      then s.(store := Expire(s.store, k, s.clock, l.window), pending := s.pending - multiset{k})
      else s
  }

  function Run(l: Limiter, s: State, events: seq<Event>): State
  {
    if |events| == 0 then s else Next(l, Run(l, s, events[..|events| - 1]), events[|events| - 1])
  }

  function Initial(clock: int): State { State(clock, map[], multiset{}, []) }

  // ---- The hits of one counter ----

  function One(b: bool): int { if b then 1 else 0 }

  predicate Counted(h: Hit, k: Key, since: int) { h.key == k && h.since == since }

  function Hits(k: Key, since: int): Hit -> int { (h: Hit) => One(Counted(h, k, since)) }

  function Passed(l: Limiter, k: Key, since: int): Hit -> int { (h: Hit) => One(Counted(h, k, since) && Passes(l, h)) }

  predicate NumberedAt(log: seq<Hit>, i: nat)
    requires i < |log|
  {
    log[i].count == Sum(Hits(log[i].key, log[i].since), log[..i]) + 1
  }

  /** Every hit was answered with its place among the hits of its counter. */
  ghost predicate Numbered(log: seq<Hit>) { forall i :: 0 <= i < |log| ==> NumberedAt(log, i) }

  function Min(a: int, b: int): int { if a <= b then a else b }

  lemma {:induction false} HitsNotNegative(k: Key, since: int, log: seq<Hit>)
    ensures Sum(Hits(k, since), log) >= 0
  {
    if |log| != 0 {
      HitsNotNegative(k, since, log[..|log| - 1]);
    }
  }

  /** Of the hits of a counter exactly the first `limit` pass. */
  lemma {:induction false} PassesPerCounter(l: Limiter, log: seq<Hit>, k: Key, since: int)
    requires Numbered(log)
    ensures Sum(Passed(l, k, since), log) == Min(Sum(Hits(k, since), log), l.limit)
  {
    if |log| != 0 {
      var n := |log| - 1;
      forall i | 0 <= i < n ensures NumberedAt(log[..n], i) {
        assert NumberedAt(log, i) && log[..n][..i] == log[..i];
      }
      PassesPerCounter(l, log[..n], k, since);
      HitsNotNegative(k, since, log[..n]);
      assert NumberedAt(log, n);
    }
  }

  // ---- What every step keeps ----

  /** The counter in the store counts the latest lifetime of its key. */
  ghost predicate StoreOk(l: Limiter, s: State, k: Key)
  {
    k in s.store ==>
      && s.store[k].since <= s.clock && l.bucketOf(s.store[k].since) == k.bucket
      && s.store[k].count == Sum(Hits(k, s.store[k].since), s.log)
      && (s.store[k].expires.Some? ==> s.store[k].since + l.window <= s.store[k].expires.value)
  }

  /** `h` came no later than `since`, from the counter created then or from one created a window or more before. */
  predicate Precedes(l: Limiter, h: Hit, since: int)
  {
    h.since == since || (h.since + l.window <= since && h.at <= since)
  }

  ghost predicate HitOk(l: Limiter, s: State, h: Hit)
  {
    && h.since <= h.at <= s.clock
    && h.key == KeyFor(l, h.key.subject, h.at) == KeyFor(l, h.key.subject, h.since)
    && h.key in s.store
    && Precedes(l, h, s.store[h.key].since)
  }

  ghost predicate Ordered(l: Limiter, log: seq<Hit>)
  {
    forall i, j :: 0 <= i < j < |log| ==>
      && log[i].at <= log[j].at
      && (log[i].key == log[j].key ==> Precedes(l, log[i], log[j].since))
  }

  ghost predicate Ok(l: Limiter, s: State)
  {
    && l.window >= 1
    && (forall k :: StoreOk(l, s, k))
    && (forall i :: 0 <= i < |s.log| ==> HitOk(l, s, s.log[i]))
    && Numbered(s.log)
    && Ordered(l, s.log)
  }

  lemma {:induction false} NoHitsOf(log: seq<Hit>, k: Key, since: int)
    requires forall i :: 0 <= i < |log| ==> !Counted(log[i], k, since)
    ensures Sum(Hits(k, since), log) == 0
  {
    if |log| != 0 {
      NoHitsOf(log[..|log| - 1], k, since);
    }
  }

  lemma NumberedSnoc(log: seq<Hit>, h: Hit)
    requires Numbered(log) && h.count == Sum(Hits(h.key, h.since), log) + 1
    ensures Numbered(log + [h])
  {
    forall i | 0 <= i <= |log| ensures NumberedAt(log + [h], i) {
      assert i < |log| ==> NumberedAt(log, i) && (log + [h])[..i] == log[..i];
      assert i == |log| ==> (log + [h])[..i] == log;
    }
  }

  /** The answer to a request is its place among the hits of its counter, a fresh counter having none. */
  lemma RequestCounted(l: Limiter, s: State, k: Key)
    requires Ok(l, s)
    ensures var c := Incr(s.store, k, s.clock)[k]; c.count == Sum(Hits(k, c.since), s.log) + 1
    ensures k in s.store ==>
              var c := Incr(s.store, k, s.clock)[k];
              || c == s.store[k].(count := c.count)
              || (c.since == s.clock && s.store[k].since + l.window <= c.since)
  {
    assert StoreOk(l, s, k);
    if !Alive(s.store, k, s.clock) {
      forall i | 0 <= i < |s.log| ensures !Counted(s.log[i], k, s.clock) {
        assert HitOk(l, s, s.log[i]);
      }
      NoHitsOf(s.log, k, s.clock);
    }
  }

  /** A request's hit, and the state without its log entry. */
  ghost predicate Answered(l: Limiter, s: State, n: State, h: Hit)
  {
    && h.key == KeyFor(l, h.key.subject, s.clock) && h.at == s.clock
    && n.clock == s.clock && n.log == s.log + [h] && n.store == Incr(s.store, h.key, s.clock)
    && h.since == n.store[h.key].since && h.count == n.store[h.key].count
  }

  lemma AnsweredOldHit(l: Limiter, s: State, n: State, h: Hit, x: Hit)
    requires Ok(l, s) && Answered(l, s, n, h) && HitOk(l, s, x)
    ensures HitOk(l, n, x) && x.at <= h.at && (x.key == h.key ==> Precedes(l, x, h.since))
  {
    assert StoreOk(l, s, h.key);
  }

  lemma AnsweredNewHit(l: Limiter, s: State, n: State, h: Hit)
    requires Ok(l, s) && Answered(l, s, n, h)
    ensures HitOk(l, n, h)
  {
    assert StoreOk(l, s, h.key);
  }

  lemma AnsweredHits(l: Limiter, s: State, n: State, h: Hit)
    requires Ok(l, s) && Answered(l, s, n, h)
    ensures forall i :: 0 <= i < |n.log| ==> HitOk(l, n, n.log[i])
    ensures Ordered(l, n.log)
  {
    AnsweredNewHit(l, s, n, h);
    forall i | 0 <= i < |s.log|
      ensures HitOk(l, n, s.log[i]) && s.log[i].at <= h.at && (s.log[i].key == h.key ==> Precedes(l, s.log[i], h.since))
    {
      AnsweredOldHit(l, s, n, h, s.log[i]);
    }
  }

  lemma AnsweredStore(l: Limiter, s: State, n: State, h: Hit, k: Key)
    requires Ok(l, s) && Answered(l, s, n, h)
    ensures StoreOk(l, n, k)
  {
    RequestCounted(l, s, h.key);
    assert StoreOk(l, s, k);
    if k in n.store {
      SumSnoc(Hits(k, n.store[k].since), s.log, h);
    }
  }

  lemma RequestOk(l: Limiter, s: State, subject: string)
    requires Ok(l, s)
    ensures Ok(l, Next(l, s, Request(subject)))
  {
    var n := Next(l, s, Request(subject));
    var h := n.log[|s.log|];
    RequestCounted(l, s, h.key);
    NumberedSnoc(s.log, h);
    AnsweredHits(l, s, n, h);
    forall k ensures StoreOk(l, n, k) {
      AnsweredStore(l, s, n, h, k);
    }
  }

  lemma ExpireOk(l: Limiter, s: State, k: Key)
    requires Ok(l, s)
    ensures Ok(l, Next(l, s, SendExpire(k)))
  {
    var n := Next(l, s, SendExpire(k));
    forall q ensures StoreOk(l, n, q) {
      assert StoreOk(l, s, q);
    }
    forall i | 0 <= i < |n.log| ensures HitOk(l, n, n.log[i]) {
      assert HitOk(l, s, s.log[i]);
    }
  }

  lemma ElapseOk(l: Limiter, s: State, ms: nat)
    requires Ok(l, s)
    ensures Ok(l, Next(l, s, Elapse(ms)))
  {
    var n := Next(l, s, Elapse(ms));
    forall q ensures StoreOk(l, n, q) {
      assert StoreOk(l, s, q);
    }
    forall i | 0 <= i < |n.log| ensures HitOk(l, n, n.log[i]) {
      assert HitOk(l, s, s.log[i]);
    }
  }

  lemma {:induction false} RunOk(l: Limiter, clock: int, events: seq<Event>)
    requires l.window >= 1
    ensures Ok(l, Run(l, Initial(clock), events))
  {
    if |events| != 0 {
      var s := Run(l, Initial(clock), events[..|events| - 1]);
      RunOk(l, clock, events[..|events| - 1]);
      match events[|events| - 1]
      case Elapse(ms) => ElapseOk(l, s, ms);
      case Request(subject) => RequestOk(l, s, subject);
      case SendExpire(k) => ExpireOk(l, s, k);
    }
  }

  // ---- Intervals ----

  predicate InInterval(h: Hit, subject: string, from: int, until: int)
  {
    h.key.subject == subject && from <= h.at <= until
  }

  function PassedBetween(l: Limiter, subject: string, from: int, until: int): Hit -> int
  {
    (h: Hit) => One(InInterval(h, subject, from, until) && Passes(l, h))
  }

  lemma {:induction false} SumCovered<T>(f: T -> int, g: T -> int, h: T -> int, xs: seq<T>)
    requires forall x :: x in xs ==> f(x) <= g(x) + h(x)
    ensures Sum(f, xs) <= Sum(g, xs) + Sum(h, xs)
  {
    if |xs| != 0 {
      SumCovered(f, g, h, xs[..|xs| - 1]);
    }
  }

  /** Hits that fall into one of two counters pass at most twice the limit. */
  lemma TwoCounters(l: Limiter, log: seq<Hit>, subject: string, from: int, until: int, a: Hit, b: Hit)
    requires Numbered(log)
    requires forall i :: 0 <= i < |log| && InInterval(log[i], subject, from, until) ==>
               Counted(log[i], a.key, a.since) || Counted(log[i], b.key, b.since)
    ensures Sum(PassedBetween(l, subject, from, until), log) <= 2 * l.limit
  {
    SumCovered(PassedBetween(l, subject, from, until), Passed(l, a.key, a.since), Passed(l, b.key, b.since), log);
    PassesPerCounter(l, log, a.key, a.since);
    PassesPerCounter(l, log, b.key, b.since);
  }

  // ---- The organization guard: one key per bucket ----

  function OrgLimiter(limit: nat, window: nat): Limiter
    requires window >= 1
  {
    Limiter(limit, window, (t: int) => t / window)
  }

  lemma OneCounterPerBucket(limit: nat, window: nat, s: State, i: nat, j: nat)
    requires window >= 1 && Ok(OrgLimiter(limit, window), s)
    requires i < |s.log| && j < |s.log| && s.log[i].key == s.log[j].key
    ensures s.log[i].since == s.log[j].since
  {
    var l := OrgLimiter(limit, window);
    assert HitOk(l, s, s.log[i]) && HitOk(l, s, s.log[j]);
    var a, b := if i <= j then i else j, if i <= j then j else i;
    if s.log[a].since < s.log[b].since {
      SameQuotient(s.log[a].since, s.log[b].since, window);
    }
  }

  function HitsIn(k: Key): Hit -> int { (h: Hit) => One(h.key == k) }

  function PassedIn(l: Limiter, k: Key): Hit -> int { (h: Hit) => One(h.key == k && Passes(l, h)) }

  lemma {:induction false} SumAgrees<T>(f: T -> int, g: T -> int, xs: seq<T>)
    requires forall x :: x in xs ==> f(x) == g(x)
    ensures Sum(f, xs) == Sum(g, xs)
  {
    if |xs| != 0 {
      SumAgrees(f, g, xs[..|xs| - 1]);
    }
  }

  /** A log with one counter for each key and one key for each bucket of a subject. */
  ghost predicate Windowed(log: seq<Hit>, window: nat)
    requires window >= 1
  {
    && (forall i :: 0 <= i < |log| ==> log[i].key.bucket == log[i].at / window)
    && (forall i, j :: 0 <= i <= j < |log| ==>
        log[i].at <= log[j].at && (log[i].key == log[j].key ==> log[i].since == log[j].since))
  }

  lemma OrgWindowed(limit: nat, window: nat, clock: int, events: seq<Event>)
    requires window >= 1
    ensures Windowed(Run(OrgLimiter(limit, window), Initial(clock), events).log, window)
    ensures Numbered(Run(OrgLimiter(limit, window), Initial(clock), events).log)
  {
    var l := OrgLimiter(limit, window);
    var s := Run(l, Initial(clock), events);
    RunOk(l, clock, events);
    forall i | 0 <= i < |s.log| ensures s.log[i].key.bucket == s.log[i].at / window {
      assert HitOk(l, s, s.log[i]);
    }
    forall i, j | 0 <= i <= j < |s.log| && s.log[i].key == s.log[j].key ensures s.log[i].since == s.log[j].since {
      OneCounterPerBucket(limit, window, s, i, j);
    }
  }

  lemma PassesPerKey(l: Limiter, log: seq<Hit>, window: nat, k: Key)
    requires window >= 1 && Windowed(log, window) && Numbered(log)
    ensures Sum(PassedIn(l, k), log) == Min(Sum(HitsIn(k), log), l.limit)
  {
    var since := 0;
    if i :| 0 <= i < |log| && log[i].key == k {
      since := log[i].since;
    }
    assert forall h :: h in log ==> (h.key == k <==> Counted(h, k, since));
    SumAgrees(HitsIn(k), Hits(k, since), log);
    SumAgrees(PassedIn(l, k), Passed(l, k, since), log);
    PassesPerCounter(l, log, k, since);
  }

  /** In every interleaving exactly `min(requests, limit)` requests pass per organization and bucket. */
  lemma PassesPerBucket(limit: nat, window: nat, clock: int, events: seq<Event>, org: string, bucket: int)
    requires window >= 1
    ensures var l := OrgLimiter(limit, window);
            var log := Run(l, Initial(clock), events).log;
            && Sum(PassedIn(l, Key(org, bucket)), log) == Min(Sum(HitsIn(Key(org, bucket)), log), limit)
            && forall i :: 0 <= i < |log| ==> log[i].key.bucket == log[i].at / window
  {
    var l := OrgLimiter(limit, window);
    OrgWindowed(limit, window, clock, events);
    PassesPerKey(l, Run(l, Initial(clock), events).log, window, Key(org, bucket));
  }

  /** A counter never expires within its own bucket. */
  lemma AliveInItsBucket(limit: nat, window: nat, clock: int, events: seq<Event>, k: Key)
    requires window >= 1
    ensures var s := Run(OrgLimiter(limit, window), Initial(clock), events);
            k in s.store && s.clock / window == k.bucket ==> Alive(s.store, k, s.clock)
  {
    var l := OrgLimiter(limit, window);
    var s := Run(l, Initial(clock), events);
    RunOk(l, clock, events);
    assert StoreOk(l, s, k);
    if k in s.store && s.clock / window == k.bucket {
      SameQuotient(s.store[k].since, s.clock, window);
    }
  }

  // ---- The flood check: one key per client, a lifetime at a time ----

  function FloodLimiter(limit: nat, window: nat): Limiter { Limiter(limit, window, (t: int) => 0) }

  // ---- At most twice the limit in any window ----

  ghost predicate Ends(log: seq<Hit>, subject: string, from: int, until: int, i: nat, j: nat)
  {
    && i <= j < |log| && InInterval(log[i], subject, from, until) && InInterval(log[j], subject, from, until)
    && forall m :: 0 <= m < |log| && InInterval(log[m], subject, from, until) ==> i <= m <= j
  }

  lemma {:induction false} FindEnds(log: seq<Hit>, subject: string, from: int, until: int) returns (i: nat, j: nat)
    ensures Ends(log, subject, from, until, i, j)
            || forall m :: 0 <= m < |log| ==> !InInterval(log[m], subject, from, until)
  {
    i, j := 0, 0;
    if |log| != 0 {
      var n := |log| - 1;
      i, j := FindEnds(log[..n], subject, from, until);
      if InInterval(log[n], subject, from, until) {
        if !Ends(log[..n], subject, from, until, i, j) {
          i := n;
        }
        j := n;
      }
    }
  }

  predicate SameCounter(a: Hit, b: Hit) { a.key == b.key && a.since == b.since }

  /** A hit of the interval between two others belongs to the counter of one of them. */
  lemma WindowCover(log: seq<Hit>, window: nat, org: string, from: int, until: int, i: nat, m: nat, j: nat)
    requires window >= 1 && Windowed(log, window) && i <= m <= j < |log| && until == from + window - 1
    requires InInterval(log[i], org, from, until) && InInterval(log[m], org, from, until)
        && InInterval(log[j], org, from, until)
    ensures SameCounter(log[m], log[i]) || SameCounter(log[m], log[j])
  {
    LaterQuotient(log[i].at, log[m].at, window);
    LaterQuotient(log[m].at, log[j].at, window);
    LaterQuotient(log[i].at, log[j].at, window);
    assert log[m].key == log[i].key || log[m].key == log[j].key;
  }

  lemma WindowedInterval(l: Limiter, log: seq<Hit>, window: nat, org: string, from: int, until: int)
    requires window >= 1 && Windowed(log, window) && Numbered(log) && until == from + window - 1
    ensures Sum(PassedBetween(l, org, from, until), log) <= 2 * l.limit
  {
    var i, j := FindEnds(log, org, from, until);
    var a, b := Hit(Key(org, 0), 0, 0, 0), Hit(Key(org, 0), 0, 0, 0);
    if Ends(log, org, from, until, i, j) {
      a, b := log[i], log[j];
      forall m | 0 <= m < |log| && InInterval(log[m], org, from, until)
        ensures SameCounter(log[m], a) || SameCounter(log[m], b)
      {
        WindowCover(log, window, org, from, until, i, m, j);
      }
    }
    TwoCounters(l, log, org, from, until, a, b);
  }

  /** Any interval of one window's length admits at most twice the limit of an organization's requests. */
  lemma OrgIntervalBound(limit: nat, window: nat, clock: int, events: seq<Event>, org: string, from: int)
    requires window >= 1
    ensures var l := OrgLimiter(limit, window);
            Sum(PassedBetween(l, org, from, from + window - 1), Run(l, Initial(clock), events).log) <= 2 * limit
  {
    var l := OrgLimiter(limit, window);
    var log := Run(l, Initial(clock), events).log;
    OrgWindowed(limit, window, clock, events);
    WindowedInterval(l, log, window, org, from, from + window - 1);
  }

  /** A log in which each subject has one key, and counters of one key lie a window or more apart. */
  ghost predicate Spaced(log: seq<Hit>, window: nat)
  {
    && (forall i :: 0 <= i < |log| ==> log[i].key.bucket == 0 && log[i].since <= log[i].at)
    && (forall i, j :: 0 <= i < j < |log| ==> log[i].at <= log[j].at)
    && (forall i, j :: 0 <= i < j < |log| && log[i].key == log[j].key ==>
          log[i].since == log[j].since || (log[i].since + window <= log[j].since && log[i].at <= log[j].since))
  }

  lemma FloodSpaced(limit: nat, window: nat, clock: int, events: seq<Event>)
    requires window >= 1
    ensures Spaced(Run(FloodLimiter(limit, window), Initial(clock), events).log, window)
    ensures Numbered(Run(FloodLimiter(limit, window), Initial(clock), events).log)
  {
    var l := FloodLimiter(limit, window);
    var s := Run(l, Initial(clock), events);
    RunOk(l, clock, events);
    forall i | 0 <= i < |s.log| ensures s.log[i].key.bucket == 0 && s.log[i].since <= s.log[i].at {
      assert HitOk(l, s, s.log[i]);
    }
  }

  lemma SpacedCover(log: seq<Hit>, window: nat, client: string, from: int, until: int, i: nat, m: nat, j: nat)
    requires Spaced(log, window) && i <= m <= j < |log| && until == from + window - 1
    requires InInterval(log[i], client, from, until) && InInterval(log[m], client, from, until)
        && InInterval(log[j], client, from, until)
    ensures SameCounter(log[m], log[i]) || SameCounter(log[m], log[j])
  {
  }

  lemma SpacedInterval(l: Limiter, log: seq<Hit>, window: nat, client: string, from: int, until: int)
    requires Spaced(log, window) && Numbered(log) && until == from + window - 1
    ensures Sum(PassedBetween(l, client, from, until), log) <= 2 * l.limit
  {
    var i, j := FindEnds(log, client, from, until);
    var a, b := Hit(Key(client, 0), 0, 0, 0), Hit(Key(client, 0), 0, 0, 0);
    if Ends(log, client, from, until, i, j) {
      a, b := log[i], log[j];
      forall m | 0 <= m < |log| && InInterval(log[m], client, from, until)
        ensures SameCounter(log[m], a) || SameCounter(log[m], b)
      {
        SpacedCover(log, window, client, from, until, i, m, j);
      }
    }
    TwoCounters(l, log, client, from, until, a, b);
  }

  /** The flood check, whose windows start with a client's first request, admits no more either. */
  lemma FloodIntervalBound(limit: nat, window: nat, clock: int, events: seq<Event>, client: string, from: int)
    requires window >= 1
    ensures var l := FloodLimiter(limit, window);
            Sum(PassedBetween(l, client, from, from + window - 1), Run(l, Initial(clock), events).log) <= 2 * limit
  {
    var l := FloodLimiter(limit, window);
    var log := Run(l, Initial(clock), events).log;
    FloodSpaced(limit, window, clock, events);
    SpacedInterval(l, log, window, client, from, from + window - 1);
  }

  /** In every interleaving exactly `min(requests, limit)` requests pass in each lifetime of a client's counter. */
  lemma PassesPerLifetime(limit: nat, window: nat, clock: int, events: seq<Event>, client: string, since: int)
    requires window >= 1
    ensures var l := FloodLimiter(limit, window);
            var log := Run(l, Initial(clock), events).log;
            && Sum(Passed(l, Key(client, 0), since), log) == Min(Sum(Hits(Key(client, 0), since), log), limit)
            && Spaced(log, window)
  {
    var l := FloodLimiter(limit, window);
    FloodSpaced(limit, window, clock, events);
    PassesPerCounter(l, Run(l, Initial(clock), events).log, Key(client, 0), since);
  }

  // ---- The bound is attained where two buckets meet ----

  function Burst(org: string, n: nat): seq<Event> { if n == 0 then [] else Burst(org, n - 1) + [Request(org)] }

  lemma {:induction false} RunConcat(l: Limiter, s: State, xs: seq<Event>, ys: seq<Event>)
    ensures Run(l, s, xs + ys) == Run(l, Run(l, s, xs), ys)
  {
    if |ys| == 0 {
      assert xs + ys == xs;
    } else {
      RunConcat(l, s, xs, ys[..|ys| - 1]);
      assert (xs + ys)[..|xs + ys| - 1] == xs + ys[..|ys| - 1];
    }
  }

  /** A burst adds hits of one key, all at one instant. */
  lemma {:induction false} BurstHits(l: Limiter, s: State, org: string, n: nat)
    ensures var t := Run(l, s, Burst(org, n));
            && t.clock == s.clock && |t.log| == |s.log| + n && t.log[..|s.log|] == s.log
            && forall i :: |s.log| <= i < |t.log| ==> t.log[i].at == s.clock && t.log[i].key == KeyFor(l, org, s.clock)
  {
    if n != 0 {
      BurstHits(l, s, org, n - 1);
      assert Burst(org, n)[..|Burst(org, n)| - 1] == Burst(org, n - 1);
    } else {
      assert s.log[..|s.log|] == s.log;
    }
  }

  lemma {:induction false} CountKey(log: seq<Hit>, k: Key, n: nat)
    requires n <= |log|
    requires forall i :: 0 <= i < |log| ==> (log[i].key == k <==> i < n)
    ensures Sum(HitsIn(k), log) == n
  {
    if |log| != 0 {
      CountKey(log[..|log| - 1], k, if n == |log| then n - 1 else n);
    }
  }

  lemma {:induction false} CountLaterKey(log: seq<Hit>, k: Key, n: nat)
    requires n <= |log|
    requires forall i :: 0 <= i < |log| ==> (log[i].key == k <==> i >= n)
    ensures Sum(HitsIn(k), log) == |log| - n
  {
    if |log| != 0 {
      CountLaterKey(log[..|log| - 1], k, if n == |log| then n - 1 else n);
    }
  }

  lemma {:induction false} SumOfBoth<T>(f: T -> int, g: T -> int, h: T -> int, xs: seq<T>)
    requires forall x :: x in xs ==> f(x) == g(x) + h(x)
    ensures Sum(f, xs) == Sum(g, xs) + Sum(h, xs)
  {
    if |xs| != 0 {
      SumOfBoth(f, g, h, xs[..|xs| - 1]);
    }
  }

  /** The last millisecond of a bucket and the first of the next: a full allowance in each. */
  function Edge(org: string, limit: nat): seq<Event> { Burst(org, limit) + [Elapse(1)] + Burst(org, limit) }

  lemma EdgeHits(limit: nat, window: nat, org: string)
    requires window >= 1
    ensures var log := Run(OrgLimiter(limit, window), Initial(window - 1), Edge(org, limit)).log;
            && |log| == 2 * limit
            && (forall i :: 0 <= i < limit ==> log[i].at == window - 1 && log[i].key == Key(org, 0))
            && (forall i :: limit <= i < |log| ==> log[i].at == window && log[i].key == Key(org, 1))
  {
    var l, s := OrgLimiter(limit, window), Initial(window - 1);
    var a := Run(l, s, Burst(org, limit));
    var b := Run(l, s, Burst(org, limit) + [Elapse(1)]);
    BurstHits(l, s, org, limit);
    RunConcat(l, s, Burst(org, limit), [Elapse(1)]);
    OneElapse(l, a);
    BurstHits(l, b, org, limit);
    RunConcat(l, s, Burst(org, limit) + [Elapse(1)], Burst(org, limit));
    FirstBuckets(window);
    var log := Run(l, s, Edge(org, limit)).log;
    assert forall i :: 0 <= i < limit ==> log[i] == log[..limit][i] && log[..limit][i] == a.log[i];
  }

  lemma OneElapse(l: Limiter, s: State)
    ensures Run(l, s, [Elapse(1)]) == s.(clock := s.clock + 1)
  {
    assert [Elapse(1)][..0] == [];
  }

  lemma FirstBuckets(window: nat)
    requires window >= 1
    ensures (window - 1) / window == 0 && window / window == 1
  {
  }

  /** Twice the limit does pass within two milliseconds. */
  lemma OrgIntervalAttained(limit: nat, window: nat, org: string)
    requires window >= 1
    ensures var l := OrgLimiter(limit, window);
            Sum(PassedBetween(l, org, window - 1, window), Run(l, Initial(window - 1), Edge(org, limit)).log)
                == 2 * limit
  {
    var l := OrgLimiter(limit, window);
    var log := Run(l, Initial(window - 1), Edge(org, limit)).log;
    EdgeHits(limit, window, org);
    PassesPerBucket(limit, window, window - 1, Edge(org, limit), org, 0);
    PassesPerBucket(limit, window, window - 1, Edge(org, limit), org, 1);
    CountKey(log, Key(org, 0), limit);
    CountLaterKey(log, Key(org, 1), limit);
    SumOfBoth(PassedBetween(l, org, window - 1, window), PassedIn(l, Key(org, 0)), PassedIn(l, Key(org, 1)), log);
  }

  // ---- No organization's traffic changes another's verdicts ----

  /** What is left of a run when all other subjects are silent. */
  function Only(events: seq<Event>, subject: string): seq<Event>
  {
    if |events| == 0 then []
    else
      var v, front := events[|events| - 1], Only(events[..|events| - 1], subject);
      match v
      case Elapse(_) => front + [v]
      case Request(other) => if other == subject then front + [v] else front
      case SendExpire(k) => if k.subject == subject then front + [v] else front
  }

  function LogOf(log: seq<Hit>, subject: string): seq<Hit>
  {
    if |log| == 0 then []
    else
      var h, front := log[|log| - 1], LogOf(log[..|log| - 1], subject);
      if h.key.subject == subject then front + [h] else front
  }

  /** `n` is what `subject` sees of `s`. */
  ghost predicate Agree(s: State, n: State, subject: string)
  {
    && n.clock == s.clock
    && n.log == LogOf(s.log, subject)
    && forall k: Key :: k.subject == subject ==> AgreeAt(s, n, k)
  }

  predicate AgreeAt(s: State, n: State, k: Key)
  {
    && (k in s.store <==> k in n.store)
    && (k in s.store ==> s.store[k] == n.store[k])
    && s.pending[k] == n.pending[k]
  }

  lemma OwnRequestAt(l: Limiter, s: State, n: State, subject: string, k: Key)
    requires n.clock == s.clock && AgreeAt(s, n, k) && AgreeAt(s, n, KeyFor(l, subject, s.clock))
    ensures AgreeAt(Next(l, s, Request(subject)), Next(l, n, Request(subject)), k)
  {
    var q := KeyFor(l, subject, s.clock);
    assert Incr(s.store, q, s.clock)[q] == Incr(n.store, q, n.clock)[q];
  }

  lemma LogOfSnoc(log: seq<Hit>, h: Hit, subject: string)
    ensures LogOf(log + [h], subject)
            == if h.key.subject == subject then LogOf(log, subject) + [h] else LogOf(log, subject)
  {
    assert (log + [h])[..|log|] == log;
  }

  lemma OwnRequest(l: Limiter, s: State, n: State, subject: string)
    requires Agree(s, n, subject)
    ensures Agree(Next(l, s, Request(subject)), Next(l, n, Request(subject)), subject)
  {
    var k := KeyFor(l, subject, s.clock);
    assert AgreeAt(s, n, k);
    assert Incr(s.store, k, s.clock)[k] == Incr(n.store, k, n.clock)[k];
    forall q: Key | q.subject == subject
      ensures AgreeAt(Next(l, s, Request(subject)), Next(l, n, Request(subject)), q)
    {
      OwnRequestAt(l, s, n, subject, q);
    }
    LogOfSnoc(s.log, Next(l, s, Request(subject)).log[|s.log|], subject);
  }

  lemma OwnExpire(l: Limiter, s: State, n: State, k: Key)
    requires Agree(s, n, k.subject)
    ensures Agree(Next(l, s, SendExpire(k)), Next(l, n, SendExpire(k)), k.subject)
  {
    assert AgreeAt(s, n, k);
  }

  lemma OwnStep(l: Limiter, s: State, n: State, v: Event, subject: string)
    requires Agree(s, n, subject)
    requires v.Elapse? || v == Request(subject) || (v.SendExpire? && v.key.subject == subject)
    ensures Agree(Next(l, s, v), Next(l, n, v), subject)
  {
    match v
    case Elapse(_) =>
    case Request(_) => OwnRequest(l, s, n, subject);
    case SendExpire(k) => OwnExpire(l, s, n, k);
  }

  lemma OthersStepAt(l: Limiter, s: State, n: State, v: Event, k: Key)
    requires AgreeAt(s, n, k)
    requires (v.Request? && v.subject != k.subject) || (v.SendExpire? && v.key != k)
    ensures AgreeAt(Next(l, s, v), n, k)
  {
  }

  lemma OthersStep(l: Limiter, s: State, n: State, v: Event, subject: string)
    requires Agree(s, n, subject)
    requires (v.Request? && v.subject != subject) || (v.SendExpire? && v.key.subject != subject)
    ensures Agree(Next(l, s, v), n, subject)
  {
    forall q: Key | q.subject == subject ensures AgreeAt(Next(l, s, v), n, q) {
      OthersStepAt(l, s, n, v, q);
    }
    if v.Request? {
      LogOfSnoc(s.log, Next(l, s, v).log[|s.log|], subject);
    }
  }

  /** A subject's answers are those it would have got alone: same times, same counts, same verdicts. */
  lemma {:induction false} NonInterference(l: Limiter, clock: int, events: seq<Event>, subject: string)
    ensures Agree(Run(l, Initial(clock), events), Run(l, Initial(clock), Only(events, subject)), subject)
  {
    if |events| != 0 {
      var front, v := events[..|events| - 1], events[|events| - 1];
      var s, n := Run(l, Initial(clock), front), Run(l, Initial(clock), Only(front, subject));
      NonInterference(l, clock, front, subject);
      if v.Elapse? || v == Request(subject) || (v.SendExpire? && v.key.subject == subject) {
        OwnStep(l, s, n, v, subject);
        assert (Only(front, subject) + [v])[..|Only(front, subject)|] == Only(front, subject);
      } else {
        OthersStep(l, s, n, v, subject);
      }
    }
  }

  // ---- The guard and the flood check themselves ----

  /** A request and, if it is a counter's first hit, its `EXPIRE`: two steps of the protocol, undisturbed. */
  function Bumped(l: Limiter, store: Store, subject: string, now: int): (s: State)
    ensures |s.log| == 1
  {
    var requested := Next(l, State(now, store, multiset{}, []), Request(subject));
    Next(l, requested, SendExpire(KeyFor(l, subject, now)))
  }

  /**
   * A request counted in `before` at `now`; its `EXPIRE`, if it was a counter's first hit, arrives at `later`
   * and finds `at`.
   */
  ghost predicate Counts(l: Limiter, before: Store, subject: string, now: int, later: int, at: Store, after: Store,
                         count: nat)
  {
    var k := KeyFor(l, subject, now);
    && count == Incr(before, k, now)[k].count
    && (count == 1 ==> after == Expire(at, k, later, l.window))
    && (count != 1 ==> after == at == Incr(before, k, now))
  }

  class RateLimiter {
    const limiter: Limiter
    var store: Store

    constructor (limiter: Limiter)
      ensures this.limiter == limiter && store == map[]
    {
      this.limiter := limiter;
      store := map[];
    }

    /** Other requests run while this one awaits; nothing is assumed of them. */
    method Await(ghost quiet: bool)
      modifies this`store
      ensures quiet ==> store == old(store)
    {
    }

    /**
     * `INCR`, then on a first hit `EXPIRE`, with others in between. Undisturbed and at once, the two steps of
     * the protocol above.
     */
    method Bump(subject: string, now: int, later: int, ghost quiet: bool) returns (count: nat, ghost at: Store)
      modifies this`store
      ensures Counts(limiter, old(store), subject, now, later, at, store, count)
      ensures count == Bumped(limiter, old(store), subject, now).log[0].count
      // an expired counter starts over; a first hit that is still there when its `EXPIRE` arrives gets its end
      ensures var k := Key(subject, limiter.bucketOf(now));
              var alive := k in old(store) && (old(store)[k].expires.None? || now < old(store)[k].expires.value);
              && count == (if alive then old(store)[k].count else 0) + 1
              && (count != 1 ==> store == old(store)[k := old(store)[k].(count := count)])
              && (count == 1 && k in at && (at[k].expires.None? || later < at[k].expires.value) ==>
                    store == at[k := at[k].(expires := Some(later + limiter.window))])
      ensures var k := Key(subject, limiter.bucketOf(now));
              var alive := k in old(store) && (old(store)[k].expires.None? || now < old(store)[k].expires.value);
              quiet && !alive && now <= later ==>
                store == old(store)[k := Counter(1, now, Some(later + limiter.window))]
      ensures quiet ==> at == Incr(old(store), KeyFor(limiter, subject, now), now)
      ensures quiet && later == now ==> store == Bumped(limiter, old(store), subject, now).store
    {
      var k := KeyFor(limiter, subject, now);
      store := Incr(store, k, now);
      count, at := store[k].count, store;
      if count == 1 {
        Await(quiet);
        at := store;
        store := Expire(store, k, later, limiter.window);
      }
    }

    /** Requests without an organization are not limited; the others are counted, passed or not. */
    method CanActivate(org: Option<string>, now: int, later: int, ghost quiet: bool)
      returns (allowed: bool, ghost count: nat, ghost at: Store)
      modifies this`store
      ensures org.None? || org.value == "" ==> allowed && store == old(store)
      ensures org.Some? && org.value != "" ==>
                var k := Key(org.value, limiter.bucketOf(now));
                var alive := k in old(store) && (old(store)[k].expires.None? || now < old(store)[k].expires.value);
                allowed == ((if alive then old(store)[k].count else 0) + 1 <= limiter.limit)
      ensures org.Some? && org.value != "" ==>
                && Counts(limiter, old(store), org.value, now, later, at, store, count)
                && allowed == Passes(limiter, Bumped(limiter, old(store), org.value, now).log[0])
                && (quiet && later == now ==> store == Bumped(limiter, old(store), org.value, now).store)
    {
      count, at := 0, store;
      if org.None? || org.value == "" {
        allowed := true;
        return;
      }
      var n, found := Bump(org.value, now, later, quiet);
      count, at := n, found;
      allowed := n <= limiter.limit;
    }

    /** The flood check counts the call it is asked about, and lets it through up to the allowance. */
    method AssertNotFlooding(scope: string, ip: string, now: int, later: int, ghost quiet: bool)
      returns (allowed: bool, ghost count: nat, ghost at: Store)
      modifies this`store
      ensures Counts(limiter, old(store), scope + ":" + ip, now, later, at, store, count)
      // only a counter that has not run out counts against the allowance, and a new one runs out a window later
      ensures var k := Key(scope + ":" + ip, limiter.bucketOf(now));
              var alive := k in old(store) && (old(store)[k].expires.None? || now < old(store)[k].expires.value);
              && count == (if alive then old(store)[k].count else 0) + 1
              && allowed == (count <= limiter.limit)
              && (!alive && quiet && now <= later ==>
                    store == old(store)[k := Counter(1, now, Some(later + limiter.window))])
      ensures allowed == Passes(limiter, Bumped(limiter, old(store), scope + ":" + ip, now).log[0])
      ensures quiet && later == now ==> store == Bumped(limiter, old(store), scope + ":" + ip, now).store
    {
      var n, found := Bump(scope + ":" + ip, now, later, quiet);
      count, at := n, found;
      allowed := n <= limiter.limit;
    }
  }
}
